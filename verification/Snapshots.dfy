/** What a client reads about one slot when it asks the contract. */
module Snapshots {
  import opened Basics
  import R = RandomRules
  import W = RandomWorld
  import P = ProviderStatus
  import B = StatusBridge
  import opened Delivery

  /** What a client reads: the contract's report of this world, sent as bytes and decoded. */
  ghost function Reported(x: W.World, p: Provider): seq<P.ProviderSlot>
    requires W.WorldOk(x) && x.tick <= U32_MAX
  {
    B.StatusIsTruthful(x, p.id, P.SlotKey(0, p.tier));
    P.Parse(P.Layout(P.ReportOf(P.AllHoldings(x.c, p.id)))).slots
  }

  /** The update tick a client reads for this slot. */
  ghost function Shown(x: W.World, p: Provider, stream: nat): Option<nat>
    requires W.WorldOk(x) && x.tick <= U32_MAX && stream < 3
  {
    var found := P.SlotFor(Reported(x, p), P.SlotKey(stream, p.tier));
    if found.Some? then Some(found.value.lastUpdate) else None
  }

  lemma AbsentShowsNothing(x: W.World, p: Provider, stream: nat)
    requires W.WorldOk(x) && x.tick <= U32_MAX && stream < 3
    ensures Shown(x, p, stream).None? <==> AbsentKey(x.c.streams[stream], p)
  {
    B.StatusIsTruthful(x, p.id, P.SlotKey(stream, p.tier));
    var s := x.c.streams[stream];
    assert forall i :: 0 <= i < |s| ==> s[i] in s;
    assert forall y :: y in s ==> exists i :: 0 <= i < |s| && s[i] == y;
    hide P.Parse, P.Layout, P.ReportOf, P.AllHoldings, P.SlotFor;
  }

  lemma PresentShowsItsTick(x: W.World, p: Provider, stream: nat, y: R.Slot)
    requires W.WorldOk(x) && x.tick <= U32_MAX && stream < 3 && y in x.c.streams[stream] && Has(y, p)
    ensures Shown(x, p, stream) == Some(y.lastUpdate)
  {
    B.StatusIsTruthful(x, p.id, P.SlotKey(stream, p.tier));
    var s := x.c.streams[stream];
    var i :| 0 <= i < |s| && s[i] == y;
    assert s[i].HasKey(p.id, p.tier);
    hide P.Parse, P.Layout, P.ReportOf, P.AllHoldings, P.SlotFor;
  }

  lemma HeldShowsItsTick(x: W.World, p: Provider, stream: nat, commit: Id, tick: nat)
    requires W.WorldOk(x) && x.tick <= U32_MAX && stream < 3
    requires Held(x.c.streams[stream], p, commit, tick) || Taken(x.c.streams[stream], p, commit, tick)
    ensures Shown(x, p, stream) == Some(tick)
  {
    var y :| y in x.c.streams[stream] && Has(y, p) && y.lastUpdate == tick;
    PresentShowsItsTick(x, p, stream, y);
    hide Shown;
  }
}
