/** From any reachable contract state through the report and its bytes to the client's view:
    nothing is lost, and what the decoder accepts is always a consistent set of slots. */
module StatusBridge {
  import opened Basics
  import opened RandomRules
  import opened RandomRounds
  import opened RandomWorld
  import opened ProviderStatus

  // ---------------------------------------------------------------- what the decoder accepts

  ghost predicate DistinctKeys(slots: seq<ProviderSlot>) {
    forall i, j :: 0 <= i < j < |slots| ==> slots[i].key != slots[j].key
  }

  ghost predicate AllInRange(slots: seq<ProviderSlot>) {
    forall i :: 0 <= i < |slots| ==> InRange(slots[i].key)
  }

  lemma {:induction false} NumbersBelow(n: nat, s: set<nat>)
    requires forall x :: x in s ==> x < n
    ensures |s| <= n
  {
    if n > 0 {
      NumbersBelow(n - 1, s - {n - 1});
    }
  }

  ghost predicate NumberUsed(slots: seq<ProviderSlot>, x: nat) {
    exists i :: 0 <= i < |slots| && InRange(slots[i].key) && KeyNumber(slots[i].key) == x
  }

  lemma {:induction false} DistinctNumbers(slots: seq<ProviderSlot>) returns (s: set<nat>)
    requires DistinctKeys(slots) && AllInRange(slots)
    ensures |s| == |slots|
    ensures forall x :: x in s ==> x < 30 && NumberUsed(slots, x)
  {
    if slots == [] {
      s := {};
    } else {
      var n := |slots| - 1;
      var r := DistinctNumbers(slots[..n]);
      var x := KeyNumber(slots[n].key);
      assert !NumberUsed(slots[..n], x);
      s := r + {x};
      forall y | y in s ensures y < 30 && NumberUsed(slots, y) {
        if y in r {
          var i :| 0 <= i < n && InRange(slots[..n][i].key) && KeyNumber(slots[..n][i].key) == y;
          assert KeyNumber(slots[i].key) == y;
        } else {
          assert KeyNumber(slots[n].key) == y;
        }
      }
    }
  }

  /** Thirty (stream, tier) pairs exist, so no consistent set of slots is larger. */
  lemma AtMostThirty(slots: seq<ProviderSlot>)
    requires DistinctKeys(slots) && AllInRange(slots)
    ensures |slots| <= 30
  {
    var s := DistinctNumbers(slots);
    NumbersBelow(30, s);
  }

  /** The entries up to n carry no complaint. */
  ghost predicate CleanUpTo(b: seq<Byte>, n: nat)
    requires |b| == PROVIDER_STATUS_SIZE && n <= 32
  {
    forall k: nat :: k < n ==> Complaint(b, k).None?
  }

  lemma {:induction false} ParseIsClean(b: seq<Byte>, k: nat, count: nat)
    requires |b| == PROVIDER_STATUS_SIZE && k <= count <= 32 && CleanUpTo(b, k)
    ensures ParseFrom(b, k, count).Slots? <==> CleanUpTo(b, count)
    ensures CleanUpTo(b, count) ==> ParseFrom(b, k, count) == Slots(SlotsIn(b, count))
    decreases count - k
  {
    if k < count && Complaint(b, k).None? {
      ParseIsClean(b, k + 1, count);
    }
  }

  ghost predicate FlagsOk(b: seq<Byte>, n: nat)
    requires |b| == PROVIDER_STATUS_SIZE && n <= 32
  {
    forall k: nat :: k < n ==> FlagByte(b, k) <= 1
  }

  lemma CleanIsConsistent(b: seq<Byte>, n: nat)
    requires |b| == PROVIDER_STATUS_SIZE && n <= 32
    ensures CleanUpTo(b, n) <==>
      && DistinctKeys(SlotsIn(b, n)) && AllInRange(SlotsIn(b, n))
      && FlagsOk(b, n)
  {
    var s := SlotsIn(b, n);
    if CleanUpTo(b, n) {
      forall i, j | 0 <= i < j < n ensures s[i].key != s[j].key {
        assert Complaint(b, j).None?;
        assert SlotsIn(b, j)[i].key == s[i].key;
      }
      forall k: nat | k < n ensures InRange(s[k].key) && FlagByte(b, k) <= 1 {
        assert Complaint(b, k).None?;
      }
    }
    if DistinctKeys(s) && AllInRange(s) && FlagsOk(b, n) {
      forall k: nat | k < n ensures Complaint(b, k).None? {
        assert s[k].key == KeyAt(b, k);
        if Listed(SlotsIn(b, k), KeyAt(b, k)) {
          var i :| 0 <= i < k && SlotsIn(b, k)[i].key == KeyAt(b, k);
          assert s[i].key == s[k].key;
        }
      }
    }
  }

  /** A response is accepted exactly when it has the size, a count of at most 32, flags 0 or 1,
      keys in range and no key twice; it then yields its entries, at most thirty of them. */
  lemma DecodeAccepts(b: seq<Byte>)
    ensures Parse(b).Slots? <==>
      && |b| == PROVIDER_STATUS_SIZE && ReadU32(b, 0) <= 32
      && var s := SlotsIn(b, ReadU32(b, 0));
        DistinctKeys(s) && AllInRange(s) && FlagsOk(b, |s|)
    ensures Parse(b).Slots? ==>
      var s := Parse(b).slots; s == SlotsIn(b, ReadU32(b, 0)) && DistinctKeys(s) && |s| <= 30
  {
    if |b| == PROVIDER_STATUS_SIZE && ReadU32(b, 0) <= 32 {
      var n := ReadU32(b, 0);
      ParseIsClean(b, 0, n);
      CleanIsConsistent(b, n);
      if CleanUpTo(b, n) { AtMostThirty(SlotsIn(b, n)); }
    }
  }

  // ---------------------------------------------------------------- byte order

  /** The number that n bytes from a position on stand for, the least significant byte first. */
  function LittleEndian(b: seq<Byte>, at: nat, n: nat): nat
    requires at + n <= |b|
    decreases n
  {
    if n == 0 then 0 else b[at] + 256 * LittleEndian(b, at + 1, n - 1)
  }

  lemma ReadsLittleEndian(b: seq<Byte>, at: nat)
    ensures at + 4 <= |b| ==> ReadU32(b, at) == LittleEndian(b, at, 4)
    ensures at + 8 <= |b| ==> ReadU64(b, at) == LittleEndian(b, at, 8)
  {
    if at + 4 <= |b| {
      FourBytes(b, at);
      if at + 8 <= |b| { FourBytes(b, at + 4); EightBytes(b, at); }
    }
  }

  lemma FourBytes(b: seq<Byte>, at: nat)
    requires at + 4 <= |b|
    ensures ReadU32(b, at) == LittleEndian(b, at, 4)
  {
    assert LittleEndian(b, at + 3, 1) == b[at + 3] + 256 * LittleEndian(b, at + 4, 0);
    assert LittleEndian(b, at + 2, 2) == b[at + 2] + 256 * LittleEndian(b, at + 3, 1);
    assert LittleEndian(b, at + 1, 3) == b[at + 1] + 256 * LittleEndian(b, at + 2, 2);
  }

  lemma EightBytes(b: seq<Byte>, at: nat)
    requires at + 8 <= |b|
    ensures LittleEndian(b, at, 8) == LittleEndian(b, at, 4) + 0x1_0000_0000 * LittleEndian(b, at + 4, 4)
  {
    FourBytes(b, at);
    var rest := LittleEndian(b, at + 4, 4);
    assert LittleEndian(b, at + 3, 5) == b[at + 3] + 256 * rest;
    assert LittleEndian(b, at + 2, 6) == b[at + 2] + 256 * LittleEndian(b, at + 3, 5);
    assert LittleEndian(b, at + 1, 7) == b[at + 1] + 256 * LittleEndian(b, at + 2, 6);
    assert LittleEndian(b, at, 8) == b[at] + 256 * LittleEndian(b, at + 1, 7);
  }

  /** For instance, the bytes 4, 3, 2, 1 read as 0x01020304. */
  lemma ByteOrderExample(b: seq<Byte>, at: nat)
    requires at + 8 <= |b| && b[at..at + 8] == [4, 3, 2, 1, 8, 7, 6, 5]
    ensures ReadU32(b, at) == 0x0102_0304 && ReadU64(b, at) == 0x0506_0708_0102_0304
  {
    assert b[at] == b[at..at + 8][0] && b[at + 1] == b[at..at + 8][1] && b[at + 2] == b[at..at + 8][2] && b[at + 3] == b[at..at + 8][3];
    assert b[at + 4] == b[at..at + 8][4] && b[at + 5] == b[at..at + 8][5] && b[at + 6] == b[at..at + 8][6] && b[at + 7] == b[at..at + 8][7];
  }

  /** Where the decoder finds each field: the count first, then 32 streams, tiers, stakes, flags
      and update ticks, each number least significant byte first. */
  lemma DecodedFields(b: seq<Byte>, k: nat)
    requires Parse(b).Slots? && k < |Parse(b).slots|
    ensures |b| == 680 && k < 32
    ensures |Parse(b).slots| == LittleEndian(b, 0, 4)
    ensures Parse(b).slots[k] ==
      ProviderSlot(SlotKey(LittleEndian(b, 4 + 4 * k, 4), LittleEndian(b, 132 + 4 * k, 4)), LittleEndian(b, 264 + 8 * k, 8),
                   b[520 + k] == 1, LittleEndian(b, 552 + 4 * k, 4))
  {
    hide LittleEndian, ReadU32, ReadU64, Parse, DistinctKeys, AllInRange, FlagsOk;
    DecodeAccepts(b);
    ReadsLittleEndian(b, 0);
    ReadsLittleEndian(b, 4 + 4 * k);
    ReadsLittleEndian(b, 132 + 4 * k);
    ReadsLittleEndian(b, 264 + 8 * k);
    ReadsLittleEndian(b, 552 + 4 * k);
  }

  // ---------------------------------------------------------------- what the contract reports

  function SlotOf(e: Entry): ProviderSlot {
    ProviderSlot(SlotKey(e.stream, e.tier), e.locked, e.contributed, e.lastUpdate)
  }

  function SlotsOf(list: seq<Entry>): (s: seq<ProviderSlot>)
    ensures |s| == |list|
  {
    seq(|list|, k requires 0 <= k < |list| => SlotOf(list[k]))
  }

  ghost predicate EntryFits(e: Entry) {
    e.stream < 3 && e.tier < TIER_COUNT && e.locked <= 0xffff_ffff_ffff_ffff && e.lastUpdate <= U32_MAX
  }

  ghost predicate EntryApart(a: Entry, b: Entry) { a.stream != b.stream || a.tier != b.tier }

  /** In any order: no key twice, keys in range, amounts and ticks of the width they are sent in. */
  ghost predicate ListFits(list: seq<Entry>) {
    && (forall k :: 0 <= k < |list| ==> EntryFits(list[k]))
    && (forall i, j :: 0 <= i < j < |list| ==> EntryApart(list[i], list[j]))
  }

  lemma PowBound(t: nat)
    requires t < TIER_COUNT
    ensures Pow10(t) <= 1_000_000_000
  {
    assert Pow10(3) == 1000 && Pow10(6) == 1000000 && Pow10(9) == 1000000000;
  }

  /** e is the entry of a slot of p among the first n of s. */
  ghost predicate HeldBy(s: seq<Slot>, n: nat, p: Id, e: Entry)
    requires n <= |s|
  {
    exists i: nat :: i < n && s[i].provider == p && EntryOf(s[i], e.stream) == e
  }

  lemma {:induction false} HoldingsAre(s: seq<Slot>, stream: nat, n: nat, p: Id, e: Entry)
    requires n <= |s|
    ensures e in Holdings(s, stream, n, p) <==> e.stream == stream && HeldBy(s, n, p, e)
  {
    if n > 0 {
      HoldingsAre(s, stream, n - 1, p, e);
      if e.stream == stream && HeldBy(s, n, p, e) && !HeldBy(s, n - 1, p, e) {
        assert EntryOf(s[n - 1], stream) == e;
      }
    }
  }

  lemma {:induction false} HoldingsFit(s: seq<Slot>, stream: nat, tick: nat, n: nat, p: Id)
    requires stream < 3 && StreamOk(s, stream, tick) && tick <= U32_MAX && n <= |s|
    ensures ListFits(Holdings(s, stream, n, p))
    ensures forall e :: e in Holdings(s, stream, n, p) ==> e.stream == stream
  {
    if n > 0 {
      HoldingsFit(s, stream, tick, n - 1, p);
      var list, e := Holdings(s, stream, n - 1, p), EntryOf(s[n - 1], stream);
      if s[n - 1].provider == p {
        assert SlotRoundOk(s[n - 1], stream, tick);
        PowBound(e.tier);
        forall i | 0 <= i < |list| ensures EntryApart(list[i], e) {
          HoldingsAre(s, stream, n - 1, p, list[i]);
          var j: nat :| j < n - 1 && s[j].provider == p && EntryOf(s[j], stream) == list[i];
          if s[j].tier == e.tier { KeyAtOnePlace(s, n - 1, j); }
        }
      }
    }
  }

  lemma {:induction false} HoldingsUpToFit(w: World, streams: nat, p: Id)
    requires WorldOk(w) && w.tick <= U32_MAX && streams <= 3
    ensures ListFits(HoldingsUpTo(w.c, streams, p))
    ensures forall e :: e in HoldingsUpTo(w.c, streams, p) <==>
      e.stream < streams && HeldBy(w.c.streams[e.stream], |w.c.streams[e.stream]|, p, e)
  {
    if streams > 0 {
      var at := streams - 1;
      var s := w.c.streams[at];
      HoldingsUpToFit(w, at, p);
      assert StreamOk(s, at, w.tick);
      HoldingsFit(s, at, w.tick, |s|, p);
      var a, b := HoldingsUpTo(w.c, at, p), Holdings(s, at, |s|, p);
      forall i, j | 0 <= i < |a| && 0 <= j < |b| ensures EntryApart(a[i], b[j]) {
        assert a[i] in a && b[j] in b;
      }
      forall e ensures e in a + b <==> e.stream < streams && HeldBy(w.c.streams[e.stream], |w.c.streams[e.stream]|, p, e) {
        HoldingsAre(s, at, |s|, p, e);
      }
    }
  }

  /** The report goes through the streams and their slots in order. */
  ghost predicate InOrder(c: Contract, list: seq<Entry>)
    requires c.Ok()
  {
    forall i, j :: 0 <= i < j < |list| ==> list[i].stream <= list[j].stream < 3 && Before(c, list[i], list[j])
  }

  /** Entries of one stream come in the order of their slots. */
  ghost predicate Before(c: Contract, a: Entry, b: Entry)
    requires c.Ok()
  {
    a.stream == b.stream < 3 ==> SlotBefore(c.streams[b.stream], a, b)
  }

  ghost predicate SlotBefore(s: seq<Slot>, a: Entry, b: Entry) {
    exists x, y :: 0 <= x < y < |s| && EntryOf(s[x], a.stream) == a && EntryOf(s[y], b.stream) == b
  }

  lemma {:induction false} HoldingsInOrder(s: seq<Slot>, stream: nat, n: nat, p: Id, i: nat, j: nat)
    requires n <= |s| && i < j < |Holdings(s, stream, n, p)|
    ensures SlotBefore(s, Holdings(s, stream, n, p)[i], Holdings(s, stream, n, p)[j])
  {
    if n > 0 {
      var list := Holdings(s, stream, n - 1, p);
      if j < |list| {
        HoldingsInOrder(s, stream, n - 1, p, i, j);
      } else {
        HoldingsAre(s, stream, n - 1, p, list[i]);
        var x: nat :| x < n - 1 && s[x].provider == p && EntryOf(s[x], stream) == list[i];
        assert EntryOf(s[n - 1], stream) == Holdings(s, stream, n, p)[j];
      }
    }
  }

  lemma {:induction false} ReportsInOrder(c: Contract, streams: nat, p: Id)
    requires c.Ok() && streams <= 3
    ensures InOrder(c, HoldingsUpTo(c, streams, p))
    ensures forall e :: e in HoldingsUpTo(c, streams, p) ==> e.stream < streams
  {
    if streams > 0 {
      var at := streams - 1;
      var s := c.streams[at];
      var a, b := HoldingsUpTo(c, at, p), Holdings(s, at, |s|, p);
      ReportsInOrder(c, at, p);
      forall e | e in b ensures e.stream == at { HoldingsAre(s, at, |s|, p, e); }
      var all := a + b;
      forall i, j | 0 <= i < j < |all| ensures all[i].stream <= all[j].stream < 3 && Before(c, all[i], all[j]) {
        assert all[i] in all && all[j] in all;
        if |a| <= i {
          HoldingsInOrder(s, at, |s|, p, i - |a|, j - |a|);
        } else if j < |a| {
          assert a[i] in a && a[j] in a;
        } else {
          assert a[i] in a && b[j - |a|] in b;
        }
      }
    }
  }

  lemma ListIsConsistent(list: seq<Entry>)
    requires ListFits(list)
    ensures DistinctKeys(SlotsOf(list)) && AllInRange(SlotsOf(list)) && |list| <= 30
  {
    var s := SlotsOf(list);
    forall i, j | 0 <= i < j < |s| ensures s[i].key != s[j].key {
      assert EntryApart(list[i], list[j]);
    }
    forall i | 0 <= i < |s| ensures InRange(s[i].key) {
      assert EntryFits(list[i]);
    }
    AtMostThirty(s);
  }

  lemma ReportEncodes(list: seq<Entry>)
    requires ListFits(list) && |list| <= 30
    ensures Encodable(ReportOf(list))
  {
    forall k | 0 <= k < |list| ensures EntryFits(list[k]) {}
  }

  /** Encoding the report of any such list and decoding the bytes gives back exactly its slots. */
  lemma ReportRoundTrip(list: seq<Entry>)
    requires ListFits(list)
    ensures |list| <= 30 && Encodable(ReportOf(list))
    ensures Parse(Layout(ReportOf(list))) == Slots(SlotsOf(list))
  {
    ListIsConsistent(list);
    ReportEncodes(list);
    var r := ReportOf(list);
    var b := Layout(r);
    hide Layout, ReadU32, ReadU64;
    LayoutReads(r, 0);
    forall k: nat | k < |list| ensures SlotIn(b, k) == SlotOf(list[k]) && FlagByte(b, k) <= 1 {
      LayoutReads(r, k);
    }
    assert SlotsIn(b, |list|) == SlotsOf(list);
    DecodeAccepts(b);
  }

  /** The provider is enrolled in this stream and tier. */
  ghost predicate Enrolled(c: Contract, p: Id, key: SlotKey)
    requires c.Ok() && key.stream < 3
  {
    exists i: nat :: i < |c.streams[key.stream]| && c.streams[key.stream][i].HasKey(p, key.tier)
  }

  /** A key that is listed belongs to one entry only. */
  lemma LookupFinds(list: seq<Entry>, e: Entry)
    requires ListFits(list) && e in list
    ensures SlotFor(SlotsOf(list), SlotKey(e.stream, e.tier)) == Some(SlotOf(e))
  {
    var s, key := SlotsOf(list), SlotKey(e.stream, e.tier);
    ListIsConsistent(list);
    var k :| 0 <= k < |list| && list[k] == e;
    assert s[k].key == key;
    var found := SlotFor(s, key);
    assert Listed(s, key);
    var j :| 0 <= j < |s| && s[j] == found.value;
    assert j == k;
  }

  /** In every reachable state the report is complete (never truncated at 32), in the order of the
      streams and their slots, its bytes are accepted, and looking a key up tells whether the provider is enrolled there, with the
      slot's own stake, contribution mark and update tick. */
  lemma StatusIsTruthful(w: World, p: Id, key: SlotKey)
    requires WorldOk(w) && w.tick <= U32_MAX && key.stream < 3
    ensures |AllHoldings(w.c, p)| <= 30 && Encodable(ReportOf(AllHoldings(w.c, p)))
    ensures ReportOf(AllHoldings(w.c, p)).count == |AllHoldings(w.c, p)| && InOrder(w.c, AllHoldings(w.c, p))
    ensures var d := Parse(Layout(ReportOf(AllHoldings(w.c, p))));
      && d == Slots(SlotsOf(AllHoldings(w.c, p)))
      && (SlotFor(d.slots, key).None? <==> !Enrolled(w.c, p, key))
      && forall i: nat :: i < |w.c.streams[key.stream]| && w.c.streams[key.stream][i].HasKey(p, key.tier) ==>
           var x := w.c.streams[key.stream][i];
           SlotFor(d.slots, key) == Some(ProviderSlot(key, x.locked, x.contributed, x.lastUpdate))
  {
    var list := AllHoldings(w.c, p);
    ReportsInOrder(w.c, 3, p);
    HoldingsUpToFit(w, 3, p);
    ReportRoundTrip(list);
    var s := w.c.streams[key.stream];
    if Listed(SlotsOf(list), key) {
      var k :| 0 <= k < |list| && SlotsOf(list)[k].key == key;
      assert list[k] in list;
      assert Enrolled(w.c, p, key);
    }
    forall i: nat | i < |s| && s[i].HasKey(p, key.tier)
      ensures SlotFor(SlotsOf(list), key) == Some(ProviderSlot(key, s[i].locked, s[i].contributed, s[i].lastUpdate))
    {
      assert HeldBy(s, |s|, p, EntryOf(s[i], key.stream));
      LookupFinds(list, EntryOf(s[i], key.stream));
    }
  }
}
