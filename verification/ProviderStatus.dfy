/** The provider-status bridge: what GetProviderStatus reports, the 680-byte layout in which
    the report travels, and the client's strict decoder. */
module ProviderStatus {
  import opened Basics
  import opened RandomRules

  // ---------------------------------------------------------------- the report

  /** One enrolled (stream, tier) pair, as reported. */
  datatype Entry = Entry(stream: nat, tier: nat, locked: nat, contributed: bool, lastUpdate: nat)

  const MAX_PROVIDER_SLOTS: nat := 32

  /** The output structure: a count and five arrays of 32. */
  datatype Report = Report(count: nat, streams: seq<nat>, tiers: seq<nat>, locked: seq<nat>,
                           contributed: seq<nat>, lastUpdates: seq<nat>)
  {
    predicate Shaped() {
      |streams| == |tiers| == |locked| == |contributed| == |lastUpdates| == MAX_PROVIDER_SLOTS
    }
  }

  function EntryOf(x: Slot, stream: nat): Entry { Entry(stream, x.tier, x.locked, x.contributed, x.lastUpdate) }

  /** The provider's slots among the first n of a stream, in order. */
  function Holdings(s: seq<Slot>, stream: nat, n: nat, p: Id): seq<Entry>
    requires n <= |s|
  {
    if n == 0 then []
    else Holdings(s, stream, n - 1, p) + (if s[n - 1].provider == p then [EntryOf(s[n - 1], stream)] else [])
  }

  function HoldingsUpTo(c: Contract, streams: nat, p: Id): seq<Entry>
    requires c.Ok() && streams <= 3
  {
    if streams == 0 then []
    else HoldingsUpTo(c, streams - 1, p) + Holdings(c.streams[streams - 1], streams - 1, |c.streams[streams - 1]|, p)
  }

  function AllHoldings(c: Contract, p: Id): seq<Entry>
    requires c.Ok()
  {
    HoldingsUpTo(c, 3, p)
  }

  function Flag(b: bool): nat { if b then 1 else 0 }

  /** The first 32 entries, the rest of the arrays zero. */
  function ReportOf(e: seq<Entry>): (r: Report)
    ensures r.Shaped()
  {
    Report(Min(|e|, 32),
           seq(32, k requires 0 <= k < 32 => if k < |e| then e[k].stream else 0),
           seq(32, k requires 0 <= k < 32 => if k < |e| then e[k].tier else 0),
           seq(32, k requires 0 <= k < 32 => if k < |e| then e[k].locked else 0),
           seq(32, k requires 0 <= k < 32 => if k < |e| then Flag(e[k].contributed) else 0),
           seq(32, k requires 0 <= k < 32 => if k < |e| then e[k].lastUpdate else 0))
  }

  /** One more entry, unless 32 are already reported. */
  function Add(r: Report, e: Entry): (n: Report)
    requires r.Shaped()
    ensures n.Shaped()
  {
    if r.count < 32 then
      Report(r.count + 1, r.streams[r.count := e.stream], r.tiers[r.count := e.tier], r.locked[r.count := e.locked],
             r.contributed[r.count := Flag(e.contributed)], r.lastUpdates[r.count := e.lastUpdate])
    else r
  }

  lemma ReportGrows(s: seq<Entry>, e: Entry)
    ensures ReportOf(s + [e]) == Add(ReportOf(s), e)
  {
    var a, b := ReportOf(s + [e]), Add(ReportOf(s), e);
    assert a.streams == b.streams;
    assert a.tiers == b.tiers;
    assert a.locked == b.locked;
    assert a.contributed == b.contributed;
    assert a.lastUpdates == b.lastUpdates;
  }

  // ---------------------------------------------------------------- bytes

  type Byte = b: nat | b < 256

  function Le32(x: nat): (b: seq<Byte>)
    requires x <= U32_MAX
    ensures |b| == 4
  {
    [x % 256, x / 256 % 256, x / 256 / 256 % 256, x / 256 / 256 / 256]
  }

  function Le64(x: nat): (b: seq<Byte>)
    requires x <= 0xffff_ffff_ffff_ffff
    ensures |b| == 8
  {
    Le32(x % 0x1_0000_0000) + Le32(x / 0x1_0000_0000)
  }

  function ReadU32(b: seq<Byte>, at: nat): (x: nat)
    requires at + 4 <= |b|
    ensures x <= U32_MAX
  {
    (b[at] as int) + 256 * (b[at + 1] as int) + 65536 * (b[at + 2] as int) + 16777216 * (b[at + 3] as int)
  }

  function ReadU64(b: seq<Byte>, at: nat): (x: nat)
    requires at + 8 <= |b|
  {
    ReadU32(b, at) + 0x1_0000_0000 * ReadU32(b, at + 4)
  }

  lemma Digits(x: nat)
    ensures x == x % 256 + 256 * (x / 256 % 256) + 65536 * (x / 256 / 256 % 256) + 16777216 * (x / 256 / 256 / 256)
  {
    var a := x / 256;
    var b := a / 256;
    assert x == 256 * a + x % 256 && a == 256 * b + a % 256 && b == 256 * (b / 256) + b % 256;
  }

  lemma Le32Reads(x: nat, b: seq<Byte>, at: nat)
    requires x <= U32_MAX && at + 4 <= |b| && b[at..at + 4] == Le32(x)
    ensures ReadU32(b, at) == x
  {
    Digits(x);
    var f := b[at..at + 4];
    assert b[at] == f[0] && b[at + 1] == f[1] && b[at + 2] == f[2] && b[at + 3] == f[3];
    assert b[at] == Le32(x)[0] && b[at + 1] == Le32(x)[1] && b[at + 2] == Le32(x)[2] && b[at + 3] == Le32(x)[3];
  }

  lemma Le64Reads(x: nat, b: seq<Byte>, at: nat)
    requires x <= 0xffff_ffff_ffff_ffff && at + 8 <= |b| && b[at..at + 8] == Le64(x)
    ensures ReadU64(b, at) == x
  {
    assert b[at..at + 4] == b[at..at + 8][..4] == Le32(x % 0x1_0000_0000);
    assert b[at + 4..at + 8] == b[at..at + 8][4..] == Le32(x / 0x1_0000_0000);
    Le32Reads(x % 0x1_0000_0000, b, at);
    Le32Reads(x / 0x1_0000_0000, b, at + 4);
  }

  // ---------------------------------------------------------------- the layout

  const STREAMS_OFFSET: nat := 4
  const TIERS_OFFSET: nat := 132
  const COLLATERAL_OFFSET: nat := 264
  const CONTRIBUTED_OFFSET: nat := 520
  const LAST_UPDATE_OFFSET: nat := 552
  const PROVIDER_STATUS_SIZE: nat := 680

  predicate AllU32(xs: seq<nat>) { forall k :: 0 <= k < |xs| ==> xs[k] <= U32_MAX }
  predicate AllU64(xs: seq<nat>) { forall k :: 0 <= k < |xs| ==> xs[k] <= 0xffff_ffff_ffff_ffff }
  predicate AllBytes(xs: seq<nat>) { forall k :: 0 <= k < |xs| ==> xs[k] < 256 }

  function Words(xs: seq<nat>): (b: seq<Byte>)
    requires AllU32(xs)
    ensures |b| == 4 * |xs|
  {
    if xs == [] then [] else Words(xs[..|xs| - 1]) + Le32(xs[|xs| - 1])
  }

  function Quads(xs: seq<nat>): (b: seq<Byte>)
    requires AllU64(xs)
    ensures |b| == 8 * |xs|
  {
    if xs == [] then [] else Quads(xs[..|xs| - 1]) + Le64(xs[|xs| - 1])
  }

  function Octets(xs: seq<nat>): (b: seq<Byte>)
    requires AllBytes(xs)
    ensures |b| == |xs| && forall k :: 0 <= k < |xs| ==> b[k] == xs[k]
  {
    seq(|xs|, k requires 0 <= k < |xs| => xs[k])
  }

  predicate Encodable(r: Report) {
    && r.Shaped() && r.count <= U32_MAX
    && AllU32(r.streams) && AllU32(r.tiers) && AllU64(r.locked) && AllBytes(r.contributed) && AllU32(r.lastUpdates)
  }

  /** The aligned structure: four padding bytes precede the 64-bit array. */
  function Layout(r: Report): (b: seq<Byte>)
    requires Encodable(r)
    ensures |b| == PROVIDER_STATUS_SIZE
  {
    Le32(r.count) + Words(r.streams) + Words(r.tiers) + [0, 0, 0, 0] + Quads(r.locked)
      + Octets(r.contributed) + Words(r.lastUpdates)
  }

  lemma {:induction false} WordsAt(xs: seq<nat>, k: nat)
    requires AllU32(xs) && k < |xs|
    ensures Words(xs)[4 * k..4 * k + 4] == Le32(xs[k])
    decreases |xs|
  {
    var init := xs[..|xs| - 1];
    if k < |init| {
      WordsAt(init, k);
      assert Words(xs)[4 * k..4 * k + 4] == Words(init)[4 * k..4 * k + 4];
    }
  }

  lemma {:induction false} QuadsAt(xs: seq<nat>, k: nat)
    requires AllU64(xs) && k < |xs|
    ensures Quads(xs)[8 * k..8 * k + 8] == Le64(xs[k])
    decreases |xs|
  {
    var init := xs[..|xs| - 1];
    if k < |init| {
      QuadsAt(init, k);
      assert Quads(xs)[8 * k..8 * k + 8] == Quads(init)[8 * k..8 * k + 8];
    }
  }

  lemma LayoutParts(r: Report)
    requires Encodable(r)
    ensures var b := Layout(r);
      && b[0..4] == Le32(r.count)
      && b[4..132] == Words(r.streams)
      && b[132..260] == Words(r.tiers)
      && b[264..520] == Quads(r.locked)
      && b[520..552] == Octets(r.contributed)
      && b[552..680] == Words(r.lastUpdates)
  {
  }

  lemma PartReads(b: seq<Byte>, lo: nat, hi: nat, at: nat, n: nat)
    requires lo <= hi <= |b| && at + n <= hi - lo
    ensures b[lo + at..lo + at + n] == b[lo..hi][at..at + n]
  {
    var x, y := b[lo + at..lo + at + n], b[lo..hi][at..at + n];
    assert forall k :: 0 <= k < n ==> x[k] == y[k];
  }

  /** Every field of the structure can be read back at its offset. */
  lemma LayoutReads(r: Report, k: nat)
    requires Encodable(r) && k < 32
    ensures var b := Layout(r);
      && ReadU32(b, 0) == r.count
      && ReadU32(b, STREAMS_OFFSET + k * 4) == r.streams[k]
      && ReadU32(b, TIERS_OFFSET + k * 4) == r.tiers[k]
      && ReadU64(b, COLLATERAL_OFFSET + k * 8) == r.locked[k]
      && FlagByte(b, k) == r.contributed[k]
      && ReadU32(b, LAST_UPDATE_OFFSET + k * 4) == r.lastUpdates[k]
  {
    var b := Layout(r);
    LayoutParts(r);
    hide Layout, Words, Quads;
    Le32Reads(r.count, b, 0);
    WordsAt(r.streams, k); PartReads(b, 4, 132, 4 * k, 4); Le32Reads(r.streams[k], b, 4 + k * 4);
    WordsAt(r.tiers, k); PartReads(b, 132, 260, 4 * k, 4); Le32Reads(r.tiers[k], b, 132 + k * 4);
    QuadsAt(r.locked, k); PartReads(b, 264, 520, 8 * k, 8); Le64Reads(r.locked[k], b, 264 + k * 8);
    assert b[520 + k] == b[520..552][k];
    WordsAt(r.lastUpdates, k); PartReads(b, 552, 680, 4 * k, 4); Le32Reads(r.lastUpdates[k], b, 552 + k * 4);
  }

  // ---------------------------------------------------------------- decoding

  datatype SlotKey = SlotKey(stream: nat, tier: nat)

  datatype ProviderSlot = ProviderSlot(key: SlotKey, locked: nat, contributed: bool, lastUpdate: nat)

  datatype CodecError =
    | WrongSize(size: nat)
    | TooManySlots(count: nat)
    | BadStream(index: nat)
    | BadTier(index: nat)
    | BadFlag(index: nat)
    | Duplicate(index: nat)

  datatype Decoded = Slots(slots: seq<ProviderSlot>) | Malformed(error: CodecError)

  function Listed(slots: seq<ProviderSlot>, key: SlotKey): bool {
    exists k :: 0 <= k < |slots| && slots[k].key == key
  }

  function KeyAt(b: seq<Byte>, k: nat): SlotKey
    requires |b| == PROVIDER_STATUS_SIZE && k < 32
  {
    SlotKey(ReadU32(b, STREAMS_OFFSET + k * 4), ReadU32(b, TIERS_OFFSET + k * 4))
  }

  function FlagByte(b: seq<Byte>, k: nat): Byte
    requires |b| == PROVIDER_STATUS_SIZE && k < 32
  {
    b[CONTRIBUTED_OFFSET + k]
  }

  function SlotIn(b: seq<Byte>, k: nat): ProviderSlot
    requires |b| == PROVIDER_STATUS_SIZE && k < 32
  {
    ProviderSlot(KeyAt(b, k), ReadU64(b, COLLATERAL_OFFSET + k * 8), FlagByte(b, k) == 1,
                 ReadU32(b, LAST_UPDATE_OFFSET + k * 4))
  }

  function SlotsIn(b: seq<Byte>, n: nat): (s: seq<ProviderSlot>)
    requires |b| == PROVIDER_STATUS_SIZE && n <= 32
    ensures |s| == n
  {
    seq(n, k requires 0 <= k < n => SlotIn(b, k))
  }

  /** The first complaint about entry k, if any; the earlier entries are in the list. */
  function Complaint(b: seq<Byte>, k: nat): Option<CodecError>
    requires |b| == PROVIDER_STATUS_SIZE && k < 32
  {
    if KeyAt(b, k).stream > 2 then Some(BadStream(k))
    else if KeyAt(b, k).tier > 9 then Some(BadTier(k))
    else if FlagByte(b, k) > 1 then Some(BadFlag(k))
    else if Listed(SlotsIn(b, k), KeyAt(b, k)) then Some(Duplicate(k))
    else None
  }

  function ParseFrom(b: seq<Byte>, k: nat, count: nat): Decoded
    requires |b| == PROVIDER_STATUS_SIZE && k <= count <= 32
    decreases count - k
  {
    if k == count then Slots(SlotsIn(b, count))
    else if Complaint(b, k).Some? then Malformed(Complaint(b, k).value)
    else ParseFrom(b, k + 1, count)
  }

  function Parse(b: seq<Byte>): Decoded {
    if |b| != PROVIDER_STATUS_SIZE then Malformed(WrongSize(|b|))
    else if ReadU32(b, 0) > MAX_PROVIDER_SLOTS then Malformed(TooManySlots(ReadU32(b, 0)))
    else ParseFrom(b, 0, ReadU32(b, 0))
  }

  function Bit(n: nat): bv32
    requires n < 32
  {
    (1 as bv32) << n
  }

  predicate Has(mask: bv32, n: nat)
    requires n < 32
  {
    mask & Bit(n) != 0
  }

  function With(mask: bv32, n: nat): bv32
    requires n < 32
  {
    mask | Bit(n)
  }

  lemma BitOfOr(m: bv32, j: nat, k: nat)
    requires j < 32 && k < 32
    ensures (m | Bit(k)) & Bit(j) != 0 <==> j == k || m & Bit(j) != 0
  {
  }

  lemma WithHas(m: bv32, j: nat, k: nat)
    requires j < 32 && k < 32
    ensures Has(With(m, k), j) <==> j == k || Has(m, j)
  {
    BitOfOr(m, j, k);
  }

  predicate InRange(key: SlotKey) { key.stream <= 2 && key.tier <= 9 }

  function KeyNumber(key: SlotKey): (n: nat)
    requires InRange(key)
    ensures n < 30
  {
    key.stream * 10 + key.tier
  }

  /** The mask holds exactly the keys of the list. */
  ghost predicate MaskShows(mask: bv32, slots: seq<ProviderSlot>) {
    forall key: SlotKey :: InRange(key) ==> (Has(mask, KeyNumber(key)) <==> Listed(slots, key))
  }

  lemma EmptyMask()
    ensures MaskShows(0, [])
  {
  }

  lemma ListedAppend(slots: seq<ProviderSlot>, x: ProviderSlot, key: SlotKey)
    ensures Listed(slots + [x], key) <==> Listed(slots, key) || key == x.key
  {
    assert (slots + [x])[|slots|] == x;
    if Listed(slots, key) {
      var k :| 0 <= k < |slots| && slots[k].key == key;
      assert (slots + [x])[k].key == key;
    }
  }

  lemma MaskGrows(mask: bv32, slots: seq<ProviderSlot>, x: ProviderSlot)
    requires MaskShows(mask, slots) && InRange(x.key)
    ensures MaskShows(With(mask, KeyNumber(x.key)), slots + [x])
  {
    hide Has, With;
    forall key: SlotKey | InRange(key)
      ensures Has(With(mask, KeyNumber(x.key)), KeyNumber(key)) <==> Listed(slots + [x], key)
    {
      WithHas(mask, KeyNumber(key), KeyNumber(x.key));
      ListedAppend(slots, x, key);
    }
  }

  lemma MaskAnswers(mask: bv32, slots: seq<ProviderSlot>, key: SlotKey)
    requires MaskShows(mask, slots) && InRange(key)
    ensures Has(mask, KeyNumber(key)) <==> Listed(slots, key)
  {
    hide Has, Listed;
  }

  /** The decoder: one pass, with a bitmask of the keys seen so far. */
  method Decode(bytes: seq<Byte>) returns (r: Decoded)
    ensures r == Parse(bytes)
  {
    hide Has, With, ReadU32, ReadU64, MaskShows, Listed;
    if |bytes| != PROVIDER_STATUS_SIZE {
      return Malformed(WrongSize(|bytes|));
    }
    var count := ReadU32(bytes, 0);
    if count > MAX_PROVIDER_SLOTS {
      return Malformed(TooManySlots(count));
    }
    var slots: seq<ProviderSlot> := [];
    var seenSlots: bv32 := 0;
    EmptyMask();
    var index := 0;
    while index < count
      invariant 0 <= index <= count
      invariant slots == SlotsIn(bytes, index) && MaskShows(seenSlots, slots)
      invariant ParseFrom(bytes, 0, count) == ParseFrom(bytes, index, count)
    {
      var stream := ReadU32(bytes, STREAMS_OFFSET + index * 4);
      var tier := ReadU32(bytes, TIERS_OFFSET + index * 4);
      var contributed := bytes[CONTRIBUTED_OFFSET + index];
      if stream > 2 {
        return Malformed(BadStream(index));
      }
      if tier > 9 {
        return Malformed(BadTier(index));
      }
      if contributed > 1 {
        return Malformed(BadFlag(index));
      }
      var slotBit := KeyNumber(SlotKey(stream, tier));
      MaskAnswers(seenSlots, slots, SlotKey(stream, tier));
      if Has(seenSlots, slotBit) {
        return Malformed(Duplicate(index));
      }
      var slot := ProviderSlot(SlotKey(stream, tier), ReadU64(bytes, COLLATERAL_OFFSET + index * 8),
                               contributed == 1, ReadU32(bytes, LAST_UPDATE_OFFSET + index * 4));
      MaskGrows(seenSlots, slots, slot);
      seenSlots := With(seenSlots, slotBit);
      slots := slots + [slot];
      index := index + 1;
      assert slots == SlotsIn(bytes, index);
    }
    return Slots(slots);
  }

  function SlotFor(slots: seq<ProviderSlot>, key: SlotKey): (r: Option<ProviderSlot>)
    ensures r.None? <==> !Listed(slots, key)
    ensures r.Some? ==> r.value in slots && r.value.key == key
  {
    if slots == [] then None
    else if slots[0].key == key then Some(slots[0])
    else
      var rest := SlotFor(slots[1..], key);
      assert Listed(slots, key) <==> Listed(slots[1..], key) by {
        if Listed(slots, key) {
          var k :| 0 <= k < |slots| && slots[k].key == key;
          assert slots[1..][k - 1].key == key;
        }
      }
      rest
  }
}
