/** The list of stream attributes that a device keeps, sorted by stream priority (smaller
    numbers first): a multimap filled by hinted inserts, whose position within one priority
    is decided by a comparison that is not an order. */
module PriorityList {

  type StreamId = nat

  datatype Attributes = Attributes(channels: nat, sampleRate: nat, bitWidth: nat, pcm: bool)

  datatype Overwrites = Overwrites(sndName: bool, channels: bool, sampleRate: bool, bitWidth: bool)

  /** `block` is the heap block holding the attributes; blocks are numbered as allocated. */
  datatype Entry = Entry(priority: nat, stream: StreamId, attr: Attributes, over: Overwrites, block: nat)

  // ---------------------------------------------------------------- the comparison

  /** Whether the incoming attributes go before the current ones of the same priority. */
  function CompareAttr(a: Attributes, aOver: Overwrites, b: Attributes, bOver: Overwrites): bool {
    if aOver.sndName && !bOver.sndName then true
    else if aOver.channels && !bOver.channels then true
    else if aOver.channels == bOver.channels && a.channels > b.channels then true
    else if aOver.sampleRate && !bOver.sampleRate then true
    else if aOver.sampleRate && bOver.sampleRate && a.sampleRate > b.sampleRate then true
    else if !aOver.sampleRate && !bOver.sampleRate && a.sampleRate % 44100 == 0 && b.sampleRate % 44100 != 0 then true
    else if !aOver.sampleRate && !bOver.sampleRate && a.sampleRate > b.sampleRate
            && !(b.sampleRate % 44100 == 0 && a.sampleRate % 48000 == 0) then true
    else if aOver.bitWidth && !bOver.bitWidth then a.pcm
    else aOver.bitWidth == bOver.bitWidth && a.pcm && a.bitWidth > b.bitWidth
  }

  predicate Beats(a: Entry, b: Entry) {
    CompareAttr(a.attr, a.over, b.attr, b.over)
  }

  const NO_OVERWRITES: Overwrites := Overwrites(false, false, false, false)

  predicate Plain(e: Entry) {
    e.over == NO_OVERWRITES && e.attr.pcm && e.attr.sampleRate % 44100 != 0
  }

  predicate BelowOrEqual(a: Attributes, b: Attributes) {
    a.channels <= b.channels && a.sampleRate <= b.sampleRate && a.bitWidth <= b.bitWidth
  }

  /** Without overwrites, compressed formats and the 44.1 kHz family, the comparison holds
      exactly when the incoming attributes are not below or equal in every respect. */
  lemma BeatsIffNotBelow(a: Entry, b: Entry)
    requires Plain(a) && Plain(b)
    ensures Beats(a, b) <==> !BelowOrEqual(a.attr, b.attr)
  {
  }

  /** Two attributes can each claim the place before the other: exactly when neither is
      below or equal to the other. */
  lemma BothBeatIffIncomparable(a: Entry, b: Entry)
    requires Plain(a) && Plain(b)
    ensures Beats(a, b) && Beats(b, a) <==> !BelowOrEqual(a.attr, b.attr) && !BelowOrEqual(b.attr, a.attr)
  {
  }

  /** An attribute speaks for the incoming entry if only the incoming one overwrites it, or if
      both or neither do and it is better. */
  predicate SpeaksFor(over: bool, curOver: bool, better: bool) {
    (over && !curOver) || (over == curOver && better)
  }

  predicate In44100Family(rate: nat) {
    rate % 44100 == 0
  }

  /** A rate of the 44.1 kHz family goes before all others, and multiples of 48 kHz do not
      displace it. */
  predicate BetterRate(rate: nat, cur: nat) {
    (In44100Family(rate) && !In44100Family(cur)) || (rate > cur && !(In44100Family(cur) && rate % 48000 == 0))
  }

  /** For all entries, the comparison holds exactly if some single attribute speaks for the
      incoming one: an attribute that speaks against it never outweighs that, and the order in
      which the attributes are looked at does not matter. */
  lemma BeatsIffSomethingSpeaksFor(a: Entry, b: Entry)
    ensures Beats(a, b) <==>
      || (a.over.sndName && !b.over.sndName)
      || SpeaksFor(a.over.channels, b.over.channels, a.attr.channels > b.attr.channels)
      || (if a.over.sampleRate && b.over.sampleRate then a.attr.sampleRate > b.attr.sampleRate
          else SpeaksFor(a.over.sampleRate, b.over.sampleRate, BetterRate(a.attr.sampleRate, b.attr.sampleRate)))
      || (a.attr.pcm && SpeaksFor(a.over.bitWidth, b.over.bitWidth, a.attr.bitWidth > b.attr.bitWidth))
  {
  }

  /** No entry goes before its own equal: ties keep their order. */
  lemma NoEntryBeatsItself(a: Entry, b: Entry)
    requires a.attr == b.attr && a.over == b.over
    ensures !Beats(a, b)
  {
  }

  /** An entry of the 44.1 kHz family and one outside it, equal in everything else: the family
      always goes first, and the other goes first too exactly if its rate is higher and no
      multiple of 48 kHz. */
  lemma FamilyAgainstOthers(a: Entry, b: Entry)
    requires a.over == b.over == NO_OVERWRITES
    requires In44100Family(a.attr.sampleRate) && !In44100Family(b.attr.sampleRate)
    requires b.attr == a.attr.(sampleRate := b.attr.sampleRate)
    ensures Beats(a, b)
    ensures Beats(b, a) <==> b.attr.sampleRate > a.attr.sampleRate && b.attr.sampleRate % 48000 != 0
  {
  }

  // ---------------------------------------------------------------- the multimap

  predicate Sorted(l: seq<Entry>) {
    forall i, j :: 0 <= i < j < |l| ==> l[i].priority <= l[j].priority
  }

  function InsertAt(l: seq<Entry>, k: nat, e: Entry): seq<Entry>
    requires k <= |l|
  {
    l[..k] + [e] + l[k..]
  }

  /** The first position whose priority is not below `p`. */
  function LowerBound(l: seq<Entry>, p: nat): (k: nat)
    ensures k <= |l|
    ensures forall i :: 0 <= i < k ==> l[i].priority < p
    ensures k < |l| ==> l[k].priority >= p
  {
    if l == [] || l[0].priority >= p then 0 else 1 + LowerBound(l[1..], p)
  }

  /** The first position whose priority is above `p`. */
  function UpperBound(l: seq<Entry>, p: nat): (k: nat)
    ensures k <= |l|
    ensures forall i :: 0 <= i < k ==> l[i].priority <= p
    ensures k < |l| ==> l[k].priority > p
  {
    if l == [] || l[0].priority > p then 0 else 1 + UpperBound(l[1..], p)
  }

  /** A hinted insert puts the entry as close as possible to the place just before the hint. */
  function HintedInsert(l: seq<Entry>, hint: nat, e: Entry): seq<Entry>
    requires hint <= |l|
  {
    if hint > 0 && l[hint - 1].priority > e.priority then InsertAt(l, UpperBound(l, e.priority), e)
    else if hint < |l| && l[hint].priority < e.priority then InsertAt(l, LowerBound(l, e.priority), e)
    else InsertAt(l, hint, e)
  }

  /** Whether the search for the place of `e` stops at `cur`. `force` is the headset
      combination that cannot mix sample rates. */
  predicate StopsAt(e: Entry, cur: Entry, force: bool) {
    e.priority < cur.priority || (e.priority == cur.priority && (Beats(e, cur) || force))
  }

  /** The position of the first entry at which the search stops. */
  function Place(l: seq<Entry>, e: Entry, force: bool): (k: nat)
    ensures k <= |l|
    ensures forall i :: 0 <= i < k ==> !StopsAt(e, l[i], force)
    ensures k < |l| ==> StopsAt(e, l[k], force)
  {
    if l == [] || StopsAt(e, l[0], force) then 0 else 1 + Place(l[1..], e, force)
  }

  function Insert(l: seq<Entry>, e: Entry, force: bool): seq<Entry> {
    InsertAt(l, Place(l, e, force), e)
  }

  /** The first entry of the stream goes. */
  function Remove(l: seq<Entry>, s: StreamId): seq<Entry> {
    if l == [] then [] else if l[0].stream == s then l[1..] else [l[0]] + Remove(l[1..], s)
  }

  function EntriesOf(l: seq<Entry>, s: StreamId): nat {
    if l == [] then 0 else (if l[0].stream == s then 1 else 0) + EntriesOf(l[1..], s)
  }

  /** Attributes with the device's own rate and width, where these are set; a set width brings a PCM
      format with it. */
  function Overridden(a: Attributes, rate: nat, width: nat): Attributes {
    Attributes(a.channels, if rate != 0 then rate else a.sampleRate, if width != 0 then width else a.bitWidth, a.pcm || width != 0)
  }

  /** A device as far as its attribute list goes; the list is filled and searched in place. */
  class Device {
    const id: int
    var entries: seq<Entry>
    var sampleRate: nat  // what every stream gets on this device, or zero
    var bitWidth: nat

    constructor (id: int)
      ensures this.id == id && entries == [] && sampleRate == bitWidth == 0
    {
      this.id := id;
      entries, sampleRate, bitWidth := [], 0, 0;
    }

    method SetSampleRate(rate: nat)
      modifies this`sampleRate
      ensures sampleRate == rate
    {
      sampleRate := rate;
    }

    method SetBitWidth(width: nat)
      modifies this`bitWidth
      ensures bitWidth == width
    {
      bitWidth := width;
    }

    /** Every hint is taken: the entry ends up exactly where the search stopped. */
    method InsertStreamDeviceAttr(e: Entry, force: bool)
      requires Sorted(entries)
      modifies this`entries
      ensures entries == Insert(old(entries), e, force) && Sorted(entries)
    {
      InsertKeepsSorted(entries, e, force);
      if entries == [] {
        entries := InsertAt(entries, UpperBound(entries, e.priority), e);
        return;
      }
      var i := 0;
      while true
        invariant 0 <= i <= |entries| && entries == old(entries)
        invariant forall j :: 0 <= j < i ==> !StopsAt(e, entries[j], force)
        decreases |entries| - i
      {
        if i == |entries| {
          entries := InsertAt(entries, UpperBound(entries, e.priority), e);
          break;
        } else if e.priority < entries[i].priority {
          entries := HintedInsert(entries, i, e);
          break;
        } else if e.priority == entries[i].priority && (Beats(e, entries[i]) || force) {
          entries := HintedInsert(entries, i, e);
          break;
        }
        i := i + 1;
      }
      assert i == Place(old(entries), e, force);
    }

    method RemoveStreamDeviceAttr(s: StreamId)
      modifies this`entries
      ensures entries == Remove(old(entries), s)
    {
      var i := 0;
      assert entries[..0] + Remove(entries[0..], s) == Remove(entries, s);
      while i < |entries|
        invariant 0 <= i <= |entries| && entries == old(entries)
        invariant Remove(entries, s) == entries[..i] + Remove(entries[i..], s)
      {
        if entries[i].stream == s {
          entries := entries[..i] + entries[i + 1..];
          return;
        }
        assert entries[..i] + ([entries[i]] + Remove(entries[i + 1..], s))
            == entries[..i + 1] + Remove(entries[i + 1..], s);
        i := i + 1;
      }
    }

    /** The top entry, whose priority no other entry beats, with the rate and width of the device
        in place of its own if they are set; nothing if the list is empty. */
    method GetTopPriorityDeviceAttr() returns (found: bool, attr: Attributes, priority: nat)
      requires Sorted(entries)
      ensures found <==> entries != []
      ensures found ==>
        && attr == Overridden(entries[0].attr, sampleRate, bitWidth) && priority == entries[0].priority
        && attr.channels == entries[0].attr.channels
        && attr.sampleRate == (if sampleRate > 0 then sampleRate else entries[0].attr.sampleRate)
        && (if bitWidth > 0 then attr.bitWidth == bitWidth && attr.pcm
            else attr.bitWidth == entries[0].attr.bitWidth && attr.pcm == entries[0].attr.pcm)
        && forall e :: e in entries ==> priority <= e.priority
    {
      if entries == [] {
        return false, Attributes(0, 0, 0, false), 0;
      }
      found, attr, priority := true, entries[0].attr, entries[0].priority;
      if sampleRate != 0 {
        attr := attr.(sampleRate := sampleRate);
      }
      if bitWidth != 0 {
        attr := attr.(bitWidth := bitWidth, pcm := true);
      }
    }
  }

  // ---------------------------------------------------------------- what single operations keep

  lemma InsertKeepsSorted(l: seq<Entry>, e: Entry, force: bool)
    requires Sorted(l)
    ensures Sorted(Insert(l, e, force))
  {
  }

  lemma RemoveIsErase(l: seq<Entry>, s: StreamId) returns (k: nat)
    ensures k <= |l|
    ensures forall i :: 0 <= i < k ==> l[i].stream != s
    ensures k < |l| ==> l[k].stream == s && Remove(l, s) == l[..k] + l[k + 1..]
    ensures k == |l| ==> Remove(l, s) == l
  {
    if l == [] || l[0].stream == s {
      k := 0;
    } else {
      var rest := RemoveIsErase(l[1..], s);
      k := rest + 1;
    }
  }

  lemma InsertAtTail(l: seq<Entry>, k: nat, e: Entry)
    requires 0 < k <= |l|
    ensures InsertAt(l, k, e) == [l[0]] + InsertAt(l[1..], k - 1, e)
    ensures InsertAt(l, k, e)[0] == l[0] && InsertAt(l, k, e)[1..] == InsertAt(l[1..], k - 1, e)
  {
    assert l[..k] == [l[0]] + l[1..][..k - 1];
  }

  lemma {:induction false} InsertAtThenRemove(l: seq<Entry>, k: nat, e: Entry)
    requires k <= |l| && EntriesOf(l, e.stream) == 0
    ensures Remove(InsertAt(l, k, e), e.stream) == l
  {
    var r := InsertAt(l, k, e);
    if k == 0 {
      assert r[0] == e && r[1..] == l;
    } else {
      InsertAtTail(l, k, e);
      InsertAtThenRemove(l[1..], k - 1, e);
      assert l[0].stream != e.stream && EntriesOf(l[1..], e.stream) == 0;
      assert Remove(r, e.stream) == [l[0]] + Remove(r[1..], e.stream);
    }
  }

  lemma {:induction false} InsertAtCounts(l: seq<Entry>, k: nat, e: Entry, s: StreamId)
    requires k <= |l|
    ensures EntriesOf(InsertAt(l, k, e), s) == EntriesOf(l, s) + if s == e.stream then 1 else 0
  {
    if k == 0 {
      assert InsertAt(l, 0, e) == [e] + l;
    } else {
      InsertAtTail(l, k, e);
      InsertAtCounts(l[1..], k - 1, e, s);
    }
  }

  /** Removing a stream that was absent before its only insert restores the list. */
  lemma InsertThenRemove(l: seq<Entry>, e: Entry, force: bool)
    requires EntriesOf(l, e.stream) == 0
    ensures Remove(Insert(l, e, force), e.stream) == l
  {
    InsertAtThenRemove(l, Place(l, e, force), e);
  }

  /** An insert adds one entry to its stream, a removal takes one from it if there is one,
      and other streams are left alone. */
  lemma InsertCounts(l: seq<Entry>, e: Entry, force: bool, s: StreamId)
    ensures EntriesOf(Insert(l, e, force), s) == EntriesOf(l, s) + if s == e.stream then 1 else 0
  {
    InsertAtCounts(l, Place(l, e, force), e, s);
  }

  lemma {:induction false} RemoveCounts(l: seq<Entry>, x: StreamId, s: StreamId)
    ensures EntriesOf(Remove(l, x), s) ==
            if s == x && EntriesOf(l, s) > 0 then EntriesOf(l, s) - 1 else EntriesOf(l, s)
  {
    if l != [] && l[0].stream != x {
      RemoveCounts(l[1..], x, s);
      assert Remove(l, x)[1..] == Remove(l[1..], x);
    }
  }

  /** An entry that is forced goes in front of all of its priority, whatever the comparison says; one
      that is not stops at the first entry that it beats or whose priority is lower. */
  lemma ForcedGoesFirst(l: seq<Entry>, e: Entry)
    requires Sorted(l)
    ensures
      var r, k := Insert(l, e, true), LowerBound(l, e.priority);
      && r[k] == e && r[..k] + r[k + 1..] == l
      && (forall i :: 0 <= i < k ==> r[i].priority < e.priority)
      && (forall i :: k < i < |r| ==> r[i].priority >= e.priority)
  {
    ForcedPlace(l, e);
    InsertAtLowerBound(l, e, LowerBound(l, e.priority));
  }

  lemma InsertAtLowerBound(l: seq<Entry>, e: Entry, k: nat)
    requires Sorted(l) && k == LowerBound(l, e.priority)
    ensures
      var r := InsertAt(l, k, e);
      && r[k] == e && r[..k] + r[k + 1..] == l
      && (forall i :: 0 <= i < k ==> r[i].priority < e.priority)
      && (forall i :: k < i < |r| ==> r[i].priority >= e.priority)
  {
    var r := InsertAt(l, k, e);
    assert r[..k] == l[..k] && r[k + 1..] == l[k..];
    assert l == l[..k] + l[k..];
    forall i | k < i < |r| ensures r[i].priority >= e.priority {
      assert r[i] == l[i - 1];
    }
  }

  lemma {:induction false} ForcedPlace(l: seq<Entry>, e: Entry)
    ensures Place(l, e, true) == LowerBound(l, e.priority)
  {
    if l != [] {
      ForcedPlace(l[1..], e);
    }
  }

  lemma UnforcedStops(l: seq<Entry>, e: Entry)
    ensures
      var r := Insert(l, e, false);
      exists k :: 0 <= k <= |l| && r == l[..k] + [e] + l[k..]
        && (forall i :: 0 <= i < k ==> l[i].priority < e.priority || (l[i].priority == e.priority && !Beats(e, l[i])))
        && (k < |l| ==> e.priority < l[k].priority || (l[k].priority == e.priority && Beats(e, l[k])))
  {
    var k := Place(l, e, false);
    assert Insert(l, e, false) == l[..k] + [e] + l[k..];
  }

  // ---------------------------------------------------------------- runs

  datatype Op =
    | Add(entry: Entry, force: bool)
    | Drop(stream: StreamId)
    | SetRate(rate: nat)
    | SetWidth(width: nat)

  function Apply(l: seq<Entry>, op: Op): seq<Entry> {
    match op
    case Add(e, force) => Insert(l, e, force)
    case Drop(s) => Remove(l, s)
    case _ => l
  }

  /** The device's own rate and width after a run: the ones set last, or zero. */
  function OwnRate(ops: seq<Op>): nat {
    if ops == [] then 0
    else match ops[|ops| - 1]
      case SetRate(rate) => rate
      case _ => OwnRate(ops[..|ops| - 1])
  }

  function OwnWidth(ops: seq<Op>): nat {
    if ops == [] then 0
    else match ops[|ops| - 1]
      case SetWidth(width) => width
      case _ => OwnWidth(ops[..|ops| - 1])
  }

  function Run(ops: seq<Op>): seq<Entry> {
    if ops == [] then [] else Apply(Run(ops[..|ops| - 1]), ops[|ops| - 1])
  }

  /** Heap blocks are handed out in order: each insert uses a block newer than the ones of
      all inserts before it. */
  predicate FreshBlocks(ops: seq<Op>) {
    forall i, j :: 0 <= i < j < |ops| && ops[i].Add? && ops[j].Add? ==> ops[i].entry.block < ops[j].entry.block
  }

  predicate NoForce(ops: seq<Op>) {
    forall i :: 0 <= i < |ops| && ops[i].Add? ==> !ops[i].force
  }

  /** Priorities are sorted, and within one priority an entry that stands behind an older
      one did not beat it when it was inserted. */
  predicate SettledBy(beats: (Entry, Entry) -> bool, l: seq<Entry>) {
    forall i, j :: 0 <= i < j < |l| ==>
      && l[i].priority <= l[j].priority
      && (l[i].priority == l[j].priority && l[i].block < l[j].block ==> !beats(l[j], l[i]))
  }

  predicate Settled(l: seq<Entry>) {
    SettledBy(Beats, l)
  }

  /** All blocks in the list are older than `n`. */
  predicate OlderThan(l: seq<Entry>, n: nat) {
    forall i :: 0 <= i < |l| ==> l[i].block < n
  }

  lemma InsertAtSettled(beats: (Entry, Entry) -> bool, l: seq<Entry>, k: nat, e: Entry)
    requires k <= |l| && SettledBy(beats, l) && OlderThan(l, e.block)
    requires forall i :: 0 <= i < k ==>
      l[i].priority <= e.priority && (l[i].priority == e.priority ==> !beats(e, l[i]))
    requires k < |l| ==> e.priority <= l[k].priority
    ensures SettledBy(beats, InsertAt(l, k, e))
  {
    var r := InsertAt(l, k, e);
    assert forall i :: 0 <= i < |r| ==> r[i] == if i < k then l[i] else if i == k then e else l[i - 1];
  }

  lemma RemoveSettled(beats: (Entry, Entry) -> bool, l: seq<Entry>, s: StreamId)
    requires SettledBy(beats, l)
    ensures SettledBy(beats, Remove(l, s))
  {
    var k := RemoveIsErase(l, s);
  }

  lemma ApplySettled(l: seq<Entry>, op: Op)
    requires Settled(l)
    requires op.Add? ==> OlderThan(l, op.entry.block)
    ensures Settled(Apply(l, op))
  {
    match op
    case Drop(s) => RemoveSettled(Beats, l, s);
    case Add(e, force) => InsertAtSettled(Beats, l, Place(l, e, force), e);
    case _ =>
  }

  lemma ApplyOrigin(l: seq<Entry>, op: Op, e: Entry)
    requires e in Apply(l, op)
    ensures e in l || (op.Add? && e == op.entry)
  {
    if op.Drop? {
      var k := RemoveIsErase(l, op.stream);
    }
  }

  lemma {:induction false} RunOrigin(ops: seq<Op>, e: Entry) returns (k: nat)
    requires e in Run(ops)
    ensures k < |ops| && ops[k].Add? && ops[k].entry == e
  {
    ApplyOrigin(Run(ops[..|ops| - 1]), ops[|ops| - 1], e);
    if e in Run(ops[..|ops| - 1]) {
      k := RunOrigin(ops[..|ops| - 1], e);
    } else {
      k := |ops| - 1;
    }
  }

  lemma FreshInsert(ops: seq<Op>)
    requires ops != [] && FreshBlocks(ops) && ops[|ops| - 1].Add?
    ensures OlderThan(Run(ops[..|ops| - 1]), ops[|ops| - 1].entry.block)
  {
    var before := Run(ops[..|ops| - 1]);
    forall i | 0 <= i < |before|
      ensures before[i].block < ops[|ops| - 1].entry.block
    {
      var k := RunOrigin(ops[..|ops| - 1], before[i]);
    }
  }

  /** What the list guarantees over every sequence of inserts and removals, although its
      comparison is no order. */
  lemma {:induction false} RunSettled(ops: seq<Op>)
    requires FreshBlocks(ops)
    ensures Settled(Run(ops)) && Sorted(Run(ops))
  {
    if ops != [] {
      RunSettled(ops[..|ops| - 1]);
      if ops[|ops| - 1].Add? {
        FreshInsert(ops);
      }
      ApplySettled(Run(ops[..|ops| - 1]), ops[|ops| - 1]);
    }
  }

  /** Within one priority: descending attributes, equal ones first in first. */
  predicate Descending(l: seq<Entry>) {
    forall i, j :: 0 <= i < j < |l| && l[i].priority == l[j].priority ==>
      && BelowOrEqual(l[j].attr, l[i].attr)
      && (BelowOrEqual(l[i].attr, l[j].attr) ==> l[i].block < l[j].block)
  }

  predicate Comparable(a: Attributes, b: Attributes) {
    BelowOrEqual(a, b) || BelowOrEqual(b, a)
  }

  predicate Chain(ops: seq<Op>) {
    forall i, j :: 0 <= i < |ops| && 0 <= j < |ops| && ops[i].Add? && ops[j].Add? ==>
      && Plain(ops[i].entry)
      && (ops[i].entry.priority == ops[j].entry.priority ==> Comparable(ops[i].entry.attr, ops[j].entry.attr))
  }

  /** An insert keeps a class descending exactly when the new attributes are comparable
      with all of its class. */
  lemma InsertDescendingIff(l: seq<Entry>, e: Entry)
    requires Sorted(l) && Descending(l) && OlderThan(l, e.block)
    requires Plain(e) && forall i :: 0 <= i < |l| ==> Plain(l[i])
    ensures
      Descending(Insert(l, e, false)) <==>
      forall i :: 0 <= i < |l| && l[i].priority == e.priority ==> Comparable(l[i].attr, e.attr)
  {
    var k := Place(l, e, false);
    var r := InsertAt(l, k, e);
    forall i | 0 <= i < |l|
      ensures Beats(e, l[i]) <==> !BelowOrEqual(e.attr, l[i].attr)
    {
      BeatsIffNotBelow(e, l[i]);
    }
    InsertAtDescendingIff(l, k, e);
  }

  lemma InsertAtDescendingIff(l: seq<Entry>, k: nat, e: Entry)
    requires k <= |l| && Sorted(l) && Descending(l) && OlderThan(l, e.block)
    requires forall i :: 0 <= i < k ==>
      l[i].priority <= e.priority && (l[i].priority == e.priority ==> BelowOrEqual(e.attr, l[i].attr))
    requires k < |l| ==>
      e.priority <= l[k].priority && (l[k].priority == e.priority ==> !BelowOrEqual(e.attr, l[k].attr))
    ensures
      Descending(InsertAt(l, k, e)) <==>
      forall i :: 0 <= i < |l| && l[i].priority == e.priority ==> Comparable(l[i].attr, e.attr)
  {
    var r := InsertAt(l, k, e);
    assert forall i :: 0 <= i < |r| ==> r[i] == if i < k then l[i] else if i == k then e else l[i - 1];
    if Descending(r) {
      forall i | 0 <= i < |l| && l[i].priority == e.priority
        ensures Comparable(l[i].attr, e.attr)
      {
        if i >= k {
          assert r[i + 1] == l[i] && r[k] == e;
        }
      }
    }
  }

  /** Three attributes of one priority, of which the last one inserted is below the first
      one in every respect and still ends up on top: it only beats the one in between. */
  lemma TopCanBeWorse(stream: StreamId)
    ensures
      var best := Entry(1, stream, Attributes(4, 48000, 16, true), NO_OVERWRITES, 0);
      var wide := Entry(1, stream, Attributes(8, 8000, 16, true), NO_OVERWRITES, 1);
      var poor := Entry(1, stream, Attributes(2, 16000, 16, true), NO_OVERWRITES, 2);
      && BelowOrEqual(poor.attr, best.attr) && !BelowOrEqual(best.attr, poor.attr)
      && Run([Add(best, false), Add(wide, false), Add(poor, false)]) == [poor, wide, best]
  {
    var best := Entry(1, stream, Attributes(4, 48000, 16, true), NO_OVERWRITES, 0);
    var wide := Entry(1, stream, Attributes(8, 8000, 16, true), NO_OVERWRITES, 1);
    var poor := Entry(1, stream, Attributes(2, 16000, 16, true), NO_OVERWRITES, 2);
    var ops := [Add(best, false), Add(wide, false), Add(poor, false)];
    assert ops[..2][..1][..0] == [];
    assert Run(ops[..2][..1]) == [best];
    assert ops[..2] == [ops[0], ops[1]];
    assert Run(ops[..2]) == [wide, best];
  }

  /** If the attributes of each priority form a chain, every class is descending with ties in order
      of arrival, after any inserts and removals. */
  lemma {:induction false} ChainDescending(ops: seq<Op>)
    requires FreshBlocks(ops) && Chain(ops) && NoForce(ops)
    ensures Descending(Run(ops))
  {
    if ops != [] {
      var before, op := ops[..|ops| - 1], ops[|ops| - 1];
      ChainDescending(before);
      match op
      case Add(e, _) =>
        RunSettled(before);
        FreshInsert(ops);
        ChainFits(ops);
        InsertFitting(Run(before), e);
      case Drop(s) => RemoveDescending(Run(before), s);
      case _ =>
    }
  }

  lemma RemoveDescending(l: seq<Entry>, s: StreamId)
    requires Descending(l)
    ensures Descending(Remove(l, s))
  {
    var k := RemoveIsErase(l, s);
  }

  /** An entry that a chain allows: plain like all of the list, and comparable with its class. */
  predicate Fits(l: seq<Entry>, e: Entry) {
    Plain(e) && forall x <- l :: Plain(x) && (x.priority == e.priority ==> Comparable(x.attr, e.attr))
  }

  lemma InsertFitting(l: seq<Entry>, e: Entry)
    requires Sorted(l) && Descending(l) && OlderThan(l, e.block) && Fits(l, e)
    ensures Descending(Insert(l, e, false))
  {
    InsertDescendingIff(l, e);
  }

  lemma ChainFits(ops: seq<Op>)
    requires ops != [] && Chain(ops) && ops[|ops| - 1].Add?
    ensures Fits(Run(ops[..|ops| - 1]), ops[|ops| - 1].entry)
  {
    var l, e := Run(ops[..|ops| - 1]), ops[|ops| - 1].entry;
    forall x <- l ensures Plain(x) && (x.priority == e.priority ==> Comparable(x.attr, e.attr)) {
      var k := RunOrigin(ops[..|ops| - 1], x);
      assert ops[k].Add?;
    }
  }

  /** Then the head is the best entry: of the best priority, and of the greatest attributes
      within it. */
  lemma BestAttributesOnTop(ops: seq<Op>, e: Entry)
    requires FreshBlocks(ops) && Chain(ops) && NoForce(ops)
    requires e in Run(ops)
    ensures
      var head := Run(ops)[0];
      head.priority <= e.priority && (head.priority == e.priority ==> BelowOrEqual(e.attr, head.attr))
  {
    RunSettled(ops);
    ChainDescending(ops);
  }

  /** What is read from the top then covers every entry of its priority if and only if the rate and
      width that the device was given last do not fall below those of the top entry. */
  lemma ReadCoversIff(ops: seq<Op>)
    requires FreshBlocks(ops) && Chain(ops) && NoForce(ops) && Run(ops) != []
    ensures
      var head, rate, width := Run(ops)[0], OwnRate(ops), OwnWidth(ops);
      (forall e <- Run(ops) :: e.priority == head.priority ==> BelowOrEqual(e.attr, Overridden(head.attr, rate, width)))
      <==> (rate == 0 || head.attr.sampleRate <= rate) && (width == 0 || head.attr.bitWidth <= width)
  {
    var head := Run(ops)[0];
    assert head in Run(ops);
    forall e <- Run(ops) ensures e.priority == head.priority ==> BelowOrEqual(e.attr, head.attr) {
      BestAttributesOnTop(ops, e);
    }
  }
}
