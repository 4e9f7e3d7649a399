/** Metadata items in a byte buffer: the parser that scans them and the writer of a start and an
    end item. The layout of the item structures is a parameter. */
module Metadata {

  type byte = x: nat | x < 256

  const EINVAL: int := 22
  const WORD: nat := 0x1_0000_0000

  type Word = x: nat | x < 0x1_0000_0000

  /** Sizes of the structures, offsets of the fields in them, and the identifiers. All fields are
      words of four bytes, except for the number of channels. */
  datatype Layout = Layout(
    header: nat, idAt: nat, flagsAt: nat, offsetAt: nat, payloadAt: nat,
    start: nat, startLsw: nat, startMsw: nat,
    end: nat, endLsw: nat, endMsw: nat, endFlags: nat,
    media: nat, formatAt: nat,
    pcm: nat, rateAt: nat, channelsAt: nat, channelsWidth: nat,
    startId: Word, endId: Word, mediaId: Word, pcmFormat: Word)
  {
    /** The fields lie within their structures and the identifiers differ. */
    predicate Valid() {
      && idAt + 4 <= header && flagsAt + 4 <= header && offsetAt + 4 <= header && payloadAt + 4 <= header
      && startLsw + 4 <= start && startMsw + 4 <= start
      && endLsw + 4 <= end && endMsw + 4 <= end && endFlags + 4 <= end
      && formatAt + 4 <= media && rateAt + 4 <= pcm && channelsAt + channelsWidth <= pcm
      && startId != endId && startId != mediaId && endId != mediaId
    }

    /** The fields of the structures that are written do not overlap. */
    predicate Disjoint() {
      HeaderDisjoint() && BodiesDisjoint()
    }

    predicate HeaderDisjoint() {
      && Apart(idAt, flagsAt) && Apart(idAt, offsetAt) && Apart(idAt, payloadAt)
      && Apart(flagsAt, offsetAt) && Apart(flagsAt, payloadAt) && Apart(offsetAt, payloadAt)
    }

    predicate BodiesDisjoint() {
      && Apart(startLsw, startMsw)
      && Apart(endLsw, endMsw) && Apart(endLsw, endFlags) && Apart(endMsw, endFlags)
      && start < WORD && end < WORD
    }
  }

  predicate Apart(x: nat, y: nat) {
    x + 4 <= y || y + 4 <= x
  }

  /** The next multiple of four. */
  function Align4(n: nat): (r: nat)
    ensures n <= r < n + 4 && r % 4 == 0
  {
    (n + 3) / 4 * 4
  }

  // ---------------------------------------------------------------- little-endian fields

  function Read(bytes: seq<byte>, at: nat, width: nat): nat
    requires at + width <= |bytes|
    decreases width
  {
    if width == 0 then 0 else bytes[at] + 256 * Read(bytes, at + 1, width - 1)
  }

  lemma {:induction false} ReadSame(a: seq<byte>, b: seq<byte>, at: nat, width: nat)
    requires at + width <= |a| && at + width <= |b|
    requires forall i :: at <= i < at + width ==> a[i] == b[i]
    ensures Read(a, at, width) == Read(b, at, width)
    decreases width
  {
    if width > 0 {
      ReadSame(a, b, at + 1, width - 1);
    }
  }

  // ---------------------------------------------------------------- items

  datatype Item =
    | Start(lsw: Word, msw: Word)
    | End(lsw: Word, msw: Word, flags: Word)
    | Media(rate: nat, channels: nat)  // PCM
    | Unknown(id: Word, payload: Word)

  function Size(l: Layout, item: Item): nat {
    l.header + match item
               case Start(_, _) => l.start
               case End(_, _, _) => l.end
               case Media(_, channels) => l.media + Align4(l.pcm + channels)
               case Unknown(_, payload) => payload
  }

  /** What the header of an item says. */
  ghost predicate HeaderAt(l: Layout, bytes: seq<byte>, pos: nat, id: Word, payload: nat)
    requires l.Valid()
  {
    && pos + l.header <= |bytes|
    && Read(bytes, pos + l.idAt, 4) == id
    && Read(bytes, pos + l.payloadAt, 4) == payload
  }

  ghost predicate StartAt(l: Layout, bytes: seq<byte>, body: nat, lsw: Word, msw: Word)
    requires l.Valid()
  {
    && body + l.start <= |bytes|
    && Read(bytes, body + l.startLsw, 4) == lsw
    && Read(bytes, body + l.startMsw, 4) == msw
  }

  ghost predicate EndAt(l: Layout, bytes: seq<byte>, body: nat, lsw: Word, msw: Word, flags: Word)
    requires l.Valid()
  {
    && body + l.end <= |bytes|
    && Read(bytes, body + l.endLsw, 4) == lsw
    && Read(bytes, body + l.endMsw, 4) == msw
    && Read(bytes, body + l.endFlags, 4) == flags
  }

  ghost predicate MediaAt(l: Layout, bytes: seq<byte>, body: nat, rate: nat, channels: nat)
    requires l.Valid()
  {
    && body + l.media + l.pcm <= |bytes|
    && Read(bytes, body + l.formatAt, 4) == l.pcmFormat
    && Read(bytes, body + l.media + l.rateAt, 4) == rate
    && Read(bytes, body + l.media + l.channelsAt, l.channelsWidth) == channels
  }

  ghost predicate ItemAt(l: Layout, bytes: seq<byte>, pos: nat, item: Item)
    requires l.Valid()
  {
    && pos + Size(l, item) <= |bytes|
    && match item
       case Start(lsw, msw) =>
         HeaderAt(l, bytes, pos, l.startId, l.start) && StartAt(l, bytes, pos + l.header, lsw, msw)
       case End(lsw, msw, flags) =>
         HeaderAt(l, bytes, pos, l.endId, l.end) && EndAt(l, bytes, pos + l.header, lsw, msw, flags)
       case Media(rate, channels) =>
         && HeaderAt(l, bytes, pos, l.mediaId, l.media + Align4(l.pcm + channels))
         && MediaAt(l, bytes, pos + l.header, rate, channels)
       case Unknown(id, payload) =>
         id !in {l.startId, l.endId, l.mediaId} && HeaderAt(l, bytes, pos, id, payload)
  }

  /** The bytes from `pos` up to `end` are these items, one after another. */
  ghost predicate Serialises(l: Layout, bytes: seq<byte>, pos: nat, items: seq<Item>, end: nat)
    requires l.Valid()
    decreases |items|
  {
    if items == [] then pos == end
    else ItemAt(l, bytes, pos, items[0]) && Serialises(l, bytes, pos + Size(l, items[0]), items[1..], end)
  }

  /** An item that ends the scan with an error: its payload does not fit in the buffer, or it is a
      media format other than PCM. */
  ghost predicate Rejected(l: Layout, bytes: seq<byte>, pos: nat)
    requires l.Valid()
  {
    && pos + l.header <= |bytes|
    && var id, payload := Read(bytes, pos + l.idAt, 4), Read(bytes, pos + l.payloadAt, 4);
       var body := pos + l.header;
       && id in {l.startId, l.endId, l.mediaId}
       && (|| body + payload > |bytes|
           || (id == l.mediaId && body + l.media <= |bytes| && Read(bytes, body + l.formatAt, 4) != l.pcmFormat))
  }

  // ---------------------------------------------------------------- what a scan yields

  datatype Info = Info(frameIndex: nat, rate: nat, channels: nat)

  function Update(info: Info, item: Item): Info {
    match item
    case Start(lsw, msw) => info.(frameIndex := msw * WORD + lsw)
    case End(lsw, msw, _) => info.(frameIndex := msw * WORD + lsw)
    case Media(rate, channels) => info.(rate := rate, channels := channels)
    case Unknown(_, _) => info
  }

  function Fold(info: Info, items: seq<Item>): Info
    decreases |items|
  {
    if items == [] then info else Fold(Update(info, items[0]), items[1..])
  }

  predicate SetsIndex(item: Item) {
    item.Start? || item.End?
  }

  /** The last writer wins: the frame index is that of the last start or end item, the format
      that of the last media item, and what no item writes stays as it was. */
  lemma {:induction false} LastWriterWins(info: Info, items: seq<Item>, k: nat)
    requires k < |items|
    ensures SetsIndex(items[k]) && (forall j :: k < j < |items| ==> !SetsIndex(items[j])) ==>
              Fold(info, items).frameIndex == items[k].msw * WORD + items[k].lsw
    ensures items[k].Media? && (forall j :: k < j < |items| ==> !items[j].Media?) ==>
              Fold(info, items).rate == items[k].rate && Fold(info, items).channels == items[k].channels
    decreases |items|
  {
    var rest := items[1..];
    assert forall j :: 0 <= j < |rest| ==> rest[j] == items[j + 1];
    if k > 0 {
      LastWriterWins(Update(info, items[0]), rest, k - 1);
      assert items[k] == rest[k - 1];
      assert (forall j :: k < j < |items| ==> !SetsIndex(items[j])) ==> forall j :: k - 1 < j < |rest| ==> !SetsIndex(rest[j]);
      assert (forall j :: k < j < |items| ==> !items[j].Media?) ==> forall j :: k - 1 < j < |rest| ==> !rest[j].Media?;
    } else {
      NoWriterNoChange(Update(info, items[0]), rest);
    }
  }

  lemma {:induction false} NoWriterNoChange(info: Info, items: seq<Item>)
    ensures (forall j :: 0 <= j < |items| ==> !SetsIndex(items[j])) ==> Fold(info, items).frameIndex == info.frameIndex
    ensures (forall j :: 0 <= j < |items| ==> !items[j].Media?) ==>
              Fold(info, items).rate == info.rate && Fold(info, items).channels == info.channels
    decreases |items|
  {
    if items != [] {
      var rest := items[1..];
      assert forall j :: 0 <= j < |rest| ==> rest[j] == items[j + 1];
      NoWriterNoChange(Update(info, items[0]), rest);
    }
  }

  /** A buffer can be read as items in one way only. */
  lemma {:induction false} Unambiguous(l: Layout, bytes: seq<byte>, pos: nat, one: seq<Item>, two: seq<Item>, end: nat)
    requires l.Valid()
    requires Serialises(l, bytes, pos, one, end) && Serialises(l, bytes, pos, two, end)
    ensures one == two
    decreases |one|
  {
    SerialisesForward(l, bytes, pos, one, end);
    SerialisesForward(l, bytes, pos, two, end);
    if one != [] && two != [] {
      assert one[0] == two[0];
      Unambiguous(l, bytes, pos + Size(l, one[0]), one[1..], two[1..], end);
      assert one == [one[0]] + one[1..] && two == [two[0]] + two[1..];
    }
  }

  /** Items take room. */
  lemma {:induction false} SerialisesForward(l: Layout, bytes: seq<byte>, pos: nat, items: seq<Item>, end: nat)
    requires l.Valid() && Serialises(l, bytes, pos, items, end)
    ensures if items == [] then pos == end else pos < end <= |bytes|
    decreases |items|
  {
    if items != [] {
      SerialisesForward(l, bytes, pos + Size(l, items[0]), items[1..], end);
    }
  }

  // ---------------------------------------------------------------- the parser

  class BufferInfo {
    var frameIndex: nat
    var rate: nat
    var channels: nat

    constructor ()
      ensures Value() == Info(0, 0, 0)
    {
      frameIndex, rate, channels := 0, 0, 0;
    }

    function Value(): Info
      reads this
    {
      Info(frameIndex, rate, channels)
    }
  }

  function SmallestSize(l: Layout): nat {
    if l.start <= l.end then l.header + l.start else l.header + l.end
  }

  method ReadAt(metadata: array<byte>, at: nat, width: nat) returns (v: nat)
    requires at + width <= metadata.Length
    ensures v == Read(metadata[..], at, width)
  {
    v := 0;
    var i: nat := width;
    while i > 0
      invariant i <= width
      invariant v == Read(metadata[..], at + i, width - i)
    {
      i := i - 1;
      var rest: nat := v;
      v := metadata[at + i] as nat + 256 * rest;
    }
  }

  datatype Round = Round(rc: int, next: nat, info: Info)

  ghost function ScanIndex(bytes: seq<byte>, body: nat, payload: nat, size: nat, lswAt: nat, mswAt: nat, info: Info): Round
    requires body + payload <= |bytes| ==> body + lswAt + 4 <= |bytes| && body + mswAt + 4 <= |bytes|
  {
    if body + payload > |bytes| then Round(-EINVAL, body, info)
    else Round(0, body + size, info.(frameIndex := Read(bytes, body + mswAt, 4) * WORD + Read(bytes, body + lswAt, 4)))
  }

  ghost predicate MediaReadable(l: Layout, bytes: seq<byte>, body: nat, payload: nat)
    requires l.Valid()
  {
    body + payload <= |bytes| ==>
      && body + l.media <= |bytes|
      && (Read(bytes, body + l.formatAt, 4) == l.pcmFormat ==> body + l.media + l.pcm <= |bytes|)
  }

  ghost function ScanMedia(l: Layout, bytes: seq<byte>, body: nat, payload: nat, info: Info): Round
    requires l.Valid() && MediaReadable(l, bytes, body, payload)
  {
    if body + payload > |bytes| then Round(-EINVAL, body, info)
    else if Read(bytes, body + l.formatAt, 4) != l.pcmFormat then Round(-EINVAL, body + l.media, info)
    else
      var channels := Read(bytes, body + l.media + l.channelsAt, l.channelsWidth);
      Round(0, body + l.media + Align4(l.pcm + channels),
            info.(rate := Read(bytes, body + l.media + l.rateAt, 4), channels := channels))
  }

  /** All that one round of the scan looks at lies within the buffer. */
  ghost predicate Readable(l: Layout, bytes: seq<byte>, pos: nat)
    requires l.Valid()
  {
    && pos + l.header <= |bytes|
    && var id, payload, body := Read(bytes, pos + l.idAt, 4), Read(bytes, pos + l.payloadAt, 4), pos + l.header;
       && (id == l.startId && body + payload <= |bytes| ==> body + l.start <= |bytes|)
       && (id == l.endId && body + payload <= |bytes| ==> body + l.end <= |bytes|)
       && (id == l.mediaId ==> MediaReadable(l, bytes, body, payload))
  }

  ghost function Scan(l: Layout, bytes: seq<byte>, pos: nat, info: Info): Round
    requires l.Valid() && Readable(l, bytes, pos)
  {
    var id, payload, body := Read(bytes, pos + l.idAt, 4), Read(bytes, pos + l.payloadAt, 4), pos + l.header;
    if id == l.startId then ScanIndex(bytes, body, payload, l.start, l.startLsw, l.startMsw, info)
    else if id == l.endId then ScanIndex(bytes, body, payload, l.end, l.endLsw, l.endMsw, info)
    else if id == l.mediaId then ScanMedia(l, bytes, body, payload, info)
    else Round(0, body + payload, info)
  }

  /** A well-formed item is passed over exactly and has its say. */
  lemma ScanAccepts(l: Layout, bytes: seq<byte>, pos: nat, info: Info, item: Item)
    requires l.Valid() && ItemAt(l, bytes, pos, item)
    ensures Readable(l, bytes, pos) && !Rejected(l, bytes, pos)
    ensures Scan(l, bytes, pos, info) == Round(0, pos + Size(l, item), Update(info, item))
  {
  }

  /** What can be read is an error exactly when it is to be rejected, and then says nothing. */
  lemma ScanRejectsIff(l: Layout, bytes: seq<byte>, pos: nat, info: Info)
    requires l.Valid()
    ensures Rejected(l, bytes, pos) ==> Readable(l, bytes, pos)
    ensures Readable(l, bytes, pos) ==>
              var round := Scan(l, bytes, pos, info);
              && round.rc == (if Rejected(l, bytes, pos) then -EINVAL else 0)
              && (round.rc != 0 ==> round.info == info)
  {
  }

  /** A start or an end item, which differ in where they keep the frame index. */
  method ParseIndex(metadata: array<byte>, body: nat, payload: nat, size: nat, lswAt: nat, mswAt: nat,
                    info: BufferInfo, ghost bytes: seq<byte>)
    returns (rc: int, next: nat)
    requires bytes == metadata[..]
    requires body + payload <= |bytes| ==> body + lswAt + 4 <= |bytes| && body + mswAt + 4 <= |bytes|
    modifies info
    ensures Round(rc, next, info.Value()) == ScanIndex(bytes, body, payload, size, lswAt, mswAt, old(info.Value()))
  {
    if body + payload > metadata.Length { return -EINVAL, body; }
    var lsw := ReadAt(metadata, body + lswAt, 4);
    var msw := ReadAt(metadata, body + mswAt, 4);
    info.frameIndex := msw * WORD + lsw;
    rc, next := 0, body + size;
  }

  /** A media format; anything but PCM is an error. */
  method ParseMedia(l: Layout, metadata: array<byte>, body: nat, payload: nat, info: BufferInfo, ghost bytes: seq<byte>)
    returns (rc: int, next: nat)
    requires l.Valid() && bytes == metadata[..] && MediaReadable(l, bytes, body, payload)
    modifies info
    ensures Round(rc, next, info.Value()) == ScanMedia(l, bytes, body, payload, old(info.Value()))
  {
    next := body;
    if body + payload > metadata.Length { return -EINVAL, next; }
    var format := ReadAt(metadata, body + l.formatAt, 4);
    next := body + l.media;
    if format != l.pcmFormat { return -EINVAL, next; }
    info.rate := ReadAt(metadata, next + l.rateAt, 4);
    info.channels := ReadAt(metadata, next + l.channelsAt, l.channelsWidth);
    next := next + Align4(l.pcm + info.channels);
    rc := 0;
  }

  /** What one round reads of a start or an end item: the frame index from its two words. */
  lemma ScanReadsIndex(l: Layout, bytes: seq<byte>, pos: nat, info: Info)
    requires l.Valid() && Readable(l, bytes, pos) && !Rejected(l, bytes, pos)
    ensures
      var id, body, round := Read(bytes, pos + l.idAt, 4), pos + l.header, Scan(l, bytes, pos, info);
      && (id == l.startId ==>
            round == Round(0, body + l.start, info.(frameIndex :=
              Read(bytes, body + l.startMsw, 4) * 0x1_0000_0000 + Read(bytes, body + l.startLsw, 4))))
      && (id == l.endId ==>
            round == Round(0, body + l.end, info.(frameIndex :=
              Read(bytes, body + l.endMsw, 4) * 0x1_0000_0000 + Read(bytes, body + l.endLsw, 4))))
  {
  }

  /** Of a media item: its rate and channels, and then on to the next multiple of four. */
  lemma ScanReadsMedia(l: Layout, bytes: seq<byte>, pos: nat, info: Info)
    requires l.Valid() && Readable(l, bytes, pos) && !Rejected(l, bytes, pos)
    requires Read(bytes, pos + l.idAt, 4) == l.mediaId
    ensures
      var pcm, round := pos + l.header + l.media, Scan(l, bytes, pos, info);
      var channels := Read(bytes, pcm + l.channelsAt, l.channelsWidth);
      && round == Round(0, round.next, Info(info.frameIndex, Read(bytes, pcm + l.rateAt, 4), channels))
      && l.pcm + channels <= round.next - pcm < l.pcm + channels + 4 && (round.next - pcm) % 4 == 0
  {
  }

  /** Of an unknown item: nothing, and then on behind its payload. */
  lemma ScanSkipsUnknown(l: Layout, bytes: seq<byte>, pos: nat, info: Info)
    requires l.Valid() && Readable(l, bytes, pos)
    requires Read(bytes, pos + l.idAt, 4) !in {l.startId, l.endId, l.mediaId}
    ensures Scan(l, bytes, pos, info) == Round(0, pos + l.header + Read(bytes, pos + l.payloadAt, 4), info)
  {
  }

  method ParseItem(l: Layout, metadata: array<byte>, pos: nat, info: BufferInfo, ghost bytes: seq<byte>)
    returns (rc: int, next: nat)
    requires l.Valid() && bytes == metadata[..] && Readable(l, bytes, pos)
    modifies info
    ensures Round(rc, next, info.Value()) == Scan(l, bytes, pos, old(info.Value()))
  {
    var id := ReadAt(metadata, pos + l.idAt, 4);
    var payload := ReadAt(metadata, pos + l.payloadAt, 4);
    rc, next := 0, pos + l.header;
    if id == l.startId {
      rc, next := ParseIndex(metadata, next, payload, l.start, l.startLsw, l.startMsw, info, bytes);
    } else if id == l.endId {
      rc, next := ParseIndex(metadata, next, payload, l.end, l.endLsw, l.endMsw, info, bytes);
    } else if id == l.mediaId {
      rc, next := ParseMedia(l, metadata, next, payload, info, bytes);
    } else {
      next := next + payload;
    }
  }

  /** Scanning well-formed items consumes the buffer exactly and yields what the items say, the
      last writer winning; an item that has to be rejected ends the scan with an error and leaves
      what the items before it say. */
  method ParseMetadata(l: Layout, metadata: array?<byte>, info: BufferInfo, ghost items: seq<Item>, ghost end: nat)
    returns (rc: int)
    requires l.Valid()
    requires metadata != null && metadata.Length >= SmallestSize(l) ==>
               && Serialises(l, metadata[..], 0, items, end)
               && (end == metadata.Length || Rejected(l, metadata[..], end))
    modifies info
    ensures metadata == null || metadata.Length < SmallestSize(l) ==> rc == -EINVAL && info.Value() == old(info.Value())
    ensures metadata != null && metadata.Length >= SmallestSize(l) ==>
              && info.Value() == Fold(old(info.Value()), items)
              && rc == if end == metadata.Length then 0 else -EINVAL
  {
    if metadata == null || metadata.Length < SmallestSize(l) { return -EINVAL; }
    var pos: nat := 0;
    ghost var bytes, rest := metadata[..], items;
    while pos < metadata.Length
      invariant bytes == metadata[..]
      invariant Serialises(l, bytes, pos, rest, end)
      invariant Fold(info.Value(), rest) == Fold(old(info.Value()), items)
      decreases |rest|, metadata.Length - pos
    {
      RejectedIsLast(l, bytes, pos, rest, end);
      if rest != [] {
        ScanAccepts(l, bytes, pos, info.Value(), rest[0]);
      } else {
        ScanRejectsIff(l, bytes, pos, info.Value());
      }
      var status, next := ParseItem(l, metadata, pos, info, bytes);
      if status != 0 { return status; }
      pos, rest := next, rest[1..];
    }
    SerialisesForward(l, bytes, pos, rest, end);
    rc := 0;
  }

  /** While items are left, the one in front is accepted. */
  lemma RejectedIsLast(l: Layout, bytes: seq<byte>, pos: nat, rest: seq<Item>, end: nat)
    requires l.Valid() && Serialises(l, bytes, pos, rest, end) && pos < |bytes|
    ensures rest == [] <==> pos == end
    ensures rest != [] ==> ItemAt(l, bytes, pos, rest[0])
  {
    SerialisesForward(l, bytes, pos, rest, end);
  }

  // ---------------------------------------------------------------- the writer

  type Index = x: nat | x < 0x1_0000_0000_0000_0000

  const UINT32_MAX: bv32 := 0xFFFF_FFFF

  function GetLsw(index: Index): Word {
    index % WORD
  }

  /** The mask is the complement of a 32-bit constant, taken in 32 bits: no bit passes it. */
  lemma NoBitPasses(bits: bv64)
    ensures bits & (!UINT32_MAX) as bv64 == 0
  {
    assert !UINT32_MAX == 0;
  }

  function GetMsw(index: Index): Word {
    NoBitPasses(index as bv64);
    ((index as bv64 & (!UINT32_MAX) as bv64) >> 32) as int
  }

  /** The upper half of the index is lost; the lower half is the index exactly below 2^32. */
  lemma IndexWords(index: Index)
    ensures GetMsw(index) == 0
    ensures GetMsw(index) * WORD + GetLsw(index) == index % WORD
    ensures GetMsw(index) * WORD + GetLsw(index) == index <==> index < WORD
  {
    NoBitPasses(index as bv64);
  }

  function Pow256(n: nat): nat {
    if n == 0 then 1 else 256 * Pow256(n - 1)
  }

  ghost predicate SameOutside(before: seq<byte>, after: seq<byte>, lo: nat, hi: nat) {
    |after| == |before| && forall i :: 0 <= i < |before| && !(lo <= i < hi) ==> after[i] == before[i]
  }

  method PutAt(a: array<byte>, at: nat, width: nat, v: nat)
    requires at + width <= a.Length && v < Pow256(width)
    modifies a
    ensures Read(a[..], at, width) == v
    ensures SameOutside(old(a[..]), a[..], at, at + width)
    decreases width
  {
    if width > 0 {
      PutAt(a, at + 1, width - 1, v / 256);
      ghost var rest := a[..];
      a[at] := v % 256;
      ReadSame(rest, a[..], at + 1, width - 1);
    }
  }

  /** Every word apart from `at` reads as before. */
  ghost predicate OnlyWord(before: seq<byte>, after: seq<byte>, at: nat) {
    |after| == |before| && forall x: nat :: x + 4 <= |after| && Apart(x, at) ==> Read(after, x, 4) == Read(before, x, 4)
  }

  method PutWord(a: array<byte>, at: nat, v: Word)
    requires at + 4 <= a.Length
    modifies a
    ensures Read(a[..], at, 4) == v
    ensures OnlyWord(old(a[..]), a[..], at)
    ensures SameOutside(old(a[..]), a[..], at, at + 4)
  {
    assert Pow256(4) == 256 * Pow256(3) == 65536 * Pow256(2) == 16777216 * Pow256(1) == WORD;
    PutAt(a, at, 4, v);
    forall x: nat | x + 4 <= a.Length && Apart(x, at) ensures Read(a[..], x, 4) == Read(old(a[..]), x, 4) {
      ReadSame(old(a[..]), a[..], x, 4);
    }
  }

  method PutTwo(a: array<byte>, at: nat, v: Word, at': nat, v': Word, ghost lo: nat, ghost hi: nat)
    requires lo <= at && lo <= at' && at + 4 <= hi && at' + 4 <= hi && hi <= a.Length && Apart(at, at')
    modifies a
    ensures Read(a[..], at, 4) == v && Read(a[..], at', 4) == v'
    ensures forall x: nat :: x + 4 <= a.Length && Apart(x, at) && Apart(x, at') ==> Read(a[..], x, 4) == Read(old(a[..]), x, 4)
    ensures SameOutside(old(a[..]), a[..], lo, hi)
  {
    PutWord(a, at, v);
    PutWord(a, at', v');
  }

  method PutHeader(l: Layout, a: array<byte>, pos: nat, id: Word, flags: Word, offset: Word, payload: Word)
    requires l.Valid() && l.HeaderDisjoint() && pos + l.header <= a.Length
    modifies a
    ensures HeaderAt(l, a[..], pos, id, payload)
    ensures Marks(l, a[..], pos, flags, offset)
    ensures SameOutside(old(a[..]), a[..], pos, pos + l.header)
  {
    PutTwo(a, pos + l.idAt, id, pos + l.flagsAt, flags, pos, pos + l.header);
    PutTwo(a, pos + l.offsetAt, offset, pos + l.payloadAt, payload, pos, pos + l.header);
  }

  method PutStart(l: Layout, a: array<byte>, body: nat, lsw: Word, msw: Word)
    requires l.Valid() && l.Disjoint() && body + l.start <= a.Length
    modifies a
    ensures StartAt(l, a[..], body, lsw, msw)
    ensures SameOutside(old(a[..]), a[..], body, body + l.start)
  {
    PutTwo(a, body + l.startLsw, lsw, body + l.startMsw, msw, body, body + l.start);
  }

  method PutEnd(l: Layout, a: array<byte>, body: nat, lsw: Word, msw: Word, flags: Word)
    requires l.Valid() && l.Disjoint() && body + l.end <= a.Length
    modifies a
    ensures EndAt(l, a[..], body, lsw, msw, flags)
    ensures SameOutside(old(a[..]), a[..], body, body + l.end)
  {
    PutTwo(a, body + l.endLsw, lsw, body + l.endMsw, msw, body, body + l.end);
    PutWord(a, body + l.endFlags, flags);
  }

  function Written(index: Index): seq<Item> {
    [Start(GetLsw(index), GetMsw(index)), End(GetLsw(index), GetMsw(index), 0)]
  }

  function WrittenSize(l: Layout): nat {
    l.header + l.start + l.header + l.end
  }

  /** What the writer needs to know of the stream. */
  datatype Format = Format(pcm: bool, bitWidth: Word, channels: Word) {
    function SampleSize(): Word {
      bitWidth / 8 * channels % WORD
    }

    /** The writer divides by the size of a sample. */
    predicate Valid() {
      pcm ==> SampleSize() != 0
    }

    /** Where the end item says the data ends: in samples per channel for PCM, else in bytes. */
    function EndOffset(filled: nat): Word
      requires Valid()
    {
      if pcm then filled % WORD / SampleSize() else filled % WORD
    }
  }

  method WriteStart(l: Layout, a: array<byte>, flags: Word, lsw: Word, msw: Word)
    requires l.Valid() && l.Disjoint() && l.header + l.start <= a.Length
    modifies a
    ensures ItemAt(l, a[..], 0, Start(lsw, msw))
    ensures Marks(l, a[..], 0, flags, 0)
    ensures SameOutside(old(a[..]), a[..], 0, l.header + l.start)
  {
    PutHeader(l, a, 0, l.startId, flags, 0, l.start);
    ghost var one := a[..];
    PutStart(l, a, l.header, lsw, msw);
    HeaderStays(l, one, a[..], 0, l.startId, l.start, l.header, l.header + l.start);
    MarksStay(l, one, a[..], 0, flags, 0, l.header, l.header + l.start);
  }

  method WriteEnd(l: Layout, a: array<byte>, pos: nat, flags: Word, offset: Word, lsw: Word, msw: Word)
    requires l.Valid() && l.Disjoint() && pos + l.header + l.end <= a.Length
    modifies a
    ensures ItemAt(l, a[..], pos, End(lsw, msw, 0))
    ensures Marks(l, a[..], pos, flags, offset)
    ensures SameOutside(old(a[..]), a[..], pos, pos + l.header + l.end)
  {
    PutHeader(l, a, pos, l.endId, flags, offset, l.end);
    ghost var one := a[..];
    PutEnd(l, a, pos + l.header, lsw, msw, 0);
    var body := pos + l.header;
    HeaderStays(l, one, a[..], pos, l.endId, l.end, body, body + l.end);
    MarksStay(l, one, a[..], pos, flags, offset, body, body + l.end);
  }

  /** The fields of a header that the parser does not look at. */
  ghost predicate Marks(l: Layout, bytes: seq<byte>, pos: nat, flags: Word, offset: Word)
    requires l.Valid()
  {
    pos + l.header <= |bytes| && Read(bytes, pos + l.flagsAt, 4) == flags && Read(bytes, pos + l.offsetAt, 4) == offset
  }

  lemma MarksStay(l: Layout, before: seq<byte>, after: seq<byte>, pos: nat, flags: Word, offset: Word, lo: nat, hi: nat)
    requires l.Valid() && Marks(l, before, pos, flags, offset) && SameOutside(before, after, lo, hi)
    requires pos + l.header <= lo
    ensures Marks(l, after, pos, flags, offset)
  {
    ReadSame(before, after, pos + l.flagsAt, 4);
    ReadSame(before, after, pos + l.offsetAt, 4);
  }

  lemma HeaderStays(l: Layout, before: seq<byte>, after: seq<byte>, pos: nat, id: Word, payload: nat, lo: nat, hi: nat)
    requires l.Valid() && HeaderAt(l, before, pos, id, payload) && SameOutside(before, after, lo, hi)
    requires pos + l.header <= lo
    ensures HeaderAt(l, after, pos, id, payload)
  {
    ReadSame(before, after, pos + l.idAt, 4);
    ReadSame(before, after, pos + l.payloadAt, 4);
  }

  lemma StartStays(l: Layout, before: seq<byte>, after: seq<byte>, lsw: Word, msw: Word, hi: nat)
    requires l.Valid() && ItemAt(l, before, 0, Start(lsw, msw)) && SameOutside(before, after, l.header + l.start, hi)
    ensures ItemAt(l, after, 0, Start(lsw, msw))
  {
    HeaderStays(l, before, after, 0, l.startId, l.start, l.header + l.start, hi);
    ReadSame(before, after, l.header + l.startLsw, 4);
    ReadSame(before, after, l.header + l.startMsw, 4);
  }

  lemma TwoItems(l: Layout, bytes: seq<byte>, items: seq<Item>)
    requires l.Valid() && |items| == 2 && ItemAt(l, bytes, 0, items[0]) && ItemAt(l, bytes, Size(l, items[0]), items[1])
    ensures Serialises(l, bytes, 0, items, Size(l, items[0]) + Size(l, items[1]))
  {
    assert items[1..][1..] == [];
  }

  method WriteBoth(l: Layout, a: array<byte>, lsw: Word, msw: Word, flags: Word, offset: Word)
    requires l.Valid() && l.Disjoint() && a.Length >= WrittenSize(l)
    modifies a
    ensures ItemAt(l, a[..], 0, Start(lsw, msw)) && Marks(l, a[..], 0, flags, 0)
    ensures ItemAt(l, a[..], l.header + l.start, End(lsw, msw, 0)) && Marks(l, a[..], l.header + l.start, flags, offset)
    ensures SameOutside(old(a[..]), a[..], 0, WrittenSize(l))
  {
    WriteStart(l, a, flags, lsw, msw);
    ghost var one := a[..];
    WriteEnd(l, a, l.header + l.start, flags, offset, lsw, msw);
    StartStays(l, one, a[..], lsw, msw, WrittenSize(l));
    MarksStay(l, one, a[..], 0, flags, 0, l.header + l.start, WrittenSize(l));
  }

  lemma QuotientBounds(x: nat, n: nat)
    requires n > 0
    ensures x / n * n <= x < (x / n + 1) * n
  {
  }

  /** For PCM the end is told in samples: as many whole ones as the filled bytes hold; else in bytes. */
  lemma EndsWhereFilled(format: Format, filled: nat)
    requires format.Valid()
    ensures
      var size := format.bitWidth / 8 * format.channels % 0x1_0000_0000;
      var bytes := filled % 0x1_0000_0000;
      var end := format.EndOffset(filled);
      if format.pcm then end * size <= bytes < (end + 1) * size else end == bytes
  {
    if format.pcm {
      QuotientBounds(filled % WORD, format.SampleSize());
    }
  }

  /** The least that a buffer must hold: a header and the smaller of the two frames. */
  lemma SmallestSizeIs(l: Layout)
    ensures SmallestSize(l) <= l.header + l.start && SmallestSize(l) <= l.header + l.end
    ensures SmallestSize(l) == l.header + l.start || SmallestSize(l) == l.header + l.end
  {
  }

  /** A start item and an end item with the same frame index, one after the other at the front of
      the buffer; what lies behind them is not touched. */
  method FillMetadata(l: Layout, a: array<byte>, index: Index, filled: nat, format: Format, associated: Word)
    requires l.Valid() && l.Disjoint() && a.Length >= WrittenSize(l)
    requires format.Valid()
    modifies a
    ensures Serialises(l, a[..], 0, Written(index), WrittenSize(l))
    ensures Marks(l, a[..], 0, associated, 0)
    ensures Marks(l, a[..], l.header + l.start, associated, format.EndOffset(filled))
    ensures SameOutside(old(a[..]), a[..], 0, WrittenSize(l))
  {
    WriteBoth(l, a, GetLsw(index), GetMsw(index), associated, format.EndOffset(filled));
    WrittenSerialises(l, a[..], index);
  }

  /** Word by word, what the written items say: the index in the lower words, zero in all others. */
  lemma WrittenWords(l: Layout, bytes: seq<byte>, index: Index)
    requires l.Valid() && Serialises(l, bytes, 0, Written(index), WrittenSize(l))
    ensures WrittenSize(l) <= |bytes|
    ensures Read(bytes, l.idAt, 4) == l.startId && Read(bytes, l.payloadAt, 4) == l.start
    ensures Read(bytes, l.header + l.startLsw, 4) == index % 0x1_0000_0000 && Read(bytes, l.header + l.startMsw, 4) == 0
    ensures
      var pos := l.header + l.start;
      && Read(bytes, pos + l.idAt, 4) == l.endId && Read(bytes, pos + l.payloadAt, 4) == l.end
      && Read(bytes, pos + l.header + l.endLsw, 4) == index % 0x1_0000_0000
      && Read(bytes, pos + l.header + l.endMsw, 4) == 0 && Read(bytes, pos + l.header + l.endFlags, 4) == 0
  {
    IndexWords(index);
    BothItems(l, bytes, Written(index));
  }

  lemma BothItems(l: Layout, bytes: seq<byte>, items: seq<Item>)
    requires l.Valid() && |items| == 2 && Serialises(l, bytes, 0, items, Size(l, items[0]) + Size(l, items[1]))
    ensures ItemAt(l, bytes, 0, items[0]) && ItemAt(l, bytes, Size(l, items[0]), items[1])
  {
    assert items[1..][0] == items[1];
  }

  lemma WrittenSerialises(l: Layout, bytes: seq<byte>, index: Index)
    requires l.Valid() && ItemAt(l, bytes, 0, Start(GetLsw(index), GetMsw(index)))
    requires ItemAt(l, bytes, l.header + l.start, End(GetLsw(index), GetMsw(index), 0))
    ensures Serialises(l, bytes, 0, Written(index), WrittenSize(l))
  {
    TwoItems(l, bytes, Written(index));
  }

  /** The frame index that parsing the written items yields is the given one modulo 2^32, and so
      the given one exactly if it is below 2^32. */
  lemma WrittenIndex(info: Info, index: Index)
    ensures Fold(info, Written(index)) == info.(frameIndex := index % WORD)
    ensures Fold(info, Written(index)).frameIndex == index <==> index < WORD
  {
    IndexWords(index);
    var items := Written(index);
    assert items[1..][1..] == [];
    assert Fold(info, items) == Fold(Update(info, items[0]), items[1..]) == Update(Update(info, items[0]), items[1]);
  }

  /** A buffer of just the right size, written and parsed again. */
  method FillThenParse(l: Layout, a: array<byte>, info: BufferInfo, index: Index, filled: nat, format: Format, associated: Word)
    returns (rc: int)
    requires l.Valid() && l.Disjoint() && a.Length == WrittenSize(l)
    requires format.Valid()
    modifies a, info
    ensures rc == 0
    ensures info.Value() == old(info.Value()).(frameIndex := index % WORD)
  {
    FillMetadata(l, a, index, filled, format, associated);
    rc := ParseWritten(l, a, info, index);
  }

  method ParseWritten(l: Layout, a: array<byte>, info: BufferInfo, ghost index: Index) returns (rc: int)
    requires l.Valid() && a.Length == WrittenSize(l) && Serialises(l, a[..], 0, Written(index), a.Length)
    modifies info
    ensures rc == 0
    ensures info.Value() == old(info.Value()).(frameIndex := index % WORD)
  {
    WrittenIndex(info.Value(), index);
    ghost var items := Written(index);
    rc := ParseMetadata(l, a, info, items, a.Length);
  }
}
