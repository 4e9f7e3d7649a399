/** Every list of metadata items is what some bytes say: with the parser's result on them, and
    their one reading, parsing is the inverse of encoding. */
module MetadataEncoding {
  import opened Metadata

  function Digits(v: nat, width: nat): (r: seq<byte>)
    ensures |r| == width
    decreases width
  {
    if width == 0 then [] else [v % 256] + Digits(v / 256, width - 1)
  }

  lemma {:induction false} ReadDigits(bytes: seq<byte>, at: nat, width: nat, v: nat)
    requires at + width <= |bytes| && v < Pow256(width)
    requires forall i :: 0 <= i < width ==> bytes[at + i] == Digits(v, width)[i]
    ensures Read(bytes, at, width) == v
    decreases width
  {
    if width > 0 {
      var rest := Digits(v / 256, width - 1);
      forall i | 0 <= i < width - 1 ensures bytes[at + 1 + i] == rest[i] {
        assert bytes[at + (i + 1)] == Digits(v, width)[i + 1];
      }
      ReadDigits(bytes, at + 1, width - 1, v / 256);
      assert bytes[at + 0] == Digits(v, width)[0];
    }
  }

  /** Any value that fits can be put into any field. */
  lemma PutField(bytes: seq<byte>, at: nat, width: nat, v: nat) returns (r: seq<byte>)
    requires at + width <= |bytes| && v < Pow256(width)
    ensures SameOutside(bytes, r, at, at + width)
    ensures Read(r, at, width) == v
  {
    r := bytes[..at] + Digits(v, width) + bytes[at + width..];
    ReadDigits(r, at, width, v);
  }

  lemma PutWordIn(bytes: seq<byte>, at: nat, v: Word) returns (r: seq<byte>)
    requires at + 4 <= |bytes|
    ensures SameOutside(bytes, r, at, at + 4)
    ensures Read(r, at, 4) == v && OnlyWord(bytes, r, at)
  {
    assert Pow256(4) == 256 * Pow256(3) == 65536 * Pow256(2) == 16777216 * Pow256(1) == WORD;
    r := PutField(bytes, at, 4, v);
    forall x: nat | x + 4 <= |r| && Apart(x, at) ensures Read(r, x, 4) == Read(bytes, x, 4) {
      ReadSame(bytes, r, x, 4);
    }
  }

  lemma PutTwoIn(bytes: seq<byte>, at: nat, v: Word, at': nat, v': Word, lo: nat, hi: nat) returns (r: seq<byte>)
    requires lo <= at && lo <= at' && at + 4 <= hi && at' + 4 <= hi && hi <= |bytes| && Apart(at, at')
    ensures SameOutside(bytes, r, lo, hi)
    ensures Read(r, at, 4) == v && Read(r, at', 4) == v'
  {
    r := PutWordIn(bytes, at, v);
    r := PutWordIn(r, at', v');
  }

  // ---------------------------------------------------------------- items

  /** The two fields of a PCM format that are read do not overlap. */
  predicate MediaDisjoint(l: Layout) {
    l.rateAt + 4 <= l.channelsAt || l.channelsAt + l.channelsWidth <= l.rateAt
  }

  /** The values fit into their fields. */
  predicate Encodable(l: Layout, item: Item) {
    match item
    case Start(_, _) => true
    case End(_, _, _) => true
    case Media(rate, channels) =>
      rate < WORD && channels < Pow256(l.channelsWidth) && l.media + Align4(l.pcm + channels) < WORD
    case Unknown(id, _) => id !in {l.startId, l.endId, l.mediaId}
  }

  lemma HeaderIn(l: Layout, bytes: seq<byte>, pos: nat, id: Word, payload: Word) returns (r: seq<byte>)
    requires l.Valid() && l.HeaderDisjoint() && pos + l.header <= |bytes|
    ensures HeaderAt(l, r, pos, id, payload)
    ensures SameOutside(bytes, r, pos, pos + l.header)
  {
    r := PutTwoIn(bytes, pos + l.idAt, id, pos + l.payloadAt, payload, pos, pos + l.header);
  }

  lemma StartIn(l: Layout, bytes: seq<byte>, body: nat, lsw: Word, msw: Word) returns (r: seq<byte>)
    requires l.Valid() && l.BodiesDisjoint() && body + l.start <= |bytes|
    ensures StartAt(l, r, body, lsw, msw)
    ensures SameOutside(bytes, r, body, body + l.start)
  {
    r := PutTwoIn(bytes, body + l.startLsw, lsw, body + l.startMsw, msw, body, body + l.start);
  }

  lemma EndIn(l: Layout, bytes: seq<byte>, body: nat, lsw: Word, msw: Word, flags: Word) returns (r: seq<byte>)
    requires l.Valid() && l.BodiesDisjoint() && body + l.end <= |bytes|
    ensures EndAt(l, r, body, lsw, msw, flags)
    ensures SameOutside(bytes, r, body, body + l.end)
  {
    var two := PutTwoIn(bytes, body + l.endLsw, lsw, body + l.endMsw, msw, body, body + l.end);
    r := PutWordIn(two, body + l.endFlags, flags);
  }

  lemma MediaIn(l: Layout, bytes: seq<byte>, body: nat, rate: Word, channels: nat) returns (r: seq<byte>)
    requires l.Valid() && MediaDisjoint(l) && channels < Pow256(l.channelsWidth) && body + l.media + l.pcm <= |bytes|
    ensures MediaAt(l, r, body, rate, channels)
    ensures SameOutside(bytes, r, body, body + l.media + l.pcm)
  {
    var pcm := body + l.media;
    var one := PutField(bytes, pcm + l.channelsAt, l.channelsWidth, channels);
    var two := PutWordIn(one, body + l.formatAt, l.pcmFormat);
    ReadSame(one, two, pcm + l.channelsAt, l.channelsWidth);
    r := PutWordIn(two, pcm + l.rateAt, rate);
    ReadSame(two, r, pcm + l.channelsAt, l.channelsWidth);
  }

  lemma Extended(before: seq<byte>, n: nat) returns (r: seq<byte>)
    ensures before <= r && |r| == |before| + n
  {
    r := before + seq(n, i => 0);
  }

  lemma StartBehind(l: Layout, before: seq<byte>, lsw: Word, msw: Word) returns (r: seq<byte>)
    requires l.Valid() && l.Disjoint()
    ensures before <= r && |r| == |before| + l.header + l.start
    ensures HeaderAt(l, r, |before|, l.startId, l.start) && StartAt(l, r, |before| + l.header, lsw, msw)
  {
    var pos := |before|;
    var blank := Extended(before, l.header + l.start);
    var one := StartIn(l, blank, pos + l.header, lsw, msw);
    r := HeaderIn(l, one, pos, l.startId, l.start);
    StartSame(l, one, r, pos + l.header, lsw, msw);
    PrefixStays(before, blank, one, r, pos);
  }

  lemma EndBehind(l: Layout, before: seq<byte>, lsw: Word, msw: Word, flags: Word) returns (r: seq<byte>)
    requires l.Valid() && l.Disjoint()
    ensures before <= r && |r| == |before| + l.header + l.end
    ensures HeaderAt(l, r, |before|, l.endId, l.end) && EndAt(l, r, |before| + l.header, lsw, msw, flags)
  {
    var pos := |before|;
    var blank := Extended(before, l.header + l.end);
    var one := EndIn(l, blank, pos + l.header, lsw, msw, flags);
    r := HeaderIn(l, one, pos, l.endId, l.end);
    EndSame(l, one, r, pos + l.header, lsw, msw, flags);
    PrefixStays(before, blank, one, r, pos);
  }

  lemma MediaBehind(l: Layout, before: seq<byte>, rate: Word, channels: nat) returns (r: seq<byte>)
    requires l.Valid() && l.Disjoint() && MediaDisjoint(l)
    requires channels < Pow256(l.channelsWidth) && l.media + Align4(l.pcm + channels) < WORD
    ensures before <= r && |r| == |before| + l.header + l.media + Align4(l.pcm + channels)
    ensures HeaderAt(l, r, |before|, l.mediaId, l.media + Align4(l.pcm + channels))
    ensures MediaAt(l, r, |before| + l.header, rate, channels)
  {
    var pos, payload := |before|, l.media + Align4(l.pcm + channels);
    var blank := Extended(before, l.header + payload);
    var one := MediaIn(l, blank, pos + l.header, rate, channels);
    r := HeaderIn(l, one, pos, l.mediaId, payload);
    MediaSame(l, one, r, pos + l.header, rate, channels);
    PrefixStays(before, blank, one, r, pos);
  }

  lemma StartItemBehind(l: Layout, before: seq<byte>, item: Item) returns (r: seq<byte>)
    requires l.Valid() && l.Disjoint() && item.Start?
    ensures before <= r && |r| == |before| + Size(l, item) && ItemAt(l, r, |before|, item)
  {
    r := StartBehind(l, before, item.lsw, item.msw);
  }

  lemma EndItemBehind(l: Layout, before: seq<byte>, item: Item) returns (r: seq<byte>)
    requires l.Valid() && l.Disjoint() && item.End?
    ensures before <= r && |r| == |before| + Size(l, item) && ItemAt(l, r, |before|, item)
  {
    r := EndBehind(l, before, item.lsw, item.msw, item.flags);
  }

  lemma MediaItemBehind(l: Layout, before: seq<byte>, item: Item) returns (r: seq<byte>)
    requires l.Valid() && l.Disjoint() && MediaDisjoint(l) && item.Media? && Encodable(l, item)
    ensures before <= r && |r| == |before| + Size(l, item) && ItemAt(l, r, |before|, item)
  {
    r := MediaBehind(l, before, item.rate, item.channels);
  }

  lemma UnknownItemBehind(l: Layout, before: seq<byte>, item: Item) returns (r: seq<byte>)
    requires l.Valid() && l.Disjoint() && item.Unknown? && Encodable(l, item)
    ensures before <= r && |r| == |before| + Size(l, item) && ItemAt(l, r, |before|, item)
  {
    var blank := Extended(before, l.header + item.payload);
    r := HeaderIn(l, blank, |before|, item.id, item.payload);
    PrefixStays(before, blank, blank, r, |before|);
  }

  /** Behind any bytes there can be any item. */
  lemma {:induction false} ItemBehind(l: Layout, before: seq<byte>, item: Item) returns (r: seq<byte>)
    requires l.Valid() && l.Disjoint() && MediaDisjoint(l) && Encodable(l, item)
    ensures before <= r && |r| == |before| + Size(l, item)
    ensures ItemAt(l, r, |before|, item)
  {
    match item
    case Start(_, _) => r := StartItemBehind(l, before, item);
    case End(_, _, _) => r := EndItemBehind(l, before, item);
    case Media(_, _) => r := MediaItemBehind(l, before, item);
    case Unknown(_, _) => r := UnknownItemBehind(l, before, item);
  }

  lemma PrefixStays(before: seq<byte>, blank: seq<byte>, one: seq<byte>, two: seq<byte>, pos: nat)
    requires before <= blank && |before| == pos && |one| == |two| == |blank|
    requires forall i :: 0 <= i < pos ==> one[i] == blank[i]
    requires forall i :: 0 <= i < pos ==> two[i] == one[i]
    ensures before <= two
  {
  }

  /** Bodies depend on the bytes from their start on only. */
  lemma StartSame(l: Layout, a: seq<byte>, b: seq<byte>, body: nat, lsw: Word, msw: Word)
    requires l.Valid() && StartAt(l, a, body, lsw, msw) && |a| <= |b| && forall i :: body <= i < |a| ==> a[i] == b[i]
    ensures StartAt(l, b, body, lsw, msw)
  {
    ReadSame(a, b, body + l.startLsw, 4);
    ReadSame(a, b, body + l.startMsw, 4);
  }

  lemma EndSame(l: Layout, a: seq<byte>, b: seq<byte>, body: nat, lsw: Word, msw: Word, flags: Word)
    requires l.Valid() && EndAt(l, a, body, lsw, msw, flags) && |a| <= |b| && forall i :: body <= i < |a| ==> a[i] == b[i]
    ensures EndAt(l, b, body, lsw, msw, flags)
  {
    ReadSame(a, b, body + l.endLsw, 4);
    ReadSame(a, b, body + l.endMsw, 4);
    ReadSame(a, b, body + l.endFlags, 4);
  }

  lemma MediaSame(l: Layout, a: seq<byte>, b: seq<byte>, body: nat, rate: nat, channels: nat)
    requires l.Valid() && MediaAt(l, a, body, rate, channels) && |a| <= |b| && forall i :: body <= i < |a| ==> a[i] == b[i]
    ensures MediaAt(l, b, body, rate, channels)
  {
    ReadSame(a, b, body + l.formatAt, 4);
    ReadSame(a, b, body + l.media + l.rateAt, 4);
    ReadSame(a, b, body + l.media + l.channelsAt, l.channelsWidth);
  }

  lemma HeaderSame(l: Layout, a: seq<byte>, b: seq<byte>, pos: nat, id: Word, payload: nat)
    requires l.Valid() && HeaderAt(l, a, pos, id, payload) && a <= b
    ensures HeaderAt(l, b, pos, id, payload)
  {
    ReadSame(a, b, pos + l.idAt, 4);
    ReadSame(a, b, pos + l.payloadAt, 4);
  }

  lemma StartItemStays(l: Layout, a: seq<byte>, b: seq<byte>, pos: nat, item: Item)
    requires l.Valid() && item.Start? && ItemAt(l, a, pos, item) && a <= b
    ensures ItemAt(l, b, pos, item)
  {
    HeaderSame(l, a, b, pos, l.startId, l.start);
    StartSame(l, a, b, pos + l.header, item.lsw, item.msw);
  }

  lemma EndItemStays(l: Layout, a: seq<byte>, b: seq<byte>, pos: nat, item: Item)
    requires l.Valid() && item.End? && ItemAt(l, a, pos, item) && a <= b
    ensures ItemAt(l, b, pos, item)
  {
    HeaderSame(l, a, b, pos, l.endId, l.end);
    EndSame(l, a, b, pos + l.header, item.lsw, item.msw, item.flags);
  }

  lemma MediaItemStays(l: Layout, a: seq<byte>, b: seq<byte>, pos: nat, item: Item)
    requires l.Valid() && item.Media? && ItemAt(l, a, pos, item) && a <= b
    ensures ItemAt(l, b, pos, item)
  {
    HeaderSame(l, a, b, pos, l.mediaId, l.media + Align4(l.pcm + item.channels));
    MediaSame(l, a, b, pos + l.header, item.rate, item.channels);
  }

  lemma UnknownItemStays(l: Layout, a: seq<byte>, b: seq<byte>, pos: nat, item: Item)
    requires l.Valid() && item.Unknown? && ItemAt(l, a, pos, item) && a <= b
    ensures ItemAt(l, b, pos, item)
  {
    HeaderSame(l, a, b, pos, item.id, item.payload);
  }

  /** What follows an item does not change it. */
  lemma {:induction false} ItemStays(l: Layout, a: seq<byte>, b: seq<byte>, pos: nat, item: Item)
    requires l.Valid() && ItemAt(l, a, pos, item) && a <= b
    ensures ItemAt(l, b, pos, item)
  {
    match item
    case Start(_, _) => StartItemStays(l, a, b, pos, item);
    case End(_, _, _) => EndItemStays(l, a, b, pos, item);
    case Media(_, _) => MediaItemStays(l, a, b, pos, item);
    case Unknown(_, _) => UnknownItemStays(l, a, b, pos, item);
  }

  // ---------------------------------------------------------------- lists of items

  lemma {:induction false} ItemsBehind(l: Layout, before: seq<byte>, items: seq<Item>) returns (r: seq<byte>)
    requires l.Valid() && l.Disjoint() && MediaDisjoint(l) && forall item <- items :: Encodable(l, item)
    ensures before <= r && Serialises(l, r, |before|, items, |r|)
    decreases |items|
  {
    if items == [] {
      r := before;
    } else {
      var one := ItemBehind(l, before, items[0]);
      r := ItemsBehind(l, one, items[1..]);
      ItemStays(l, one, r, |before|, items[0]);
    }
  }

  /** Every list of items whose values fit their fields has a serialisation, and its items are the
      only ones that it can be read as. */
  lemma EveryListIsSerialised(l: Layout, items: seq<Item>)
    requires l.Valid() && l.Disjoint() && MediaDisjoint(l) && forall item <- items :: Encodable(l, item)
    ensures exists bytes ::
              && Serialises(l, bytes, 0, items, |bytes|)
              && forall others :: Serialises(l, bytes, 0, others, |bytes|) ==> others == items
  {
    var bytes := ItemsBehind(l, [], items);
    forall others | Serialises(l, bytes, 0, others, |bytes|) ensures others == items {
      Unambiguous(l, bytes, 0, items, others, |bytes|);
    }
  }
}
