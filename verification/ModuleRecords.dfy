/** The variable-length records that map tags to modules, as a use case reads them out of a buffer
    of 32-bit words, and the acknowledgement that is built from them. */
module ModuleRecords {

  const WORD: nat := 0x1_0000_0000

  type Word = x: nat | x < 0x1_0000_0000

  const ENODATA: int := 61

  datatype Module = Module(id: Word, iid: Word)

  datatype Record = Record(tag: Word, modules: seq<Module>)

  // ---------------------------------------------------------------- the layout

  function EncodeModules(modules: seq<Module>): (words: seq<Word>)
    ensures |words| == 2 * |modules|
  {
    if modules == [] then []
    else EncodeModules(modules[..|modules| - 1]) + [modules[|modules| - 1].id, modules[|modules| - 1].iid]
  }

  predicate Fits(r: Record) {
    |r.modules| < WORD
  }

  function EncodeRecord(r: Record): (words: seq<Word>)
    requires Fits(r)
    ensures |words| == 2 + 2 * |r.modules|
  {
    [r.tag, |r.modules|] + EncodeModules(r.modules)
  }

  function Encode(records: seq<Record>): seq<Word>
    requires forall r <- records :: Fits(r)
  {
    if records == [] then []
    else Encode(records[..|records| - 1]) + EncodeRecord(records[|records| - 1])
  }

  // ---------------------------------------------------------------- the walk

  /** How far the entry pointer moves, in units of eight bytes: the offset is kept in 32 bits. */
  function Stride(numModules: Word): nat {
    (8 + 8 * numModules) % WORD / 8
  }

  /** The pointer moves over exactly one record if and only if the record's size in bytes can be
      written with 32 bits. */
  lemma StrideExactIff(numModules: Word)
    ensures Stride(numModules) <= 1 + numModules
    ensures Stride(numModules) == 1 + numModules <==> numModules < 0x2000_0000 - 1
  {
    if numModules < 0x2000_0000 - 1 {
      assert 8 + 8 * numModules < WORD;
    } else {
      assert Stride(numModules) < 0x2000_0000;
    }
  }

  /** Where the k-th record starts, in units of eight bytes. */
  function Start(records: seq<Record>, k: nat): nat
    requires k <= |records|
  {
    if k == 0 then 0 else Start(records, k - 1) + 1 + |records[k - 1].modules|
  }

  /** The payload: the records one after another, perhaps with something behind them. */
  ghost predicate Holds(words: seq<Word>, records: seq<Record>) {
    && |records| < WORD
    && (forall r <- records :: Fits(r))
    && Encode(records) <= words
  }

  /** No record but the last is so long that the pointer loses its way. */
  ghost predicate Steppable(records: seq<Record>) {
    forall k :: 0 <= k < |records| - 1 ==> Short(records[k])
  }

  /** Where the entry pointer is when the loop comes to the k-th record. */
  function Pointer(records: seq<Record>, k: nat): nat
    requires k <= |records| && forall r <- records :: Fits(r)
  {
    if k == 0 then 0
    else
      assert records[k - 1] in records;
      Pointer(records, k - 1) + Stride(|records[k - 1].modules|)
  }

  predicate LandsOn(records: seq<Record>, k: nat)
    requires k <= |records| && forall r <- records :: Fits(r)
  {
    Pointer(records, k) == Start(records, k)
  }

  predicate Short(r: Record) {
    |r.modules| < 0x2000_0000 - 1
  }

  lemma {:induction false} LandsOnIff(records: seq<Record>, k: nat)
    requires k <= |records| && forall r <- records :: Fits(r)
    ensures Pointer(records, k) <= Start(records, k)
    ensures LandsOn(records, k) <==> forall j :: 0 <= j < k ==> Short(records[j])
  {
    if k > 0 {
      LandsOnIff(records, k - 1);
      assert records[k - 1] in records;
      StrideExactIff(|records[k - 1].modules|);
    }
  }

  /** The pointer comes to every record if and only if all but the last are short enough. */
  lemma LandsOnEveryRecordIff(records: seq<Record>)
    requires forall r <- records :: Fits(r)
    ensures (forall k :: 0 <= k < |records| ==> LandsOn(records, k)) <==> Steppable(records)
  {
    forall k | 0 <= k < |records| ensures Steppable(records) ==> LandsOn(records, k) {
      LandsOnIff(records, k);
    }
    if |records| > 0 {
      LandsOnIff(records, |records| - 1);
    }
  }

  lemma {:induction false} EncodePrefix(records: seq<Record>, k: nat)
    requires k <= |records| && forall r <- records :: Fits(r)
    ensures forall r <- records[..k] :: Fits(r)
    ensures Encode(records[..k]) <= Encode(records)
    ensures |Encode(records[..k])| == 2 * Start(records, k)
    decreases |records|, 1
  {
    assert forall r <- records[..k] :: r in records;
    if k < |records| {
      var init := records[..|records| - 1];
      assert init[..k] == records[..k];
      EncodePrefix(init, k);
      StartOfPrefix(records, |records| - 1, k);
    } else {
      assert records[..k] == records;
      if k > 0 {
        var init := records[..k - 1];
        EncodePrefix(init, k - 1);
        StartOfPrefix(records, k - 1, k - 1);
        assert init[..k - 1] == init;
      }
    }
  }

  lemma {:induction false} StartOfPrefix(records: seq<Record>, n: nat, k: nat)
    requires k <= n <= |records|
    ensures Start(records[..n], k) == Start(records, k)
  {
    if k > 0 {
      StartOfPrefix(records, n, k - 1);
    }
  }

  lemma {:induction false} ModuleAt(modules: seq<Module>, i: nat)
    requires i < |modules|
    ensures EncodeModules(modules)[2 * i] == modules[i].id && EncodeModules(modules)[2 * i + 1] == modules[i].iid
  {
    if i < |modules| - 1 {
      ModuleAt(modules[..|modules| - 1], i);
    }
  }

  /** The words at the start of the k-th record are that record. */
  lemma RecordAt(words: seq<Word>, records: seq<Record>, k: nat)
    requires Holds(words, records) && k < |records|
    ensures 2 * Start(records, k + 1) <= |words|
    ensures
      var at, entry := 2 * Start(records, k), EncodeRecord(records[k]);
      at + |entry| <= |words| && words[at..at + |entry|] == entry
  {
    EncodePrefix(records, k);
    EncodePrefix(records, k + 1);
    assert records[..k + 1][..k] == records[..k];
    assert words[..2 * Start(records, k + 1)] == Encode(records[..k + 1]);
  }

  function DecodeModules(words: seq<Word>, at: nat, n: nat): seq<Module>
    requires at + 2 * n <= |words|
  {
    seq(n, i requires 0 <= i < n => Module(words[at + 2 * i], words[at + 2 * i + 1]))
  }

  /** The record that the words from `at` on spell out. */
  ghost predicate IsEntry(words: seq<Word>, at: nat, r: Record) {
    && at + 2 + 2 * |r.modules| <= |words|
    && words[at] == r.tag && words[at + 1] == |r.modules|
    && DecodeModules(words, at + 2, |r.modules|) == r.modules
  }

  lemma {:induction false} EntryAt(words: seq<Word>, records: seq<Record>, k: nat)
    requires Holds(words, records) && k < |records|
    ensures IsEntry(words, 2 * Start(records, k), records[k])
  {
    RecordAt(words, records, k);
    EntryIs(words, 2 * Start(records, k), records[k]);
  }

  lemma EntryIs(words: seq<Word>, at: nat, r: Record)
    requires Fits(r)
    requires
      var entry := EncodeRecord(r);
      at + |entry| <= |words| && words[at..at + |entry|] == entry
    ensures IsEntry(words, at, r)
  {
    var entry := EncodeRecord(r);
    Within(words, at, entry, 0);
    Within(words, at, entry, 1);
    var read := DecodeModules(words, at + 2, |r.modules|);
    forall i | 0 <= i < |r.modules| ensures read[i] == r.modules[i] {
      ModuleAt(r.modules, i);
      Within(words, at, entry, 2 + 2 * i);
      Within(words, at, entry, 3 + 2 * i);
    }
    assert read == r.modules;
  }

  lemma Within(words: seq<Word>, at: nat, part: seq<Word>, j: nat)
    requires at + |part| <= |words| && words[at..at + |part|] == part && j < |part|
    ensures words[at + j] == part[j]
  {
    assert words[at..at + |part|][j] == words[at + j];
  }

  // ---------------------------------------------------------------- what is read out

  function Iids(modules: seq<Module>): (iids: seq<Word>)
    ensures |iids| == |modules|
    ensures forall i :: 0 <= i < |iids| ==> iids[i] == modules[i].iid
  {
    seq(|modules|, i requires 0 <= i < |modules| => modules[i].iid)
  }

  /** The instance ids of all records with a tag, in the order of the payload. */
  function IidsOf(tag: Word, records: seq<Record>): seq<Word> {
    if records == [] then []
    else
      var last := records[|records| - 1];
      IidsOf(tag, records[..|records| - 1]) + if last.tag == tag then Iids(last.modules) else []
  }

  type IidMap = map<Word, seq<Word>>

  function Lookup(m: IidMap, tag: Word): seq<Word> {
    if tag in m then m[tag] else []
  }

  ghost predicate Collected(m: IidMap, tags: seq<Word>, records: seq<Record>) {
    && (forall tag :: tag in m ==> tag in tags && m[tag] != [])
    && forall tag <- tags :: Lookup(m, tag) == IidsOf(tag, records)
  }

  ghost predicate NothingFound(tags: seq<Word>, records: seq<Record>) {
    forall tag <- tags :: IidsOf(tag, records) == []
  }

  function Collect(m: IidMap, tags: seq<Word>, r: Record): IidMap {
    if r.tag in tags && r.modules != [] then m[r.tag := Lookup(m, r.tag) + Iids(r.modules)] else m
  }

  function CollectAll(tags: seq<Word>, records: seq<Record>): IidMap {
    if records == [] then map[]
    else Collect(CollectAll(tags, records[..|records| - 1]), tags, records[|records| - 1])
  }

  lemma CollectStep(m: IidMap, tags: seq<Word>, init: seq<Record>, r: Record, all: seq<Record>)
    requires Collected(m, tags, init) && all == init + [r]
    ensures Collected(Collect(m, tags, r), tags, all)
  {
    var out := Collect(m, tags, r);
    assert all[..|init|] == init && all[|init|] == r;
    forall tag <- tags ensures Lookup(out, tag) == IidsOf(tag, all) {
      assert Lookup(m, tag) == IidsOf(tag, init);
      assert IidsOf(tag, init) + [] == IidsOf(tag, init);
    }
  }

  lemma {:induction false} CollectAllIs(tags: seq<Word>, records: seq<Record>)
    ensures Collected(CollectAll(tags, records), tags, records)
  {
    if records != [] {
      var init, last := records[..|records| - 1], records[|records| - 1];
      CollectAllIs(tags, init);
      CollectStep(CollectAll(tags, init), tags, init, last, records);
    }
  }

  lemma NothingCollected(m: IidMap, tags: seq<Word>, records: seq<Record>)
    requires Collected(m, tags, records)
    ensures m == map[] <==> NothingFound(tags, records)
  {
    if m != map[] {
      var tag :| tag in m;
      assert Lookup(m, tag) != [];
    }
  }

  /** The inner loop: the instance ids of the record at `at`, one by one, under its tag. */
  method CollectRecord(words: seq<Word>, at: nat, m: IidMap, tags: seq<Word>, ghost r: Record) returns (out: IidMap)
    requires IsEntry(words, at, r)
    ensures out == Collect(m, tags, r)
  {
    var tag, n := words[at], words[at + 1];
    out := m;
    if tag !in tags { return; }
    ghost var iids := Iids(r.modules);
    var i := 0;
    while i < n
      invariant i <= n
      invariant out == if i == 0 then m else m[tag := Lookup(m, tag) + iids[..i]]
    {
      var iid := words[at + 2 + 2 * i + 1];
      assert iid == DecodeModules(words, at + 2, n)[i].iid == iids[i];
      assert Lookup(out, tag) == Lookup(m, tag) + iids[..i];
      assert Lookup(m, tag) + iids[..i] + [iid] == Lookup(m, tag) + iids[..i + 1];
      out := out[tag := Lookup(out, tag) + [iid]];
      i := i + 1;
    }
    assert iids[..n] == iids;
  }

  /** The walk over the payload lands on every record and collects the instance ids tag by tag;
      finding none at all is the only error. */
  method GetModuleIids(tags: seq<Word>, numTags: Word, words: seq<Word>, ghost records: seq<Record>)
    returns (rc: int, m: IidMap)
    requires Holds(words, records) && Steppable(records) && numTags == |records|
    ensures Collected(m, tags, records)
    ensures rc == if NothingFound(tags, records) then -ENODATA else 0
  {
    m, rc := map[], 0;
    var entry, offset, idx := 0, 0, 0;
    while idx < numTags
      invariant idx <= numTags
      invariant idx < numTags ==> entry + offset / 8 == Start(records, idx)
      invariant m == CollectAll(tags, records[..idx])
    {
      entry := entry + offset / 8;
      EntryAt(words, records, idx);
      offset := (8 + words[2 * entry + 1] as int * 8) % WORD;
      StrideExactIff(words[2 * entry + 1]);
      m := CollectRecord(words, 2 * entry, m, tags, records[idx]);
      assert records[..idx + 1][..idx] == records[..idx];
      idx := idx + 1;
    }
    assert records[..idx] == records;
    CollectAllIs(tags, records);
    NothingCollected(m, tags, records);
    if m == map[] {
      rc := -ENODATA;
    }
  }

  // ---------------------------------------------------------------- the acknowledgement

  /** Tag after tag, the instance ids of all matching records. */
  function Acknowledgement(tags: seq<Word>, records: seq<Record>): seq<Word> {
    if tags == [] then []
    else Acknowledgement(tags[..|tags| - 1], records) + IidsOf(tags[|tags| - 1], records)
  }

  method AppendAll(start: seq<Word>, from: nat, iids: seq<Word>) returns (data: seq<Word>, count: nat)
    ensures data == start + iids && count == from + |iids|
  {
    data, count := start, from;
    for i := 0 to |iids|
      invariant data == start + iids[..i] && count == from + i
    {
      data := data + [iids[i]];
      count := count + 1;
    }
  }

  method Concatenate(tags: seq<Word>, m: IidMap, ghost records: seq<Record>) returns (data: seq<Word>, count: nat)
    requires Collected(m, tags, records)
    ensures data == Acknowledgement(tags, records) && count == |data|
  {
    data, count := [], 0;
    for t := 0 to |tags|
      invariant data == Acknowledgement(tags[..t], records)
      invariant count == |data|
    {
      assert tags[..t + 1][..t] == tags[..t];
      data, count := AppendAll(data, count, Lookup(m, tags[t]));
    }
    assert tags[..|tags|] == tags;
  }

  method GetAckData(tags: seq<Word>, numTags: Word, words: seq<Word>, ghost records: seq<Record>)
    returns (rc: int, size: Word, data: seq<Word>)
    requires Holds(words, records) && Steppable(records) && numTags == |records|
    ensures rc == if Acknowledgement(tags, records) == [] then -ENODATA else 0
    ensures rc == 0 ==> data == Acknowledgement(tags, records) && size == 4 * |data| % WORD
  {
    var m: IidMap;
    rc, m := GetModuleIids(tags, numTags, words, records);
    NothingToAcknowledge(tags, records);
    if rc != 0 { return rc, 0, []; }
    var count: nat;
    data, count := Concatenate(tags, m, records);
    size := 4 * count % WORD;
  }

  lemma {:induction false} NothingToAcknowledge(tags: seq<Word>, records: seq<Record>)
    ensures Acknowledgement(tags, records) == [] <==> NothingFound(tags, records)
  {
    if tags != [] {
      var init, last := tags[..|tags| - 1], tags[|tags| - 1];
      assert tags == init + [last];
      NothingToAcknowledge(init, records);
      assert Acknowledgement(tags, records) == Acknowledgement(init, records) + IidsOf(last, records);
    }
  }

  function Count(tag: Word, records: seq<Record>): nat {
    if records == [] then 0
    else
      var last := records[|records| - 1];
      Count(tag, records[..|records| - 1]) + if last.tag == tag then |last.modules| else 0
  }

  function CountAll(tags: seq<Word>, records: seq<Record>): nat {
    if tags == [] then 0 else CountAll(tags[..|tags| - 1], records) + Count(tags[|tags| - 1], records)
  }

  lemma {:induction false} IidsOfCount(tag: Word, records: seq<Record>)
    ensures |IidsOf(tag, records)| == Count(tag, records)
  {
    if records != [] {
      IidsOfCount(tag, records[..|records| - 1]);
    }
  }

  /** The acknowledgement holds one word for every module of every record with one of the tags. */
  lemma {:induction false} AcknowledgementCount(tags: seq<Word>, records: seq<Record>)
    ensures |Acknowledgement(tags, records)| == CountAll(tags, records)
  {
    if tags != [] {
      AcknowledgementCount(tags[..|tags| - 1], records);
      IidsOfCount(tags[|tags| - 1], records);
    }
  }

  /** The buffer that the acknowledgement is written into, in bytes. */
  const ACK_BUFFER: nat := 1024

  /** Every word of the acknowledgement lies within its buffer if and only if the records with the
      tags have at most 256 modules in all; nothing in the code that writes it looks at that. And
      its size is then told exactly. */
  lemma AcknowledgementFitsIff(tags: seq<Word>, records: seq<Record>)
    ensures
      var ack := Acknowledgement(tags, records);
      && ((forall i :: 0 <= i < |ack| ==> 4 * i + 4 <= ACK_BUFFER) <==> 4 * CountAll(tags, records) <= ACK_BUFFER)
      && (4 * CountAll(tags, records) <= ACK_BUFFER ==> 4 * |ack| % WORD == 4 * CountAll(tags, records))
  {
    AcknowledgementCount(tags, records);
    var n := |Acknowledgement(tags, records)|;
    if n > 0 {
      assert 4 * (n - 1) + 4 == 4 * n;
    }
  }

  /** Every instance id comes from a record with the tag, and every such record's ids are there. */
  lemma {:induction false} IidsOfIs(tag: Word, records: seq<Record>, iid: Word)
    ensures iid in IidsOf(tag, records)
       <==> exists k, i :: 0 <= k < |records| && 0 <= i < |records[k].modules|
                           && records[k].tag == tag && records[k].modules[i].iid == iid
  {
    if records != [] {
      var init, last := records[..|records| - 1], records[|records| - 1];
      assert records == init + [last];
      IidsOfIs(tag, init, iid);
      if iid in IidsOf(tag, records) && iid !in IidsOf(tag, init) {
        var i :| 0 <= i < |last.modules| && Iids(last.modules)[i] == iid;
        assert records[|init|].modules[i].iid == iid;
      }
      if k, i :| 0 <= k < |records| && 0 <= i < |records[k].modules|
                 && records[k].tag == tag && records[k].modules[i].iid == iid {
        if k < |init| {
          assert init[k].modules[i].iid == iid;
        } else {
          assert Iids(last.modules)[i] == iid;
        }
      }
    }
  }

  /** Where each id stands under its tag: behind the ids of all earlier records with the tag. */
  lemma {:induction false} IidsOfAt(tag: Word, records: seq<Record>, k: nat, i: nat)
    requires k < |records| && records[k].tag == tag && i < |records[k].modules|
    ensures
      var at := Count(tag, records[..k]) + i;
      at < |IidsOf(tag, records)| && IidsOf(tag, records)[at] == records[k].modules[i].iid
  {
    var n := |records| - 1;
    IidsOfCount(tag, records[..n]);
    if k < n {
      IidsOfAt(tag, records[..n], k, i);
      assert records[..n][..k] == records[..k];
    }
  }

  /** Where each id stands in the acknowledgement: behind all ids for the tags in front of its own,
      and among those for its tag in the order of the payload. */
  lemma {:induction false} AcknowledgementAt(tags: seq<Word>, records: seq<Record>, t: nat, k: nat, i: nat)
    requires t < |tags| && k < |records| && records[k].tag == tags[t] && i < |records[k].modules|
    ensures
      var ack, at := Acknowledgement(tags, records), CountAll(tags[..t], records) + Count(tags[t], records[..k]) + i;
      at < |ack| && ack[at] == records[k].modules[i].iid
  {
    var n := |tags| - 1;
    AcknowledgementCount(tags[..n], records);
    if t < n {
      AcknowledgementAt(tags[..n], records, t, k, i);
      assert tags[..n][..t] == tags[..t];
    } else {
      IidsOfAt(tags[t], records, k, i);
    }
  }

  // ---------------------------------------------------------------- the layout can be read back

  /** The records from position `at` on, found by the stride of the walk; `None` when it leaves
      the buffer. */
  function Walk(words: seq<Word>, at: nat, count: nat): Option<seq<Record>>
    decreases count
  {
    if count == 0 then Some([])
    else if 2 * at + 1 >= |words| || 2 * at + 2 + 2 * (words[2 * at + 1] as int) > |words| then None
    else
      var n := words[2 * at + 1];
      var r := Record(words[2 * at], DecodeModules(words, 2 * at + 2, n));
      match Walk(words, at + Stride(n), count - 1)
      case None => None
      case Some(rest) => Some([r] + rest)
  }

  datatype Option<T> = None | Some(value: T)

  /** One round of the walk reads the record that it stands on. */
  lemma WalkOne(words: seq<Word>, at: nat, count: nat, r: Record, rest: seq<Record>)
    requires count > 0 && IsEntry(words, 2 * at, r)
    requires Walk(words, at + Stride(words[2 * at + 1]), count - 1) == Some(rest)
    ensures Walk(words, at, count) == Some([r] + rest)
  {
    var n: nat := words[2 * at + 1];
    assert Record(words[2 * at], DecodeModules(words, 2 * at + 2, n)) == r;
  }

  lemma {:induction false} WalkFinds(words: seq<Word>, records: seq<Record>, k: nat)
    requires Holds(words, records) && Steppable(records) && k < |records|
    ensures Walk(words, Start(records, k), |records| - k) == Some(records[k..])
    decreases |records| - k
  {
    var at := Start(records, k);
    EntryAt(words, records, k);
    assert records[k..] == [records[k]] + records[k + 1..];
    if k + 1 < |records| {
      assert Short(records[k]);
      StrideExactIff(words[2 * at + 1]);
      assert Start(records, k + 1) == at + Stride(words[2 * at + 1]);
      WalkFinds(words, records, k + 1);
    }
    WalkOne(words, at, |records| - k, records[k], records[k + 1..]);
  }

  /** Reading back what was laid out gives the records again. */
  lemma RoundTrip(words: seq<Word>, records: seq<Record>)
    requires Holds(words, records) && Steppable(records)
    ensures Walk(words, 0, |records|) == Some(records)
  {
    if records != [] {
      WalkFinds(words, records, 0);
      assert records[0..] == records;
    }
  }
}
