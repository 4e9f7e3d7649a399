/** The common capture profile of the detection streams: a vote-style comparison, the fold that
    looks for the best profile over all active streams, and the cache that is kept up to date
    one stream at a time. */
module CaptureProfiles {

  datatype Option<T> = None | Some(value: T)

  type StreamId = nat

  type Backend = string

  const VA_MACRO: Backend := "va_macro"
  const TX_MACRO: Backend := "tx_macro"

  const IN_HANDSET_MIC: int := 31
  const IN_SPEAKER_MIC: int := 32
  const IN_WIRED_HEADSET: int := 34

  const PRIORITY_HIGH: int := 1
  const EINVAL: int := 22

  datatype Profile = Profile(backend: Backend, channels: nat, sampleRate: nat, bitWidth: nat, device: int)

  datatype Kind = VoiceUi | Acd | SensorPcm | Asr | OtherKind

  datatype Stream = Stream(id: StreamId, kind: Kind, active: bool, profile: Option<Profile>)

  // ---------------------------------------------------------------- the comparison

  function Vote(a: nat, b: nat): int {
    if a == b then 0 else if a > b then 1 else -1
  }

  function ComparePriority(p: Profile, other: Option<Profile>): int {
    if other.None? then PRIORITY_HIGH
    else if p.backend != other.value.backend then -EINVAL
    else Vote(p.channels, other.value.channels) + Vote(p.sampleRate, other.value.sampleRate)
         + Vote(p.bitWidth, other.value.bitWidth)
  }

  predicate Wins(p: Profile, other: Option<Profile>) {
    ComparePriority(p, other) >= PRIORITY_HIGH
  }

  predicate Dominates(p: Profile, q: Profile) {
    p.channels >= q.channels && p.sampleRate >= q.sampleRate && p.bitWidth >= q.bitWidth
  }

  predicate SameFormat(p: Profile, q: Profile) {
    p.channels == q.channels && p.sampleRate == q.sampleRate && p.bitWidth == q.bitWidth
  }

  /** On one backend the votes are antisymmetric. */
  lemma VotesOppose(p: Profile, q: Profile)
    requires p.backend == q.backend
    ensures ComparePriority(p, Some(q)) == -ComparePriority(q, Some(p))
    ensures !(Wins(p, Some(q)) && Wins(q, Some(p)))
  {
  }

  /** The votes are no order: three profiles can each win against the next. */
  lemma VotesCycle()
    ensures exists p, q, r ::
              Wins(p, Some(q)) && Wins(q, Some(r)) && Wins(r, Some(p))
  {
    var p := Profile(VA_MACRO, 1, 2, 3, 0);
    var q := Profile(VA_MACRO, 3, 1, 2, 0);
    var r := Profile(VA_MACRO, 2, 3, 1, 0);
    assert Wins(p, Some(q)) && Wins(q, Some(r)) && Wins(r, Some(p));
  }

  // ---------------------------------------------------------------- the search

  /** A stream whose profile the search looks at. Sensor streams need not be active, and VoiceUI
      streams on a microphone of the primary path are passed over. */
  predicate Candidate(exclude: Option<StreamId>, backend: Backend, s: Stream) {
    && exclude != Some(s.id)
    && s.kind != OtherKind
    && (s.active || s.kind == SensorPcm)
    && s.profile.Some?
    && !(s.kind == VoiceUi && s.profile.value.device in {IN_HANDSET_MIC, IN_SPEAKER_MIC, IN_WIRED_HEADSET})
    && s.profile.value.backend == backend
  }

  function Consider(exclude: Option<StreamId>, backend: Backend, best: Option<Profile>, s: Stream): Option<Profile> {
    if Candidate(exclude, backend, s) && Wins(s.profile.value, best) then s.profile else best
  }

  function Search(exclude: Option<StreamId>, backend: Backend, best: Option<Profile>, streams: seq<Stream>): Option<Profile> {
    if streams == [] then best
    else Consider(exclude, backend, Search(exclude, backend, best, streams[..|streams| - 1]), streams[|streams| - 1])
  }

  function OfKind(streams: seq<Stream>, kind: Kind): seq<Stream> {
    if streams == [] then []
    else
      var last := streams[|streams| - 1];
      OfKind(streams[..|streams| - 1], kind) + if last.kind == kind then [last] else []
  }

  /** The order in which the streams are looked at: kind after kind. */
  function SearchOrder(streams: seq<Stream>): seq<Stream> {
    OfKind(streams, VoiceUi) + OfKind(streams, Acd) + OfKind(streams, SensorPcm) + OfKind(streams, Asr)
  }

  function Best(exclude: Option<StreamId>, backend: Backend, streams: seq<Stream>): Option<Profile> {
    Search(exclude, backend, None, SearchOrder(streams))
  }

  lemma {:induction false} SearchAppend(exclude: Option<StreamId>, backend: Backend, best: Option<Profile>,
                                        one: seq<Stream>, two: seq<Stream>)
    ensures Search(exclude, backend, best, one + two)
         == Search(exclude, backend, Search(exclude, backend, best, one), two)
  {
    if two == [] {
      assert one + two == one;
    } else {
      var all := one + two;
      assert all[..|all| - 1] == one + two[..|two| - 1];
      SearchAppend(exclude, backend, best, one, two[..|two| - 1]);
    }
  }

  lemma {:induction false} OfKindKeeps(streams: seq<Stream>, kind: Kind, s: Stream)
    ensures s in OfKind(streams, kind) <==> s in streams && s.kind == kind
  {
    if streams != [] {
      var init, last := streams[..|streams| - 1], streams[|streams| - 1];
      OfKindKeeps(init, kind, s);
      assert streams == init + [last];
    }
  }

  /** The four passes look at every detection stream and at nothing else. */
  lemma SearchOrderIsComplete(streams: seq<Stream>, s: Stream)
    ensures s in SearchOrder(streams) <==> s in streams && s.kind != OtherKind
  {
    OfKindKeeps(streams, VoiceUi, s);
    OfKindKeeps(streams, Acd, s);
    OfKindKeeps(streams, SensorPcm, s);
    OfKindKeeps(streams, Asr, s);
  }

  lemma {:induction false} SearchFinds(exclude: Option<StreamId>, backend: Backend, streams: seq<Stream>)
    ensures
      var best := Search(exclude, backend, None, streams);
      && (best.None? <==> forall s <- streams :: !Candidate(exclude, backend, s))
      && (best.Some? ==> exists s <- streams :: Candidate(exclude, backend, s) && s.profile == best)
  {
    if streams != [] {
      var init, last := streams[..|streams| - 1], streams[|streams| - 1];
      SearchFinds(exclude, backend, init);
      assert forall s :: s in streams <==> s in init || s == last by { assert streams == init + [last]; }
    }
  }

  /** Whatever the profiles look like, the search comes back empty-handed exactly when there is
      no candidate, and otherwise with the profile of one. */
  lemma NoneIffNoCandidate(exclude: Option<StreamId>, backend: Backend, streams: seq<Stream>)
    ensures
      var best := Best(exclude, backend, streams);
      && (best.None? <==> forall s <- streams :: !Candidate(exclude, backend, s))
      && (best.Some? ==> exists s <- streams :: Candidate(exclude, backend, s) && s.profile == best)
  {
    SearchFinds(exclude, backend, SearchOrder(streams));
    forall s ensures s in SearchOrder(streams) <==> s in streams && s.kind != OtherKind {
      SearchOrderIsComplete(streams, s);
    }
  }

  /** Which streams can be found at all: a stream by itself is found exactly if it is not the one left
      out, has a profile on the backend, and is an active VoiceUI stream away from the handset, speaker
      and headset microphones, an active ACD or ASR stream, or a sensor stream, active or not. */
  lemma FoundAloneIff(exclude: Option<StreamId>, backend: Backend, s: Stream)
    ensures Best(exclude, backend, [s]).Some?
       <==> && exclude != Some(s.id) && s.profile.Some? && s.profile.value.backend == backend
            && match s.kind
               case VoiceUi => s.active && s.profile.value.device != 31 && s.profile.value.device != 32 && s.profile.value.device != 34
               case Acd => s.active
               case Asr => s.active
               case SensorPcm => true
               case OtherKind => false
  {
    NoneIffNoCandidate(exclude, backend, [s]);
    assert s in [s];
  }

  predicate Top(exclude: Option<StreamId>, backend: Backend, streams: seq<Stream>, p: Profile) {
    forall s <- streams :: Candidate(exclude, backend, s) ==> Dominates(p, s.profile.value)
  }

  /** A candidate that no other can displace for good: it wins against every candidate of another
      format. */
  predicate Unbeaten(exclude: Option<StreamId>, backend: Backend, streams: seq<Stream>, p: Profile) {
    forall s <- streams :: Candidate(exclude, backend, s) ==> SameFormat(p, s.profile.value) || Wins(p, s.profile)
  }

  predicate Offers(exclude: Option<StreamId>, backend: Backend, streams: seq<Stream>, p: Profile) {
    exists s <- streams :: Candidate(exclude, backend, s) && s.profile == Some(p)
  }

  lemma TopIsUnbeaten(exclude: Option<StreamId>, backend: Backend, streams: seq<Stream>, p: Profile)
    requires p.backend == backend && Top(exclude, backend, streams, p)
    ensures Unbeaten(exclude, backend, streams, p)
  {
  }

  /** Once an unbeaten profile has been met, the search does not let its format go again. */
  lemma {:induction false} SearchKeepsUnbeaten(exclude: Option<StreamId>, backend: Backend, streams: seq<Stream>, p: Profile)
    requires p.backend == backend && Unbeaten(exclude, backend, streams, p) && Offers(exclude, backend, streams, p)
    ensures
      var best := Search(exclude, backend, None, streams);
      best.Some? && SameFormat(best.value, p)
  {
    var init, last := streams[..|streams| - 1], streams[|streams| - 1];
    assert streams == init + [last];
    SearchFinds(exclude, backend, init);
    assert last in streams;
    assert forall s <- init :: s in streams;
    if Offers(exclude, backend, init, p) {
      SearchKeepsUnbeaten(exclude, backend, init, p);
    }
  }

  /** The search returns a profile that dominates every candidate if and only if some
      candidate's profile does. */
  lemma BestIsTopIff(exclude: Option<StreamId>, backend: Backend, streams: seq<Stream>)
    ensures
      var best := Best(exclude, backend, streams);
      best.Some? && Top(exclude, backend, streams, best.value)
      <==> exists s <- streams :: Candidate(exclude, backend, s) && Top(exclude, backend, streams, s.profile.value)
  {
    NoneIffNoCandidate(exclude, backend, streams);
    if s :| s in streams && Candidate(exclude, backend, s) && Top(exclude, backend, streams, s.profile.value) {
      SearchOrderIsComplete(streams, s);
      forall t <- SearchOrder(streams) ensures t in streams { SearchOrderIsComplete(streams, t); }
      TopIsUnbeaten(exclude, backend, SearchOrder(streams), s.profile.value);
      SearchKeepsUnbeaten(exclude, backend, SearchOrder(streams), s.profile.value);
    }
  }

  predicate SameResult(a: Option<Profile>, b: Option<Profile>) {
    a.Some? == b.Some? && (a.Some? ==> SameFormat(a.value, b.value))
  }

  /** With an unbeaten candidate, the order of the streams does not matter. */
  lemma OrderDoesNotMatter(exclude: Option<StreamId>, backend: Backend, one: seq<Stream>, two: seq<Stream>)
    requires forall s :: s in one <==> s in two
    requires exists s <- one :: Candidate(exclude, backend, s) && Unbeaten(exclude, backend, one, s.profile.value)
    ensures
      var a, b := Best(exclude, backend, one), Best(exclude, backend, two);
      a.Some? && b.Some? && SameFormat(a.value, b.value)
  {
    var s :| s in one && Candidate(exclude, backend, s) && Unbeaten(exclude, backend, one, s.profile.value);
    forall t ensures t in SearchOrder(one) <==> t in SearchOrder(two) {
      SearchOrderIsComplete(one, t);
      SearchOrderIsComplete(two, t);
    }
    SearchOrderIsComplete(one, s);
    forall t <- SearchOrder(one) ensures t in one { SearchOrderIsComplete(one, t); }
    SearchKeepsUnbeaten(exclude, backend, SearchOrder(one), s.profile.value);
    SearchKeepsUnbeaten(exclude, backend, SearchOrder(two), s.profile.value);
  }

  predicate HasFormat(exclude: Option<StreamId>, backend: Backend, p: Profile, s: Stream) {
    Candidate(exclude, backend, s) && SameFormat(s.profile.value, p)
  }

  function Pick(streams: seq<Stream>, f: Stream -> bool): seq<Stream> {
    if streams == [] then []
    else
      var last := streams[|streams| - 1];
      Pick(streams[..|streams| - 1], f) + if f(last) then [last] else []
  }

  lemma {:induction false} PickSplits(streams: seq<Stream>, f: Stream -> bool, g: Stream -> bool)
    requires forall s <- streams :: g(s) == !f(s)
    ensures multiset(Pick(streams, f) + Pick(streams, g)) == multiset(streams)
    ensures forall s <- Pick(streams, f) :: f(s) && s in streams
    ensures forall s <- Pick(streams, g) :: g(s) && s in streams
  {
    if streams != [] {
      var init, last := streams[..|streams| - 1], streams[|streams| - 1];
      assert streams == init + [last];
      PickSplits(init, f, g);
    }
  }

  /** Candidates that do not win against the best so far leave it in place. */
  lemma {:induction false} SearchStays(exclude: Option<StreamId>, backend: Backend, best: Option<Profile>, streams: seq<Stream>)
    requires forall s <- streams :: Candidate(exclude, backend, s) ==> !Wins(s.profile.value, best)
    ensures Search(exclude, backend, best, streams) == best
  {
    if streams != [] {
      assert streams[|streams| - 1] in streams;
      SearchStays(exclude, backend, best, streams[..|streams| - 1]);
    }
  }

  /** A format that none of the candidates has does not come up again. */
  lemma {:induction false} SearchAvoids(exclude: Option<StreamId>, backend: Backend, best: Option<Profile>, streams: seq<Stream>, p: Profile)
    requires best.Some? && !SameFormat(best.value, p)
    requires forall s <- streams :: !HasFormat(exclude, backend, p, s)
    ensures
      var after := Search(exclude, backend, best, streams);
      after.Some? && !SameFormat(after.value, p)
  {
    if streams != [] {
      assert streams[|streams| - 1] in streams;
      SearchAvoids(exclude, backend, best, streams[..|streams| - 1], p);
    }
  }

  /** A format that does not win against some candidate of another format can be made to lose: put
      that candidate first, then everything of the format, then the rest. */
  lemma SomeOrderAvoids(exclude: Option<StreamId>, backend: Backend, streams: seq<Stream>, p: Profile, i: nat)
    returns (other: seq<Stream>)
    requires p.backend == backend && i < |streams| && Candidate(exclude, backend, streams[i])
    requires !SameFormat(p, streams[i].profile.value) && !Wins(p, streams[i].profile)
    ensures multiset(other) == multiset(streams)
    ensures
      var best := Search(exclude, backend, None, other);
      best.Some? && !SameFormat(best.value, p)
  {
    var x, rest := streams[i], streams[..i] + streams[i + 1..];
    var f := s => HasFormat(exclude, backend, p, s);
    var g := s => !HasFormat(exclude, backend, p, s);
    PickSplits(rest, f, g);
    var same, different := Pick(rest, f), Pick(rest, g);
    other := [x] + same + different;
    PutFirst(streams, i, other, same + different);
    FirstThenSame(exclude, backend, x, same, different, p);
  }

  lemma PutFirst(streams: seq<Stream>, i: nat, other: seq<Stream>, rest: seq<Stream>)
    requires i < |streams| && multiset(rest) == multiset(streams[..i] + streams[i + 1..])
    requires other == [streams[i]] + rest
    ensures multiset(other) == multiset(streams)
  {
    assert streams == streams[..i] + [streams[i]] + streams[i + 1..];
  }

  lemma FirstThenSame(exclude: Option<StreamId>, backend: Backend, x: Stream, same: seq<Stream>, different: seq<Stream>, p: Profile)
    requires p.backend == backend && Candidate(exclude, backend, x)
    requires !SameFormat(p, x.profile.value) && !Wins(p, x.profile)
    requires forall s <- same :: HasFormat(exclude, backend, p, s)
    requires forall s <- different :: !HasFormat(exclude, backend, p, s)
    ensures
      var best := Search(exclude, backend, None, [x] + same + different);
      best.Some? && !SameFormat(best.value, p)
  {
    SearchAppend(exclude, backend, None, [x] + same, different);
    SearchAppend(exclude, backend, None, [x], same);
    assert Search(exclude, backend, None, [x]) == x.profile by { assert [x][..0] == []; }
    SearchStays(exclude, backend, x.profile, same);
    SearchAvoids(exclude, backend, x.profile, different, p);
  }

  /** There is no candidate, or some candidate is unbeaten. */
  predicate Settled(exclude: Option<StreamId>, backend: Backend, streams: seq<Stream>) {
    || (forall s <- streams :: !Candidate(exclude, backend, s))
    || (exists s <- streams :: Candidate(exclude, backend, s) && Unbeaten(exclude, backend, streams, s.profile.value))
  }

  lemma {:induction false} SettledIgnoresOrder(exclude: Option<StreamId>, backend: Backend, one: seq<Stream>, two: seq<Stream>)
    requires Settled(exclude, backend, one) && multiset(two) == multiset(one)
    ensures SameResult(Search(exclude, backend, None, one), Search(exclude, backend, None, two))
  {
    SearchFinds(exclude, backend, one);
    SearchFinds(exclude, backend, two);
    SameMembers(one, two);
    if s :| s in one && Candidate(exclude, backend, s) && Unbeaten(exclude, backend, one, s.profile.value) {
      SearchKeepsUnbeaten(exclude, backend, one, s.profile.value);
      SearchKeepsUnbeaten(exclude, backend, two, s.profile.value);
    }
  }

  lemma UnsettledDependsOnOrder(exclude: Option<StreamId>, backend: Backend, one: seq<Stream>) returns (two: seq<Stream>)
    requires !Settled(exclude, backend, one)
    ensures multiset(two) == multiset(one)
    ensures !SameResult(Search(exclude, backend, None, one), Search(exclude, backend, None, two))
  {
    SearchFinds(exclude, backend, one);
    var best := Search(exclude, backend, None, one);
    var w :| w in one && Candidate(exclude, backend, w) && w.profile == best;
    assert !Unbeaten(exclude, backend, one, best.value);
    var i :| 0 <= i < |one| && Candidate(exclude, backend, one[i])
             && !SameFormat(best.value, one[i].profile.value) && !Wins(best.value, one[i].profile);
    two := SomeOrderAvoids(exclude, backend, one, best.value, i);
  }

  ghost predicate SearchIgnoresOrder(exclude: Option<StreamId>, backend: Backend, one: seq<Stream>) {
    forall two :: multiset(two) == multiset(one) ==>
                    SameResult(Search(exclude, backend, None, one), Search(exclude, backend, None, two))
  }

  ghost predicate BestIgnoresOrder(exclude: Option<StreamId>, backend: Backend, one: seq<Stream>) {
    forall two :: multiset(two) == multiset(one) ==> SameResult(Best(exclude, backend, one), Best(exclude, backend, two))
  }

  /** All orders of a list give the same format if and only if there is no candidate, or some
      candidate wins against every candidate of another format. */
  lemma {:induction false} OrderIrrelevantIff(exclude: Option<StreamId>, backend: Backend, one: seq<Stream>)
    ensures SearchIgnoresOrder(exclude, backend, one) <==> Settled(exclude, backend, one)
  {
    if Settled(exclude, backend, one) {
      forall two | multiset(two) == multiset(one)
        ensures SameResult(Search(exclude, backend, None, one), Search(exclude, backend, None, two))
      {
        SettledIgnoresOrder(exclude, backend, one, two);
      }
    } else {
      var two := UnsettledDependsOnOrder(exclude, backend, one);
    }
  }

  /** The same list in another order is searched in its own order too. */
  lemma OneKindSearch(exclude: Option<StreamId>, backend: Backend, one: seq<Stream>, two: seq<Stream>, kind: Kind)
    requires kind != OtherKind && (forall s <- one :: s.kind == kind) && multiset(two) == multiset(one)
    ensures Best(exclude, backend, two) == Search(exclude, backend, None, two)
  {
    SameMembers(one, two);
    forall i | 0 <= i < |two| ensures two[i].kind == kind { assert two[i] in one; }
    OneKindIsSearchOrder(two, kind);
  }

  lemma SameMembers(one: seq<Stream>, two: seq<Stream>)
    requires multiset(one) == multiset(two)
    ensures forall s :: s in one <==> s in two
  {
    assert forall s :: s in one <==> s in multiset(one);
    assert forall s :: s in two <==> s in multiset(two);
  }

  lemma {:induction false} AllOfOneKind(streams: seq<Stream>, has: Kind, kind: Kind)
    requires forall i :: 0 <= i < |streams| ==> streams[i].kind == has
    ensures OfKind(streams, kind) == if kind == has then streams else []
  {
    if streams != [] {
      AllOfOneKind(streams[..|streams| - 1], has, kind);
      assert streams == streams[..|streams| - 1] + [streams[|streams| - 1]];
    }
  }

  lemma OneKindIsSearchOrder(streams: seq<Stream>, has: Kind)
    requires has != OtherKind && forall i :: 0 <= i < |streams| ==> streams[i].kind == has
    ensures SearchOrder(streams) == streams
  {
    AllOfOneKind(streams, has, VoiceUi);
    AllOfOneKind(streams, has, Acd);
    AllOfOneKind(streams, has, SensorPcm);
    AllOfOneKind(streams, has, Asr);
    assert streams + [] == streams && [] + streams == streams;
  }

  /** For detection streams of one type the same holds of the whole search: nothing but the order
      in which they are listed decides. */
  lemma {:induction false} OneKindOrderIrrelevantIff(exclude: Option<StreamId>, backend: Backend, one: seq<Stream>, kind: Kind)
    requires kind != OtherKind && forall s <- one :: s.kind == kind
    ensures BestIgnoresOrder(exclude, backend, one) <==> Settled(exclude, backend, one)
  {
    OrderIrrelevantIff(exclude, backend, one);
    OneKindSearch(exclude, backend, one, one, kind);
    if Settled(exclude, backend, one) {
      forall two: seq<Stream> | multiset(two) == multiset(one)
        ensures SameResult(Best(exclude, backend, one), Best(exclude, backend, two))
      {
        OneKindSearch(exclude, backend, one, two, kind);
      }
    } else {
      var two :| multiset(two) == multiset(one)
                 && !SameResult(Search(exclude, backend, None, one), Search(exclude, backend, None, two));
      OneKindSearch(exclude, backend, one, two, kind);
    }
  }

  /** Without one it does: two orders of three streams end with two formats. */
  lemma OrderMattersInACycle()
    ensures exists one, two ::
              && multiset(one) == multiset(two)
              && Best(None, VA_MACRO, one).Some? && Best(None, VA_MACRO, two).Some?
              && !SameFormat(Best(None, VA_MACRO, one).value, Best(None, VA_MACRO, two).value)
  {
    var a := Stream(0, Acd, true, Some(Profile(VA_MACRO, 1, 2, 3, 0)));
    var b := Stream(1, Acd, true, Some(Profile(VA_MACRO, 3, 1, 2, 0)));
    var c := Stream(2, Acd, true, Some(Profile(VA_MACRO, 2, 3, 1, 0)));
    LastOfThree(a, b, c);
    LastOfThree(b, c, a);
    var one, two := [a] + [b] + [c], [b] + [c] + [a];
    assert multiset(one) == multiset(two);
    assert !SameFormat(c.profile.value, a.profile.value);
  }

  /** Of three streams, the last one wins against the first and the second one does not. */
  lemma LastOfThree(a: Stream, b: Stream, c: Stream)
    requires a.kind == b.kind == c.kind == Acd
    requires Candidate(None, VA_MACRO, a) && Candidate(None, VA_MACRO, c)
    requires b.profile.Some? && !Wins(b.profile.value, a.profile) && Wins(c.profile.value, a.profile)
    ensures Best(None, VA_MACRO, [a] + [b] + [c]) == c.profile
  {
    ThreeAcdStreams(a, b, c);
  }

  lemma SearchOne(backend: Backend, best: Option<Profile>, s: Stream)
    ensures Search(None, backend, best, [s]) == Consider(None, backend, best, s)
  {
    assert [s][..0] == [];
  }

  lemma ThreeAcdStreams(a: Stream, b: Stream, c: Stream)
    requires a.kind == b.kind == c.kind == Acd
    ensures Best(None, VA_MACRO, [a] + [b] + [c])
         == Consider(None, VA_MACRO, Consider(None, VA_MACRO, Consider(None, VA_MACRO, None, a), b), c)
  {
    var all := [a] + [b] + [c];
    OneKindIsSearchOrder(all, Acd);
    SearchAppend(None, VA_MACRO, None, [a] + [b], [c]);
    SearchAppend(None, VA_MACRO, None, [a], [b]);
    SearchOne(VA_MACRO, None, a);
    SearchOne(VA_MACRO, Consider(None, VA_MACRO, None, a), b);
    SearchOne(VA_MACRO, Consider(None, VA_MACRO, Consider(None, VA_MACRO, None, a), b), c);
  }

  // ---------------------------------------------------------------- the cache

  /** One common profile for the TX macro and one for everything else. */
  datatype Common = Common(soundTrigger: Option<Profile>, txMacro: Option<Profile>) {
    function Slot(b: Backend): Option<Profile> {
      if b != TX_MACRO then soundTrigger else txMacro
    }

    function Put(b: Backend, p: Option<Profile>): Common {
      if b != TX_MACRO then this.(soundTrigger := p) else this.(txMacro := p)
    }
  }

  const EMPTY := Common(None, None)

  function Activated(c: Common, p: Profile): Common {
    if c.Slot(p.backend).None? || Wins(p, c.Slot(p.backend)) then c.Put(p.backend, Some(p)) else c
  }

  /** A slot after the best profile of the remaining streams is known. */
  function Settle(slot: Option<Profile>, best: Option<Profile>): Option<Profile> {
    if best.None? then None else if Wins(best.value, slot) then best else slot
  }

  function Deactivated(c: Common, id: StreamId, streams: seq<Stream>): Common {
    Common(Settle(c.soundTrigger, Best(Some(id), VA_MACRO, streams)),
           Settle(c.txMacro, Best(Some(id), TX_MACRO, streams)))
  }

  function Recomputed(streams: seq<Stream>): Common {
    Common(Best(None, VA_MACRO, streams), Best(None, TX_MACRO, streams))
  }

  lemma OfKindStep(exclude: Option<StreamId>, start: Option<Profile>, kind: Kind, backend: Backend, streams: seq<Stream>, i: nat)
    requires i < |streams|
    ensures
      var best := Search(exclude, backend, start, OfKind(streams[..i], kind));
      Search(exclude, backend, start, OfKind(streams[..i + 1], kind))
      == if streams[i].kind == kind then Consider(exclude, backend, best, streams[i]) else best
  {
    assert streams[..i + 1][..i] == streams[..i];
    var before := OfKind(streams[..i], kind);
    assert (before + [streams[i]])[..|before|] == before;
    assert before + [] == before;
  }

  class Cache {
    var soundTrigger: Option<Profile>
    var txMacro: Option<Profile>

    constructor ()
      ensures Value() == EMPTY
    {
      soundTrigger, txMacro := None, None;
    }

    function Value(): Common
      reads this
    {
      Common(soundTrigger, txMacro)
    }

    /** One of the four passes, which differ only in what they pass over. */
    method GetProfileByPriority(kind: Kind, exclude: Option<StreamId>, start: Option<Profile>,
                                backend: Backend, streams: seq<Stream>)
      returns (best: Option<Profile>)
      requires kind != OtherKind
      ensures best == Search(exclude, backend, start, OfKind(streams, kind))
    {
      best := start;
      for i := 0 to |streams|
        invariant best == Search(exclude, backend, start, OfKind(streams[..i], kind))
      {
        var s := streams[i];
        OfKindStep(exclude, start, kind, backend, streams, i);
        if s.kind != kind { continue; }
        if exclude == Some(s.id) { continue; }
        if kind != SensorPcm && !s.active { continue; }
        if s.profile.None? { continue; }
        var p := s.profile.value;
        if kind == VoiceUi && (p.device == IN_HANDSET_MIC || p.device == IN_SPEAKER_MIC || p.device == IN_WIRED_HEADSET) {
          continue;
        }
        if p.backend != backend { continue; }
        if ComparePriority(p, best) >= PRIORITY_HIGH { best := Some(p); }
      }
      assert streams[..|streams|] == streams;
    }

    method GetCaptureProfileByPriority(exclude: Option<StreamId>, backend: Backend, streams: seq<Stream>)
      returns (best: Option<Profile>)
      ensures best == Best(exclude, backend, streams)
    {
      best := GetProfileByPriority(VoiceUi, exclude, None, backend, streams);
      best := GetProfileByPriority(Acd, exclude, best, backend, streams);
      best := GetProfileByPriority(SensorPcm, exclude, best, backend, streams);
      best := GetProfileByPriority(Asr, exclude, best, backend, streams);
      FourPasses(exclude, backend, streams);
    }

    /** What a stream that starts or stops does to the common profiles; the result says whether
        a backend has to be set up again. */
    method UpdateSoundTriggerCaptureProfile(s: Stream, isActive: bool, streams: seq<Stream>) returns (update: bool)
      modifies this
      ensures s.kind == OtherKind || (isActive && s.profile.None?) ==> Value() == old(Value()) && !update
      ensures s.kind != OtherKind && isActive && s.profile.Some? ==>
                var slot := old(Value()).Slot(s.profile.value.backend);
                Value() == Activated(old(Value()), s.profile.value) && (update <==> slot.Some? && Wins(s.profile.value, slot))
      ensures s.kind != OtherKind && !isActive ==>
                && Value() == Deactivated(old(Value()), s.id, streams)
                && (update <==> exists b :: b in [VA_MACRO, TX_MACRO] && Best(Some(s.id), b, streams).Some?
                                          && Wins(Best(Some(s.id), b, streams).value, old(Value()).Slot(b)))
    {
      update := false;
      if s.kind == OtherKind { return; }
      if isActive {
        if s.profile.None? { return; }
        var p := s.profile.value;
        var common := if p.backend != TX_MACRO then soundTrigger else txMacro;
        if common.None? {
          common := Some(p);
        } else if ComparePriority(p, common) >= PRIORITY_HIGH {
          common := Some(p);
          update := true;
        }
        if p.backend != TX_MACRO { soundTrigger := common; } else { txMacro := common; }
      } else {
        var st := GetCaptureProfileByPriority(Some(s.id), VA_MACRO, streams);
        var tx := GetCaptureProfileByPriority(Some(s.id), TX_MACRO, streams);
        assert VA_MACRO in [VA_MACRO, TX_MACRO] && TX_MACRO in [VA_MACRO, TX_MACRO];
        assert VA_MACRO[0] != TX_MACRO[0];
        if st.None? {
          soundTrigger := None;
        } else if ComparePriority(st.value, soundTrigger) >= PRIORITY_HIGH {
          soundTrigger := st;
          update := true;
        }
        if tx.None? {
          txMacro := None;
        } else if ComparePriority(tx.value, txMacro) >= PRIORITY_HIGH {
          txMacro := tx;
          update := true;
        }
      }
    }

    /** The full recompute. */
    method UpdateCaptureProfiles(streams: seq<Stream>)
      modifies this
      ensures Value() == Recomputed(streams)
    {
      var st := GetCaptureProfileByPriority(None, VA_MACRO, streams);
      var tx := GetCaptureProfileByPriority(None, TX_MACRO, streams);
      soundTrigger := st;
      txMacro := tx;
    }

    /** The recompute of a low-power switch, which forgets the cache before it searches. */
    method RecomputeForSwitch(streams: seq<Stream>)
      modifies this
      ensures Value() == Recomputed(streams)
    {
      soundTrigger := None;
      var st := GetCaptureProfileByPriority(None, VA_MACRO, streams);
      txMacro := None;
      var tx := GetCaptureProfileByPriority(None, TX_MACRO, streams);
      if st.None? {
        soundTrigger := None;
      } else if ComparePriority(st.value, soundTrigger) >= PRIORITY_HIGH {
        soundTrigger := st;
      }
      if tx.None? {
        txMacro := None;
      } else if ComparePriority(tx.value, txMacro) >= PRIORITY_HIGH {
        txMacro := tx;
      }
    }
  }

  lemma FourPasses(exclude: Option<StreamId>, backend: Backend, streams: seq<Stream>)
    ensures
      var a := Search(exclude, backend, None, OfKind(streams, VoiceUi));
      var b := Search(exclude, backend, a, OfKind(streams, Acd));
      var c := Search(exclude, backend, b, OfKind(streams, SensorPcm));
      Best(exclude, backend, streams) == Search(exclude, backend, c, OfKind(streams, Asr))
  {
    var a, b, c, d := OfKind(streams, VoiceUi), OfKind(streams, Acd), OfKind(streams, SensorPcm), OfKind(streams, Asr);
    SearchAppend(exclude, backend, None, a, b);
    SearchAppend(exclude, backend, None, a + b, c);
    SearchAppend(exclude, backend, None, a + b + c, d);
  }

  // ---------------------------------------------------------------- whole runs

  /** The streams known to the resource manager beside the cache. */
  datatype System = System(streams: seq<Stream>, common: Common)

  datatype Op =
    | Register(stream: Stream)
    | Activate(at: nat)  // by the place in the list of streams
    | Deactivate(at: nat)
    | Switch(profiles: seq<Option<Profile>>)  // every stream gets its profile for the new power mode
    | Refresh

  function WithProfiles(streams: seq<Stream>, profiles: seq<Option<Profile>>): (r: seq<Stream>)
    requires |profiles| == |streams|
    ensures |r| == |streams|
    ensures forall i :: 0 <= i < |r| ==> r[i] == streams[i].(profile := profiles[i])
  {
    seq(|streams|, i requires 0 <= i < |streams| => streams[i].(profile := profiles[i]))
  }

  predicate Distinct(streams: seq<Stream>) {
    forall i, j :: 0 <= i < j < |streams| ==> streams[i].id != streams[j].id
  }

  /** One event. Streams that detect nothing, or cannot tell their profile, are turned away. */
  function Step(sys: System, op: Op): System {
    match op
    case Register(s) =>
      if s.active || exists t <- sys.streams :: t.id == s.id then sys
      else sys.(streams := sys.streams + [s])
    case Activate(i) =>
      if i >= |sys.streams| || sys.streams[i].kind == OtherKind || sys.streams[i].profile.None? then sys
      else
        var s := sys.streams[i];
        System(sys.streams[i := s.(active := true)], Activated(sys.common, s.profile.value))
    case Deactivate(i) =>
      if i >= |sys.streams| || sys.streams[i].kind == OtherKind then sys
      else
        var s := sys.streams[i];
        System(sys.streams[i := s.(active := false)], Deactivated(sys.common, s.id, sys.streams))
    case Switch(profiles) =>
      if |profiles| != |sys.streams| then sys
      else
        var streams := WithProfiles(sys.streams, profiles);
        System(streams, Recomputed(streams))
    case Refresh =>
      sys.(common := Recomputed(sys.streams))
  }

  function Run(sys: System, ops: seq<Op>): System {
    if ops == [] then sys else Step(Run(sys, ops[..|ops| - 1]), ops[|ops| - 1])
  }

  /** The condition on the platform: on each backend any two profiles are comparable. */
  ghost predicate Comparable(platform: set<Profile>) {
    forall p, q :: p in platform && q in platform && p.backend == q.backend ==> Dominates(p, q) || Dominates(q, p)
  }

  ghost predicate Uses(platform: set<Profile>, p: Option<Profile>) {
    p.Some? ==> p.value in platform
  }

  ghost predicate OpUses(platform: set<Profile>, op: Op) {
    match op
    case Register(s) => Uses(platform, s.profile)
    case Switch(profiles) => forall p <- profiles :: Uses(platform, p)
    case _ => true
  }

  ghost predicate Covers(slot: Option<Profile>, backend: Backend, platform: set<Profile>, streams: seq<Stream>) {
    && (slot.Some? ==> slot.value in platform && slot.value.backend == backend)
    && forall s <- streams :: s.active && Candidate(None, backend, s) ==> slot.Some? && Dominates(slot.value, s.profile.value)
  }

  ghost predicate Sound(platform: set<Profile>, sys: System) {
    && Distinct(sys.streams)
    && (forall s <- sys.streams :: Uses(platform, s.profile))
    && Covers(sys.common.soundTrigger, VA_MACRO, platform, sys.streams)
    && Covers(sys.common.txMacro, TX_MACRO, platform, sys.streams)
  }

  /** On comparable profiles the full recompute is the maximum: none exactly without a
      candidate, and else the profile of a candidate that dominates every candidate. */
  lemma {:induction false} SearchIsMaximum(platform: set<Profile>, exclude: Option<StreamId>, backend: Backend, streams: seq<Stream>)
    requires Comparable(platform) && forall s <- streams :: Uses(platform, s.profile)
    ensures
      var best := Search(exclude, backend, None, streams);
      best.Some? ==> best.value.backend == backend && best.value in platform && Top(exclude, backend, streams, best.value)
  {
    if streams != [] {
      var init, last := streams[..|streams| - 1], streams[|streams| - 1];
      assert streams == init + [last];
      SearchIsMaximum(platform, exclude, backend, init);
      SearchFinds(exclude, backend, init);
    }
  }

  lemma BestIsMaximum(platform: set<Profile>, exclude: Option<StreamId>, backend: Backend, streams: seq<Stream>)
    requires Comparable(platform) && forall s <- streams :: Uses(platform, s.profile)
    ensures
      var best := Best(exclude, backend, streams);
      && (best.None? <==> forall s <- streams :: !Candidate(exclude, backend, s))
      && (best.Some? ==>
            && best.value in platform && best.value.backend == backend
            && Top(exclude, backend, streams, best.value)
            && exists s <- streams :: Candidate(exclude, backend, s) && s.profile == best)
  {
    NoneIffNoCandidate(exclude, backend, streams);
    forall s ensures s in SearchOrder(streams) <==> s in streams && s.kind != OtherKind {
      SearchOrderIsComplete(streams, s);
    }
    SearchIsMaximum(platform, exclude, backend, SearchOrder(streams));
  }

  lemma RecomputedCovers(platform: set<Profile>, backend: Backend, streams: seq<Stream>)
    requires Comparable(platform) && forall s <- streams :: Uses(platform, s.profile)
    ensures Covers(Best(None, backend, streams), backend, platform, streams)
  {
    BestIsMaximum(platform, None, backend, streams);
  }

  lemma ActivateCovers(platform: set<Profile>, slot: Option<Profile>, backend: Backend, streams: seq<Stream>, i: nat)
    requires Comparable(platform) && Covers(slot, backend, platform, streams)
    requires i < |streams| && streams[i].profile.Some? && Uses(platform, streams[i].profile)
    ensures
      var p := streams[i].profile.value;
      var slot' := if p.backend == backend && (slot.None? || Wins(p, slot)) then Some(p) else slot;
      Covers(slot', backend, platform, streams[i := streams[i].(active := true)])
  {
  }

  /** An activation leaves a bound on both the newcomer and what was there before if and only if
      the two are comparable. */
  lemma ActivatedBoundsBothIff(c: Common, p: Profile)
    requires c.Slot(p.backend).Some? && c.Slot(p.backend).value.backend == p.backend
    ensures
      var before, after := c.Slot(p.backend).value, Activated(c, p).Slot(p.backend);
      after.Some? && Dominates(after.value, p) && Dominates(after.value, before)
      <==> Dominates(p, before) || Dominates(before, p)
  {
  }

  /** An activation on the TX macro leaves the sound trigger profile alone, and any other one leaves
      that of the TX macro alone. */
  lemma ActivatedElsewhere(c: Common, p: Profile)
    ensures p.backend == "tx_macro" ==> Activated(c, p).soundTrigger == c.soundTrigger
    ensures p.backend != "tx_macro" ==> Activated(c, p).txMacro == c.txMacro
    ensures Activated(c, p) != c ==> if p.backend == "tx_macro" then Activated(c, p).txMacro == Some(p) else Activated(c, p).soundTrigger == Some(p)
  {
  }

  lemma DeactivateCovers(platform: set<Profile>, slot: Option<Profile>, backend: Backend, streams: seq<Stream>, i: nat)
    requires Comparable(platform) && Covers(slot, backend, platform, streams)
    requires i < |streams| && Distinct(streams) && forall s <- streams :: Uses(platform, s.profile)
    ensures
      Covers(Settle(slot, Best(Some(streams[i].id), backend, streams)), backend, platform,
             streams[i := streams[i].(active := false)])
  {
    var id := streams[i].id;
    BestIsMaximum(platform, Some(id), backend, streams);
    var after := streams[i := streams[i].(active := false)];
    forall s <- after ensures s.active ==> s in streams && s.id != id {
    }
  }

  /** A stream on a third backend starts while the sound trigger profile is empty, and fills it. */
  predicate TakesForeign(sys: System, op: Op) {
    && op.Activate? && op.at < |sys.streams|
    && sys.streams[op.at].kind != OtherKind && sys.streams[op.at].profile.Some?
    && sys.streams[op.at].profile.value.backend !in {VA_MACRO, TX_MACRO}
    && sys.common.soundTrigger.None?
  }

  lemma ActivateSoundIff(platform: set<Profile>, sys: System, i: nat)
    requires Comparable(platform) && Sound(platform, sys)
    ensures Sound(platform, Step(sys, Activate(i))) <==> !TakesForeign(sys, Activate(i))
  {
    assert VA_MACRO[0] != TX_MACRO[0];
    if i < |sys.streams| && sys.streams[i].kind != OtherKind && sys.streams[i].profile.Some? {
      ActivateCovers(platform, sys.common.soundTrigger, VA_MACRO, sys.streams, i);
      ActivateCovers(platform, sys.common.txMacro, TX_MACRO, sys.streams, i);
    }
  }

  /** On a platform with comparable profiles, an event keeps each common profile on its backend and
      above every active candidate if and only if no stream on a third backend fills an empty one. */
  lemma StepSoundIff(platform: set<Profile>, sys: System, op: Op)
    requires Comparable(platform) && Sound(platform, sys) && OpUses(platform, op)
    ensures Sound(platform, Step(sys, op)) <==> !TakesForeign(sys, op)
  {
    match op
    case Register(s) =>
    case Activate(i) => ActivateSoundIff(platform, sys, i);
    case Deactivate(i) =>
      if i < |sys.streams| && sys.streams[i].kind != OtherKind {
        DeactivateCovers(platform, sys.common.soundTrigger, VA_MACRO, sys.streams, i);
        DeactivateCovers(platform, sys.common.txMacro, TX_MACRO, sys.streams, i);
      }
    case Switch(profiles) =>
      if |profiles| == |sys.streams| {
        var streams := WithProfiles(sys.streams, profiles);
        RecomputedCovers(platform, VA_MACRO, streams);
        RecomputedCovers(platform, TX_MACRO, streams);
      }
    case Refresh =>
      RecomputedCovers(platform, VA_MACRO, sys.streams);
      RecomputedCovers(platform, TX_MACRO, sys.streams);
  }

  predicate NeverTakesForeign(ops: seq<Op>) {
    ops != [] ==>
      NeverTakesForeign(ops[..|ops| - 1]) && !TakesForeign(Run(System([], EMPTY), ops[..|ops| - 1]), ops[|ops| - 1])
  }

  /** After any such sequence of events on a platform with comparable profiles, the common profile of
      each backend dominates the profile of every active candidate on it. */
  lemma {:induction false} CacheCoversEveryRun(platform: set<Profile>, ops: seq<Op>)
    requires Comparable(platform) && (forall op <- ops :: OpUses(platform, op)) && NeverTakesForeign(ops)
    ensures Sound(platform, Run(System([], EMPTY), ops))
  {
    if ops != [] {
      var init, last := ops[..|ops| - 1], ops[|ops| - 1];
      assert ops == init + [last];
      CacheCoversEveryRun(platform, init);
      StepSoundIff(platform, Run(System([], EMPTY), init), last);
    }
  }

  predicate Foreign(slot: Option<Profile>) {
    slot.Some? && slot.value.backend != VA_MACRO
  }

  /** An event that ends the stay of a third backend: a recompute, or a stop that leaves no
      candidate on the VA macro. */
  predicate ClearsForeign(sys: System, op: Op) {
    match op
    case Deactivate(i) =>
      i < |sys.streams| && sys.streams[i].kind != OtherKind
      && forall s <- sys.streams :: !Candidate(Some(sys.streams[i].id), VA_MACRO, s)
    case Switch(profiles) => |profiles| == |sys.streams|
    case Refresh => true
    case _ => false
  }

  /** Once a third backend has filled the sound trigger profile, no vote replaces it: it stays, whatever
      the VA macro streams need, exactly until such an event. */
  lemma ForeignStaysIff(sys: System, op: Op)
    requires Foreign(sys.common.soundTrigger)
    ensures Foreign(Step(sys, op).common.soundTrigger) <==> !ClearsForeign(sys, op)
  {
    match op
    case Register(_) =>
    case Activate(_) =>
    case Deactivate(i) =>
      if i < |sys.streams| { NoneIffNoCandidate(Some(sys.streams[i].id), VA_MACRO, sys.streams); }
    case Switch(profiles) =>
      if |profiles| == |sys.streams| { NoneIffNoCandidate(None, VA_MACRO, WithProfiles(sys.streams, profiles)); }
    case Refresh =>
      NoneIffNoCandidate(None, VA_MACRO, sys.streams);
  }

  /** A deactivation empties a common profile exactly when it leaves no candidate there: for any
      profiles at all. */
  lemma DeactivateEmptiesIff(c: Common, id: StreamId, streams: seq<Stream>)
    ensures Deactivated(c, id, streams).soundTrigger.None? <==> forall s <- streams :: !Candidate(Some(id), "va_macro", s)
    ensures Deactivated(c, id, streams).txMacro.None? <==> forall s <- streams :: !Candidate(Some(id), "tx_macro", s)
  {
    NoneIffNoCandidate(Some(id), VA_MACRO, streams);
    NoneIffNoCandidate(Some(id), TX_MACRO, streams);
  }

  /** On comparable profiles, a stop leaves a slot in the format of the recompute if and only if no
      candidate is left, the slot was empty, or some candidate that is left dominates what was in
      the slot. */
  lemma DeactivateExactIff(platform: set<Profile>, slot: Option<Profile>, id: StreamId, backend: Backend, streams: seq<Stream>)
    requires Comparable(platform) && forall s <- streams :: Uses(platform, s.profile)
    requires slot.Some? ==> slot.value in platform && slot.value.backend == backend
    ensures
      var best := Best(Some(id), backend, streams);
      SameResult(Settle(slot, best), best)
      <==> || (forall s <- streams :: !Candidate(Some(id), backend, s))
           || slot.None?
           || (exists s <- streams :: Candidate(Some(id), backend, s) && Dominates(s.profile.value, slot.value))
  {
    BestIsMaximum(platform, Some(id), backend, streams);
  }

  lemma RunStep(sys: System, ops: seq<Op>, op: Op)
    ensures Run(sys, ops + [op]) == Step(Run(sys, ops), op)
  {
    assert (ops + [op])[..|ops|] == ops;
  }

  const LOW := Stream(0, Acd, false, Some(Profile(VA_MACRO, 1, 16000, 16, 0)))
  const HIGH := Stream(1, Acd, false, Some(Profile(VA_MACRO, 2, 48000, 24, 0)))

  lemma ActivateBoth(ops: seq<Op>)
    requires ops == [Register(LOW)] + [Register(HIGH)] + [Activate(0)] + [Activate(1)]
    ensures Run(System([], EMPTY), ops)
         == System([LOW.(active := true), HIGH.(active := true)], Common(HIGH.profile, None))
  {
    var init := System([], EMPTY);
    var one := [Register(LOW)];
    assert one[..0] == [];
    assert Run(init, one) == System([LOW], EMPTY);
    RunStep(init, one, Register(HIGH));
    assert Run(init, one + [Register(HIGH)]) == System([LOW, HIGH], EMPTY);
    RunStep(init, one + [Register(HIGH)], Activate(0));
    RunStep(init, one + [Register(HIGH)] + [Activate(0)], Activate(1));
    assert VA_MACRO[0] != TX_MACRO[0];
  }

  lemma OneLeft(exclude: Option<StreamId>, a: Stream, b: Stream)
    requires Candidate(exclude, VA_MACRO, a) && !Candidate(exclude, VA_MACRO, b)
    ensures Best(exclude, VA_MACRO, [a, b]) == a.profile
  {
    var streams := [a, b];
    NoneIffNoCandidate(exclude, VA_MACRO, streams);
    assert a in streams;
  }

  /** The cache only bounds: after the stream with the greatest profile is gone it may stay
      above everything that is active, while the recompute finds the exact maximum. */
  lemma CacheMayStayAbove()
    ensures exists ops ::
              var sys := Run(System([], EMPTY), ops);
              && sys.common.soundTrigger == HIGH.profile
              && Recomputed(sys.streams).soundTrigger == LOW.profile
              && forall s <- sys.streams :: s.active ==> s.profile == LOW.profile
  {
    var ops := [Register(LOW)] + [Register(HIGH)] + [Activate(0)] + [Activate(1)];
    ActivateBoth(ops);
    RunStep(System([], EMPTY), ops, Deactivate(1));
    var low := LOW.(active := true);
    OneLeft(Some(1), low, HIGH.(active := true));
    OneLeft(None, low, HIGH);
    var sys := Run(System([], EMPTY), ops + [Deactivate(1)]);
    assert sys.streams == [low, HIGH];
    assert sys.common.soundTrigger == HIGH.profile;
  }

  const FOREIGN := Stream(2, Acd, false, Some(Profile("a", 1, 8000, 16, 0)))

  /** A stream on a third backend that starts first leaves a later one on the VA macro without a
      common profile that covers it. */
  lemma ForeignLeavesUncovered()
    ensures exists ops ::
              var sys := Run(System([], EMPTY), ops);
              && sys.common.soundTrigger == FOREIGN.profile
              && LOW.(active := true) in sys.streams
              && !Dominates(FOREIGN.profile.value, LOW.profile.value)
  {
    var init := System([], EMPTY);
    var one := [Register(FOREIGN)];
    var two := one + [Register(LOW)];
    assert one[..0] == [];
    assert Run(init, one) == System([FOREIGN], EMPTY);
    RunStep(init, one, Register(LOW));
    assert Run(init, two) == System([FOREIGN, LOW], EMPTY);
    RunStep(init, two, Activate(0));
    assert |FOREIGN.profile.value.backend| != |VA_MACRO| && |FOREIGN.profile.value.backend| != |TX_MACRO|;
    var running := FOREIGN.(active := true);
    assert Run(init, two + [Activate(0)]) == System([running, LOW], Common(FOREIGN.profile, None));
    RunStep(init, two + [Activate(0)], Activate(1));
    assert VA_MACRO[0] != TX_MACRO[0];
    var sys := Run(init, two + [Activate(0)] + [Activate(1)]);
    assert sys.streams == [running, LOW.(active := true)];
    assert sys.common.soundTrigger == FOREIGN.profile;
  }
}
