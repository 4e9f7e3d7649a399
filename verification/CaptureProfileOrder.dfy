/** What a search for the best capture profile can end with, over all orders in which streams of
    several types may be listed: pass by pass, and told without any order. */
module CaptureProfileOrder {
  import opened CaptureProfiles

  /** The question that a search asks: who is left out, and on which backend. */
  datatype Query = Query(exclude: Option<StreamId>, backend: Backend)

  predicate Beats(q: Query, s: Stream, best: Option<Profile>) {
    Candidate(q.exclude, q.backend, s) && Wins(s.profile.value, best)
  }

  // ---------------------------------------------------------------- one pass

  function End(start: Option<Profile>, path: seq<Stream>): Option<Profile> {
    if path == [] then start else path[|path| - 1].profile
  }

  /** Each stream of the path beats the one before it, and the first one beats the start. */
  predicate Climbs(q: Query, start: Option<Profile>, path: seq<Stream>) {
    forall i :: 0 <= i < |path| ==> Beats(q, path[i], End(start, path[..i]))
  }

  /** Somewhere along the path, the stream does not beat what is best there. */
  predicate Absorbed(q: Query, start: Option<Profile>, path: seq<Stream>, s: Stream) {
    exists i :: 0 <= i <= |path| && !Beats(q, s, End(start, path[..i]))
  }

  /** A climbing path among the streams that leaves none of the rest ahead of it all the way. */
  ghost predicate Route(q: Query, start: Option<Profile>, streams: seq<Stream>, path: seq<Stream>, rest: seq<Stream>) {
    && multiset(path + rest) == multiset(streams)
    && Climbs(q, start, path)
    && forall s <- rest :: Absorbed(q, start, path, s)
  }

  ghost predicate Yields(q: Query, start: Option<Profile>, streams: seq<Stream>, r: Option<Profile>) {
    exists path, rest :: Route(q, start, streams, path, rest) && End(start, path) == r
  }

  function SearchFrom(q: Query, start: Option<Profile>, streams: seq<Stream>): Option<Profile> {
    Search(q.exclude, q.backend, start, streams)
  }

  lemma AbsorbedStays(q: Query, start: Option<Profile>, path: seq<Stream>, more: seq<Stream>, s: Stream)
    requires Absorbed(q, start, path, s)
    ensures Absorbed(q, start, path + more, s)
  {
    var i :| 0 <= i <= |path| && !Beats(q, s, End(start, path[..i]));
    assert (path + more)[..i] == path[..i];
  }

  lemma ClimbOn(q: Query, start: Option<Profile>, path: seq<Stream>, s: Stream)
    requires Climbs(q, start, path) && Beats(q, s, End(start, path))
    ensures Climbs(q, start, path + [s])
  {
    var longer := path + [s];
    forall i | 0 <= i < |longer| ensures Beats(q, longer[i], End(start, longer[..i])) {
      assert longer[..i] == path[..i];
      assert path[..|path|] == path;
    }
  }

  /** What a pass over the streams in some order ends with is yielded. */
  lemma {:induction false} OrderRoute(q: Query, start: Option<Profile>, order: seq<Stream>)
    returns (path: seq<Stream>, rest: seq<Stream>)
    ensures Route(q, start, order, path, rest) && End(start, path) == SearchFrom(q, start, order)
  {
    if order == [] {
      path, rest := [], [];
    } else {
      var init, last := order[..|order| - 1], order[|order| - 1];
      assert order == init + [last];
      path, rest := OrderRoute(q, start, init);
      if Beats(q, last, End(start, path)) {
        RouteMoves(q, start, init, path, rest, last);
        path := path + [last];
      } else {
        RouteStays(q, start, init, path, rest, last);
        rest := rest + [last];
      }
    }
  }

  lemma RouteMoves(q: Query, start: Option<Profile>, streams: seq<Stream>, path: seq<Stream>, rest: seq<Stream>, s: Stream)
    requires Route(q, start, streams, path, rest) && Beats(q, s, End(start, path))
    ensures Route(q, start, streams + [s], path + [s], rest)
  {
    ClimbOn(q, start, path, s);
    forall x <- rest ensures Absorbed(q, start, path + [s], x) { AbsorbedStays(q, start, path, [s], x); }
  }

  lemma RouteStays(q: Query, start: Option<Profile>, streams: seq<Stream>, path: seq<Stream>, rest: seq<Stream>, s: Stream)
    requires Route(q, start, streams, path, rest) && !Beats(q, s, End(start, path))
    ensures Route(q, start, streams + [s], path, rest + [s])
  {
    assert path[..|path|] == path;
    assert Absorbed(q, start, path, s);
    assert path + (rest + [s]) == path + rest + [s];
  }

  /** And some order of the streams ends with what is yielded: what each stage of the path absorbs
      comes there. */
  lemma {:induction false} RouteOrder(q: Query, start: Option<Profile>, path: seq<Stream>, rest: seq<Stream>)
    returns (order: seq<Stream>)
    requires Climbs(q, start, path) && forall s <- rest :: Absorbed(q, start, path, s)
    ensures multiset(order) == multiset(path + rest)
    ensures SearchFrom(q, start, order) == End(start, path)
    decreases |path|
  {
    if path == [] {
      order := rest;
      assert path + rest == rest;
      forall s <- rest ensures !Beats(q, s, start) { assert Absorbed(q, start, path, s); }
      SearchStays(q.exclude, q.backend, start, rest);
    } else {
      var init, last := path[..|path| - 1], path[|path| - 1];
      var f := s => Absorbed(q, start, init, s);
      var g := s => !Absorbed(q, start, init, s);
      PickSplits(rest, f, g);
      var early, late := Pick(rest, f), Pick(rest, g);
      InitClimbs(q, start, path);
      var before := RouteOrder(q, start, init, early);
      order := before + [last] + late;
      LastStage(q, start, path, before, late);
      StageCounts(path, rest, early, late, before);
    }
  }

  lemma StageCounts(path: seq<Stream>, rest: seq<Stream>, early: seq<Stream>, late: seq<Stream>, before: seq<Stream>)
    requires path != [] && multiset(early + late) == multiset(rest)
    requires multiset(before) == multiset(path[..|path| - 1] + early)
    ensures multiset(before + [path[|path| - 1]] + late) == multiset(path + rest)
  {
    assert path == path[..|path| - 1] + [path[|path| - 1]];
  }

  lemma InitClimbs(q: Query, start: Option<Profile>, path: seq<Stream>)
    requires path != [] && Climbs(q, start, path)
    ensures Climbs(q, start, path[..|path| - 1])
    ensures Beats(q, path[|path| - 1], End(start, path[..|path| - 1]))
  {
    var init := path[..|path| - 1];
    forall i | 0 <= i < |init| ensures Beats(q, init[i], End(start, init[..i])) {
      assert init[..i] == path[..i] && init[i] == path[i];
    }
  }

  lemma LastStage(q: Query, start: Option<Profile>, path: seq<Stream>, before: seq<Stream>, late: seq<Stream>)
    requires path != [] && Climbs(q, start, path)
    requires SearchFrom(q, start, before) == End(start, path[..|path| - 1])
    requires forall s <- late :: Absorbed(q, start, path, s) && !Absorbed(q, start, path[..|path| - 1], s)
    ensures SearchFrom(q, start, before + [path[|path| - 1]] + late) == path[|path| - 1].profile
  {
    var init, last := path[..|path| - 1], path[|path| - 1];
    InitClimbs(q, start, path);
    SearchAppend(q.exclude, q.backend, start, before + [last], late);
    SearchAppend(q.exclude, q.backend, start, before, [last]);
    assert [last][..0] == [];
    forall s <- late ensures !Beats(q, s, last.profile) { AbsorbedLast(q, start, path, s); }
    SearchStays(q.exclude, q.backend, last.profile, late);
  }

  lemma AbsorbedLast(q: Query, start: Option<Profile>, path: seq<Stream>, s: Stream)
    requires path != [] && Absorbed(q, start, path, s) && !Absorbed(q, start, path[..|path| - 1], s)
    ensures !Beats(q, s, path[|path| - 1].profile)
  {
    var init := path[..|path| - 1];
    forall i | 0 <= i <= |init| ensures Beats(q, s, End(start, path[..i])) {
      assert init[..i] == path[..i];
    }
    assert path[..|path|] == path;
  }

  /** A pass over the streams in some order can end with a profile if and only if a climbing path
      leads there that leaves no other stream ahead of it all the way. */
  lemma YieldsIff(q: Query, start: Option<Profile>, streams: seq<Stream>, r: Option<Profile>)
    ensures Yields(q, start, streams, r)
       <==> exists order :: multiset(order) == multiset(streams) && SearchFrom(q, start, order) == r
  {
    if Yields(q, start, streams, r) {
      var path, rest :| Route(q, start, streams, path, rest) && End(start, path) == r;
      var order := RouteOrder(q, start, path, rest);
      assert multiset(order) == multiset(streams) && SearchFrom(q, start, order) == r;
    }
    if order :| multiset(order) == multiset(streams) && SearchFrom(q, start, order) == r {
      var path, rest := OrderRoute(q, start, order);
      assert Route(q, start, streams, path, rest);
    }
  }

  // ---------------------------------------------------------------- four passes

  ghost predicate BestYields(q: Query, streams: seq<Stream>, r: Option<Profile>) {
    exists a, b, c ::
      && Yields(q, None, OfKind(streams, VoiceUi), a)
      && Yields(q, a, OfKind(streams, Acd), b)
      && Yields(q, b, OfKind(streams, SensorPcm), c)
      && Yields(q, c, OfKind(streams, Asr), r)
  }

  lemma {:induction false} OfKindCounts(streams: seq<Stream>, kind: Kind, s: Stream)
    ensures multiset(OfKind(streams, kind))[s] == if s.kind == kind then multiset(streams)[s] else 0
  {
    if streams != [] {
      var init, last := streams[..|streams| - 1], streams[|streams| - 1];
      assert streams == init + [last];
      OfKindCounts(init, kind, s);
    }
  }

  lemma OfKindReordered(one: seq<Stream>, two: seq<Stream>, kind: Kind)
    requires multiset(one) == multiset(two)
    ensures multiset(OfKind(one, kind)) == multiset(OfKind(two, kind))
  {
    forall s ensures multiset(OfKind(one, kind))[s] == multiset(OfKind(two, kind))[s] {
      OfKindCounts(one, kind, s);
      OfKindCounts(two, kind, s);
    }
  }

  lemma {:induction false} OfKindAppend(one: seq<Stream>, two: seq<Stream>, kind: Kind)
    ensures OfKind(one + two, kind) == OfKind(one, kind) + OfKind(two, kind)
  {
    if two == [] {
      assert one + two == one;
    } else {
      var n := |two| - 1;
      assert (one + two)[..|one| + n] == one + two[..n];
      OfKindAppend(one, two[..n], kind);
    }
  }

  predicate AllAre(streams: seq<Stream>, kind: Kind) {
    forall s <- streams :: s.kind == kind
  }

  lemma KindOfReordered(streams: seq<Stream>, order: seq<Stream>, kind: Kind)
    requires multiset(order) == multiset(OfKind(streams, kind))
    ensures AllAre(order, kind)
  {
    forall s <- order ensures s.kind == kind {
      assert s in multiset(order);
      OfKindCounts(streams, kind, s);
    }
  }

  lemma AllAreOfKind(streams: seq<Stream>, has: Kind, kind: Kind)
    requires AllAre(streams, has)
    ensures OfKind(streams, kind) == if kind == has then streams else []
  {
    AllOfOneKind(streams, has, kind);
  }

  /** Any orders of the five groups are the groups of some order of the whole list. */
  function Together(a: seq<Stream>, b: seq<Stream>, c: seq<Stream>, d: seq<Stream>, e: seq<Stream>): seq<Stream> {
    a + b + c + d + e
  }

  function Part(group: seq<Stream>, has: Kind, kind: Kind): seq<Stream> {
    if kind == has then group else []
  }

  lemma GroupsOf(a: seq<Stream>, b: seq<Stream>, c: seq<Stream>, d: seq<Stream>, e: seq<Stream>, kind: Kind)
    requires AllAre(a, VoiceUi) && AllAre(b, Acd) && AllAre(c, SensorPcm) && AllAre(d, Asr) && AllAre(e, OtherKind)
    ensures OfKind(Together(a, b, c, d, e), kind)
         == Part(a, VoiceUi, kind) + Part(b, Acd, kind) + Part(c, SensorPcm, kind) + Part(d, Asr, kind) + Part(e, OtherKind, kind)
  {
    OfKindAppend(a + b + c + d, e, kind);
    OfKindAppend(a + b + c, d, kind);
    OfKindAppend(a + b, c, kind);
    OfKindAppend(a, b, kind);
    AllAreOfKind(a, VoiceUi, kind);
    AllAreOfKind(b, Acd, kind);
    AllAreOfKind(c, SensorPcm, kind);
    AllAreOfKind(d, Asr, kind);
    AllAreOfKind(e, OtherKind, kind);
  }

  lemma GroupOf(a: seq<Stream>, b: seq<Stream>, c: seq<Stream>, d: seq<Stream>, e: seq<Stream>)
    requires AllAre(a, VoiceUi) && AllAre(b, Acd) && AllAre(c, SensorPcm) && AllAre(d, Asr) && AllAre(e, OtherKind)
    ensures
      var all := Together(a, b, c, d, e);
      OfKind(all, VoiceUi) == a && OfKind(all, Acd) == b && OfKind(all, SensorPcm) == c && OfKind(all, Asr) == d
  {
    assert OfKind(Together(a, b, c, d, e), VoiceUi) == a by { GroupsOf(a, b, c, d, e, VoiceUi); }
    assert OfKind(Together(a, b, c, d, e), Acd) == b by { GroupsOf(a, b, c, d, e, Acd); }
    assert OfKind(Together(a, b, c, d, e), SensorPcm) == c by { GroupsOf(a, b, c, d, e, SensorPcm); }
    assert OfKind(Together(a, b, c, d, e), Asr) == d by { GroupsOf(a, b, c, d, e, Asr); }
  }

  lemma TogetherCounts(streams: seq<Stream>, a: seq<Stream>, b: seq<Stream>, c: seq<Stream>, d: seq<Stream>, e: seq<Stream>)
    requires multiset(a) == multiset(OfKind(streams, VoiceUi)) && multiset(b) == multiset(OfKind(streams, Acd))
    requires multiset(c) == multiset(OfKind(streams, SensorPcm)) && multiset(d) == multiset(OfKind(streams, Asr))
    requires multiset(e) == multiset(OfKind(streams, OtherKind))
    ensures multiset(Together(a, b, c, d, e)) == multiset(streams)
  {
    var all := multiset(a) + multiset(b) + multiset(c) + multiset(d) + multiset(e);
    assert multiset(Together(a, b, c, d, e)) == all;
    forall s ensures all[s] == multiset(streams)[s] {
      OfKindCounts(streams, VoiceUi, s);
      OfKindCounts(streams, Acd, s);
      OfKindCounts(streams, SensorPcm, s);
      OfKindCounts(streams, Asr, s);
      OfKindCounts(streams, OtherKind, s);
    }
  }

  function BestOf(q: Query, streams: seq<Stream>): Option<Profile> {
    Best(q.exclude, q.backend, streams)
  }

  lemma OrderYields(q: Query, one: seq<Stream>, two: seq<Stream>)
    requires multiset(two) == multiset(one)
    ensures BestYields(q, one, BestOf(q, two))
  {
    FourPasses(q.exclude, q.backend, two);
    var a := SearchFrom(q, None, OfKind(two, VoiceUi));
    var b := SearchFrom(q, a, OfKind(two, Acd));
    var c := SearchFrom(q, b, OfKind(two, SensorPcm));
    PassYields(q, None, one, two, VoiceUi);
    PassYields(q, a, one, two, Acd);
    PassYields(q, b, one, two, SensorPcm);
    PassYields(q, c, one, two, Asr);
  }

  lemma PassYields(q: Query, start: Option<Profile>, one: seq<Stream>, two: seq<Stream>, kind: Kind)
    requires multiset(two) == multiset(one)
    ensures Yields(q, start, OfKind(one, kind), SearchFrom(q, start, OfKind(two, kind)))
  {
    OfKindReordered(one, two, kind);
    YieldsIff(q, start, OfKind(one, kind), SearchFrom(q, start, OfKind(two, kind)));
  }

  lemma PassOrder(q: Query, start: Option<Profile>, streams: seq<Stream>, kind: Kind, r: Option<Profile>)
    returns (order: seq<Stream>)
    requires Yields(q, start, OfKind(streams, kind), r)
    ensures multiset(order) == multiset(OfKind(streams, kind)) && AllAre(order, kind)
    ensures SearchFrom(q, start, order) == r
  {
    YieldsIff(q, start, OfKind(streams, kind), r);
    order :| multiset(order) == multiset(OfKind(streams, kind)) && SearchFrom(q, start, order) == r;
    KindOfReordered(streams, order, kind);
  }

  lemma YieldsOrder(q: Query, one: seq<Stream>, r: Option<Profile>) returns (two: seq<Stream>)
    requires BestYields(q, one, r)
    ensures multiset(two) == multiset(one) && BestOf(q, two) == r
  {
    var a, b, c :| Yields(q, None, OfKind(one, VoiceUi), a) && Yields(q, a, OfKind(one, Acd), b)
                   && Yields(q, b, OfKind(one, SensorPcm), c) && Yields(q, c, OfKind(one, Asr), r);
    var va := PassOrder(q, None, one, VoiceUi, a);
    var acd := PassOrder(q, a, one, Acd, b);
    var sensor := PassOrder(q, b, one, SensorPcm, c);
    var asr := PassOrder(q, c, one, Asr, r);
    var other := OfKind(one, OtherKind);
    KindOfReordered(one, other, OtherKind);
    two := Together(va, acd, sensor, asr, other);
    TogetherCounts(one, va, acd, sensor, asr, other);
    GroupOf(va, acd, sensor, asr, other);
    FourPasses(q.exclude, q.backend, two);
  }

  /** For streams of any types: the search ends with one format in every order if and only if all
      chains of four such paths, one for each pass, end with one format. */
  lemma {:induction false} MixedOrderIrrelevantIff(q: Query, one: seq<Stream>)
    ensures BestIgnoresOrder(q.exclude, q.backend, one)
       <==> forall r, r' :: BestYields(q, one, r) && BestYields(q, one, r') ==> SameResult(r, r')
  {
    OrderYields(q, one, one);
    if BestIgnoresOrder(q.exclude, q.backend, one) {
      forall r, r' | BestYields(q, one, r) && BestYields(q, one, r') ensures SameResult(r, r') {
        var two := YieldsOrder(q, one, r);
        var three := YieldsOrder(q, one, r');
      }
    } else {
      var two: seq<Stream> :| multiset(two) == multiset(one)
                              && !SameResult(Best(q.exclude, q.backend, one), Best(q.exclude, q.backend, two));
      OrderYields(q, one, two);
    }
  }
}
