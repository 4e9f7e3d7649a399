/** The devices a stream is routed to and the attribute entries those devices hold for the
    stream: two lists kept in step by adding, erasing and switching devices. */
module PalDevices {
  import opened PriorityList

  type DeviceId = int

  const DEVICE_NONE: DeviceId := 1
  const OUT_SPEAKER: DeviceId := 3
  const OUT_BLUETOOTH_A2DP: DeviceId := 8
  const OUT_DUMMY: DeviceId := 24
  const OUT_MAX: DeviceId := 30
  const IN_MIN: DeviceId := 30
  const IN_BLUETOOTH_BLE: DeviceId := 53
  const IN_MAX: DeviceId := 61

  predicate IsOutput(id: DeviceId) {
    DEVICE_NONE < id < OUT_MAX
  }

  predicate IsInput(id: DeviceId) {
    IN_MIN < id < IN_MAX
  }

  type Lists = map<DeviceId, seq<Entry>>

  /** The attributes under which a device is entered for a stream. */
  datatype Request = Request(priority: nat, attr: Attributes, over: Overwrites, block: nat, force: bool)
  {
    function ToEntry(s: StreamId): Entry {
      Entry(priority, s, attr, over, block)
    }
  }

  /** One device of a switch request; `configFails` is whether its configuration cannot be
      worked out once it replaces the missing device. */
  datatype NewDevice = NewDevice(id: DeviceId, configFails: bool, request: Request)

  /** What the platform answers during one switch. */
  datatype Platform = Platform(replaceNone: bool, dummyEnabled: bool, bleRecording: bool)

  // ---------------------------------------------------------------- what the operations compute

  function AddOne(pal: seq<DeviceId>, lists: Lists, s: StreamId, d: DeviceId, r: Request): (seq<DeviceId>, Lists)
    requires d in lists
  {
    (pal + [d], lists[d := Insert(lists[d], r.ToEntry(s), r.force)])
  }

  /** Erase the devices picked by `p`, removing one entry of the stream for each of them. */
  function Erase(pal: seq<DeviceId>, lists: Lists, s: StreamId, p: DeviceId -> bool): (r: (seq<DeviceId>, Lists))
    requires Known(pal, lists)
    ensures r.1.Keys == lists.Keys
  {
    if pal == [] then ([], lists)
    else
      var last := pal[|pal| - 1];
      var (kept, lists') := Erase(pal[..|pal| - 1], lists, s, p);
      if p(last) then (kept, lists'[last := Remove(lists'[last], s)]) else (kept + [last], lists')
  }

  /** The device that takes the place of a requested one, or nothing if it is passed over. */
  function Resolve(n: NewDevice, known: set<DeviceId>, pf: Platform): DeviceId {
    var id := if n.id == DEVICE_NONE && pf.replaceNone then (if pf.dummyEnabled then OUT_DUMMY else OUT_SPEAKER)
              else n.id;
    if id == OUT_BLUETOOTH_A2DP && IN_BLUETOOTH_BLE in known && pf.bleRecording then OUT_DUMMY else id
  }

  predicate Skipped(n: NewDevice, pf: Platform) {
    n.id == DEVICE_NONE && pf.replaceNone && n.configFails
  }

  predicate Stops(n: NewDevice, known: set<DeviceId>, pf: Platform) {
    !Skipped(n, pf) && (Resolve(n, known, pf) == DEVICE_NONE || Resolve(n, known, pf) !in known)
  }

  /** Enter the new devices one by one; a missing device ends the switch at once. */
  function Enter(pal: seq<DeviceId>, lists: Lists, s: StreamId, news: seq<NewDevice>, pf: Platform): (r: (seq<DeviceId>, Lists, bool))
    ensures r.1.Keys == lists.Keys
  {
    if news == [] then (pal, lists, true)
    else
      var (pal', lists', goOn) := Enter(pal, lists, s, news[..|news| - 1], pf);
      var n := news[|news| - 1];
      if !goOn || Stops(n, lists.Keys, pf) then (pal', lists', false)
      else if Skipped(n, pf) then (pal', lists', true)
      else
        var (pal'', lists'') := AddOne(pal', lists', s, Resolve(n, lists.Keys, pf), n.request);
        (pal'', lists'', true)
  }

  /** Devices of the same direction as some requested device go first. */
  function Replaced(news: seq<NewDevice>): DeviceId -> bool {
    d =>
      || (IsOutput(d) && exists i :: 0 <= i < |news| && IsOutput(news[i].id))
      || (IsInput(d) && exists i :: 0 <= i < |news| && IsInput(news[i].id))
  }

  function Switch(pal: seq<DeviceId>, lists: Lists, s: StreamId, news: seq<NewDevice>, pf: Platform): (seq<DeviceId>, Lists)
    requires Known(pal, lists)
  {
    var (kept, lists') := Erase(pal, lists, s, Replaced(news));
    var (pal', lists'', _) := Enter(kept, lists', s, news, pf);
    (pal', lists'')
  }

  // ---------------------------------------------------------------- the objects

  function Ids(devices: seq<Device>): (r: seq<DeviceId>)
    ensures |r| == |devices| && forall i :: 0 <= i < |r| ==> r[i] == devices[i].id
  {
    seq(|devices|, i requires 0 <= i < |devices| => devices[i].id)
  }

  function Contents(registry: map<DeviceId, Device>): (r: Lists)
    reads registry.Values
    ensures r.Keys == registry.Keys
  {
    map d | d in registry :: registry[d].entries
  }

  /** Every device id has one object, and all lists are sorted. */
  ghost predicate GoodRegistry(registry: map<DeviceId, Device>)
    reads registry.Values
  {
    forall d :: d in registry ==> registry[d].id == d && Sorted(registry[d].entries)
  }

  class Stream {
    const handle: StreamId
    var palDevices: seq<Device>

    constructor (handle: StreamId)
      ensures this.handle == handle && palDevices == []
    {
      this.handle := handle;
      palDevices := [];
    }

    ghost predicate Valid(registry: map<DeviceId, Device>)
      reads this, registry.Values
    {
      && GoodRegistry(registry)
      && forall i :: 0 <= i < |palDevices| ==> palDevices[i].id in registry && registry[palDevices[i].id] == palDevices[i]
    }

    method EnterDevice(registry: map<DeviceId, Device>, d: DeviceId, r: Request)
      requires Valid(registry) && d in registry
      modifies this`palDevices, registry.Values`entries
      ensures Valid(registry)
      ensures (Ids(palDevices), Contents(registry)) == AddOne(old(Ids(palDevices)), old(Contents(registry)), handle, d, r)
    {
      assert forall k :: k in registry && k != d ==> registry[k].id != registry[d].id;
      registry[d].InsertStreamDeviceAttr(r.ToEntry(handle), r.force);
      palDevices := palDevices + [registry[d]];
      assert Ids(palDevices) == old(Ids(palDevices)) + [d];
      assert Contents(registry) == old(Contents(registry))[d := registry[d].entries];
    }

    /** Take one entry of this stream from the list of the device. */
    method LeaveDevice(registry: map<DeviceId, Device>, d: DeviceId)
      requires Valid(registry) && d in registry
      modifies registry.Values`entries
      ensures Valid(registry)
      ensures Contents(registry) == old(Contents(registry))[d := Remove(old(Contents(registry)[d]), handle)]
    {
      assert forall k :: k in registry && k != d ==> registry[k].id != registry[d].id;
      RemoveSorted(registry[d].entries, handle);
      registry[d].RemoveStreamDeviceAttr(handle);
      assert Contents(registry) == old(Contents(registry))[d := registry[d].entries];
    }

    /** Without an instance of the device nothing happens. */
    method AddPalDevice(registry: map<DeviceId, Device>, d: DeviceId, r: Request)
      requires Valid(registry)
      modifies this`palDevices, registry.Values`entries
      ensures Valid(registry)
      ensures (Ids(palDevices), Contents(registry)) ==
              if d in registry then AddOne(old(Ids(palDevices)), old(Contents(registry)), handle, d, r)
              else (old(Ids(palDevices)), old(Contents(registry)))
    {
      if d in registry {
        EnterDevice(registry, d, r);
      }
    }

    /** One round of the erasing loop: `i` devices were kept so far. */
    method EraseOrKeep(registry: map<DeviceId, Device>, i: nat, p: DeviceId -> bool) returns (next: nat)
      requires Valid(registry) && i < |palDevices|
      modifies this`palDevices, registry.Values`entries
      ensures Valid(registry)
      ensures
        var ids, lists := old(Ids(palDevices)), old(Contents(registry));
        if p(ids[i])
        then && next == i && Ids(palDevices) == ids[..i] + ids[i + 1..]
             && Contents(registry) == lists[ids[i] := Remove(lists[ids[i]], handle)]
        else next == i + 1 && Ids(palDevices) == ids && Contents(registry) == lists
    {
      if p(palDevices[i].id) {
        LeaveDevice(registry, palDevices[i].id);
        palDevices := palDevices[..i] + palDevices[i + 1..];
        return i;
      }
      return i + 1;
    }

    method EraseMatching(registry: map<DeviceId, Device>, p: DeviceId -> bool)
      requires Valid(registry)
      modifies this`palDevices, registry.Values`entries
      ensures Valid(registry)
      ensures (Ids(palDevices), Contents(registry)) == Erase(old(Ids(palDevices)), old(Contents(registry)), handle, p)
    {
      var i := 0;
      ghost var all, lists := Ids(palDevices), Contents(registry);
      ghost var done, kept, rest: seq<DeviceId> := [], [], all;
      assert all == [] + all;
      while i < |palDevices|
        invariant Valid(registry) && Known(all, lists)
        invariant all == done + rest && i == |kept|
        invariant Ids(palDevices) == kept + rest
        invariant Known(done, lists) && (kept, Contents(registry)) == Erase(done, lists, handle, p)
        decreases |rest|
      {
        assert |Ids(palDevices)| == |palDevices|;
        EraseStep(done, rest, kept, lists, Contents(registry), handle, p);
        NextInPlace(kept, rest);
        NextInPlace(done, rest);
        i := EraseOrKeep(registry, i, p);
        kept := if p(rest[0]) then kept else kept + [rest[0]];
        done, rest := done + [rest[0]], rest[1..];
      }
      assert |Ids(palDevices)| == |palDevices|;
      assert rest == [] && done == all && Ids(palDevices) == kept;
    }

    method RemovePalDevice(registry: map<DeviceId, Device>, d: DeviceId)
      requires Valid(registry)
      modifies this`palDevices, registry.Values`entries
      ensures Valid(registry)
      ensures (Ids(palDevices), Contents(registry)) ==
              Erase(old(Ids(palDevices)), old(Contents(registry)), handle, k => k == d)
    {
      EraseMatching(registry, k => k == d);
    }

    method ClearOutPalDevices(registry: map<DeviceId, Device>)
      requires Valid(registry)
      modifies this`palDevices, registry.Values`entries
      ensures Valid(registry)
      ensures (Ids(palDevices), Contents(registry)) ==
              Erase(old(Ids(palDevices)), old(Contents(registry)), handle, k => !IsInput(k))
    {
      EraseMatching(registry, k => !IsInput(k));
    }

    method SwitchDevice(registry: map<DeviceId, Device>, news: seq<NewDevice>, pf: Platform)
      requires Valid(registry)
      modifies this`palDevices, registry.Values`entries
      ensures Valid(registry)
      ensures (Ids(palDevices), Contents(registry)) ==
              Switch(old(Ids(palDevices)), old(Contents(registry)), handle, news, pf)
    {
      var hasOut, hasIn, j := false, false, 0;
      while j < |news|
        invariant 0 <= j <= |news|
        invariant hasOut <==> exists i :: 0 <= i < j && IsOutput(news[i].id)
        invariant hasIn <==> exists i :: 0 <= i < j && IsInput(news[i].id)
      {
        if IsOutput(news[j].id) {
          hasOut := true;
        }
        if IsInput(news[j].id) {
          hasIn := true;
        }
        j := j + 1;
      }
      var p := (d: DeviceId) => (IsOutput(d) && hasOut) || (IsInput(d) && hasIn);
      ErasePointwise(Ids(palDevices), Contents(registry), handle, p, Replaced(news));
      EraseMatching(registry, p);
      EnterAll(registry, news, pf);
    }

    /** One round of the loop over the new devices; false ends the switch. */
    method EnterOne(registry: map<DeviceId, Device>, n: NewDevice, pf: Platform) returns (goOn: bool)
      requires Valid(registry)
      modifies this`palDevices, registry.Values`entries
      ensures Valid(registry)
      ensures goOn <==> !Stops(n, registry.Keys, pf)
      ensures (Ids(palDevices), Contents(registry)) ==
              if Stops(n, registry.Keys, pf) || Skipped(n, pf) then (old(Ids(palDevices)), old(Contents(registry)))
              else AddOne(old(Ids(palDevices)), old(Contents(registry)), handle, Resolve(n, registry.Keys, pf), n.request)
    {
      var id := n.id;
      if pf.replaceNone && id == DEVICE_NONE {
        id := if pf.dummyEnabled then OUT_DUMMY else OUT_SPEAKER;
        if n.configFails {
          return true;
        }
      }
      if id == DEVICE_NONE {
        return false;
      }
      if id == OUT_BLUETOOTH_A2DP {
        if IN_BLUETOOTH_BLE in registry && pf.bleRecording {
          id := OUT_DUMMY;
        }
      }
      if id !in registry {
        return false;
      }
      EnterDevice(registry, id, n.request);
      return true;
    }

    method EnterAll(registry: map<DeviceId, Device>, news: seq<NewDevice>, pf: Platform)
      requires Valid(registry)
      modifies this`palDevices, registry.Values`entries
      ensures Valid(registry)
      ensures
        var (pal, lists, _) := Enter(old(Ids(palDevices)), old(Contents(registry)), handle, news, pf);
        Ids(palDevices) == pal && Contents(registry) == lists
    {
      ghost var pal, lists := Ids(palDevices), Contents(registry);
      var j := 0;
      var goOn := true;
      while j < |news| && goOn
        invariant 0 <= j <= |news|
        invariant Valid(registry)
        invariant EnteredSoFar(registry, pal, lists, news, pf, j, goOn)
        decreases |news| - j
      {
        goOn := EnterAt(registry, news, pf, j, pal, lists);
        j := j + 1;
      }
      EnterRest(pal, lists, handle, news, pf, j);
    }

    /** The lists are what the first j devices make of them, and the flag is whether none of them has
        ended the switch. */
    ghost predicate EnteredSoFar(registry: map<DeviceId, Device>, pal: seq<DeviceId>, lists: Lists, news: seq<NewDevice>,
                                 pf: Platform, j: nat, goOn: bool)
      requires j <= |news|
      reads this, registry.Values
    {
      (Ids(palDevices), Contents(registry), goOn) == Enter(pal, lists, handle, news[..j], pf)
    }

    method EnterAt(registry: map<DeviceId, Device>, news: seq<NewDevice>, pf: Platform, j: nat,
                   ghost pal: seq<DeviceId>, ghost lists: Lists)
      returns (goOn: bool)
      requires Valid(registry) && j < |news| && EnteredSoFar(registry, pal, lists, news, pf, j, true)
      modifies this`palDevices, registry.Values`entries
      ensures Valid(registry) && EnteredSoFar(registry, pal, lists, news, pf, j + 1, goOn)
    {
      EnterNext(pal, lists, handle, news, pf, j);
      goOn := EnterOne(registry, news[j], pf);
    }
  }

  /** One round of the loop over the new devices, on the ids. */
  lemma EnterNext(pal: seq<DeviceId>, lists: Lists, s: StreamId, news: seq<NewDevice>, pf: Platform, j: nat)
    requires j < |news| && Enter(pal, lists, s, news[..j], pf).2
    ensures
      var (pal', lists', _) := Enter(pal, lists, s, news[..j], pf);
      var stops := Stops(news[j], lists.Keys, pf);
      && (!stops && !Skipped(news[j], pf) ==> Resolve(news[j], lists.Keys, pf) in lists')
      && Enter(pal, lists, s, news[..j + 1], pf) ==
         if stops || Skipped(news[j], pf) then (pal', lists', !stops)
         else
           var (pal'', lists'') := AddOne(pal', lists', s, Resolve(news[j], lists.Keys, pf), news[j].request);
           (pal'', lists'', true)
  {
    var next := news[..j + 1];
    assert next[..|next| - 1] == news[..j] && next[|next| - 1] == news[j];
  }

  /** Once the switch has ended, the other devices make no difference. */
  lemma {:induction false} EnterRest(pal: seq<DeviceId>, lists: Lists, s: StreamId, news: seq<NewDevice>, pf: Platform, j: nat)
    requires j <= |news| && (Enter(pal, lists, s, news[..j], pf).2 ==> j == |news|)
    ensures Enter(pal, lists, s, news, pf) == Enter(pal, lists, s, news[..j], pf)
  {
    if j < |news| {
      assert news[..|news| - 1][..j] == news[..j];
      EnterRest(pal, lists, s, news[..|news| - 1], pf, j);
    } else {
      assert news[..j] == news;
    }
  }

  lemma RemoveSorted(l: seq<Entry>, s: StreamId)
    requires Sorted(l)
    ensures Sorted(Remove(l, s))
  {
    var k := RemoveIsErase(l, s);
  }

  predicate Known(pal: seq<DeviceId>, lists: Lists) {
    forall d :: d in pal ==> d in lists
  }

  /** One round of the erasing loop, on the ids: the next device either goes or is kept. */
  lemma EraseStep(done: seq<DeviceId>, rest: seq<DeviceId>, kept: seq<DeviceId>, lists: Lists, now: Lists,
                  s: StreamId, p: DeviceId -> bool)
    requires rest != [] && Known(done + rest, lists) && Known(done, lists)
    requires (kept, now) == Erase(done, lists, s, p)
    ensures Known(done + [rest[0]], lists) && rest[0] in now
    ensures Erase(done + [rest[0]], lists, s, p) ==
            if p(rest[0]) then (kept, now[rest[0] := Remove(now[rest[0]], s)]) else (kept + [rest[0]], now)
  {
    var longer := done + [rest[0]];
    NextIsKnown(done, rest, lists);
    assert longer[..|longer| - 1] == done && longer[|longer| - 1] == rest[0];
  }

  lemma NextIsKnown(done: seq<DeviceId>, rest: seq<DeviceId>, lists: Lists)
    requires rest != [] && Known(done + rest, lists)
    ensures Known(done + [rest[0]], lists) && rest[0] in lists
  {
    assert (done + rest)[|done|] == rest[0];
    assert rest[0] in done + rest;
    forall d <- done + [rest[0]] ensures d in lists {
      assert d in done + rest;
    }
  }

  /** The place of the next device between what was kept and what is to come. */
  lemma NextInPlace(kept: seq<DeviceId>, rest: seq<DeviceId>)
    requires rest != []
    ensures (kept + rest)[|kept|] == rest[0]
    ensures (kept + rest)[..|kept|] + (kept + rest)[|kept| + 1..] == kept + rest[1..]
    ensures kept + rest == (kept + [rest[0]]) + rest[1..]
  {
  }

  lemma {:induction false} ErasePointwise(pal: seq<DeviceId>, lists: Lists, s: StreamId, p: DeviceId -> bool, q: DeviceId -> bool)
    requires Known(pal, lists)
    requires forall d: DeviceId :: p(d) == q(d)
    ensures Erase(pal, lists, s, p) == Erase(pal, lists, s, q)
  {
    if pal != [] {
      ErasePointwise(pal[..|pal| - 1], lists, s, p, q);
    }
  }

  // ---------------------------------------------------------------- the two lists agree

  /** The device holds as many entries for the stream as the stream lists the device. */
  predicate Agree(pal: seq<DeviceId>, lists: Lists, s: StreamId) {
    Known(pal, lists) && forall d :: d in lists ==> EntriesOf(lists[d], s) == multiset(pal)[d]
  }

  /** `now` differs from `then_` at most in entries of the stream `s`. */
  ghost predicate SameForOthers(then_: Lists, now: Lists, s: StreamId) {
    && now.Keys == then_.Keys
    && forall d, t :: d in now && t != s ==> EntriesOf(now[d], t) == EntriesOf(then_[d], t)
  }

  lemma AddAgrees(pal: seq<DeviceId>, lists: Lists, s: StreamId, d: DeviceId, r: Request)
    requires d in lists && Agree(pal, lists, s)
    ensures
      var (pal', lists') := AddOne(pal, lists, s, d, r);
      Agree(pal', lists', s) && SameForOthers(lists, lists', s)
  {
    forall t: StreamId
      ensures EntriesOf(Insert(lists[d], r.ToEntry(s), r.force), t) == EntriesOf(lists[d], t) + if t == s then 1 else 0
    {
      InsertCounts(lists[d], r.ToEntry(s), r.force, t);
    }
  }

  lemma DropOne(kept: seq<DeviceId>, last: DeviceId, rest: seq<DeviceId>, lists: Lists, s: StreamId)
    requires Agree(kept + ([last] + rest), lists, s)
    ensures last in lists
    ensures
      var lists' := lists[last := Remove(lists[last], s)];
      Agree(kept + rest, lists', s) && SameForOthers(lists, lists', s)
  {
    assert last in kept + ([last] + rest);
    assert multiset(kept + ([last] + rest)) == multiset(kept + rest) + multiset{last};
    assert forall d :: d in kept + rest ==> d in kept + ([last] + rest);
    forall t: StreamId
      ensures EntriesOf(Remove(lists[last], s), t) == EntriesOf(lists[last], t) - if t == s then 1 else 0
    {
      RemoveCounts(lists[last], s, t);
    }
  }

  /** Erasing takes away from each picked device as many entries as the erased part of the
      list names it, and nothing else. */
  lemma {:induction false} EraseCounts(pal: seq<DeviceId>, rest: seq<DeviceId>, lists: Lists, s: StreamId, p: DeviceId -> bool)
    requires Agree(pal + rest, lists, s)
    ensures Known(pal, lists)
    ensures
      var (kept, lists') := Erase(pal, lists, s, p);
      Agree(kept + rest, lists', s) && SameForOthers(lists, lists', s)
  {
    assert forall d :: d in pal ==> d in pal + rest;
    if pal == [] {
      assert pal + rest == [] + rest;
    } else {
      var init, last := pal[..|pal| - 1], pal[|pal| - 1];
      assert pal + rest == init + ([last] + rest);
      EraseCounts(init, [last] + rest, lists, s, p);
      var (kept, lists1) := Erase(init, lists, s, p);
      assert (kept + [last]) + rest == kept + ([last] + rest);
      if p(last) {
        DropOne(kept, last, rest, lists1, s);
      }
    }
  }

  lemma {:induction false} EraseAgrees(pal: seq<DeviceId>, lists: Lists, s: StreamId, p: DeviceId -> bool)
    requires Agree(pal, lists, s)
    ensures
      var (kept, lists') := Erase(pal, lists, s, p);
      Agree(kept, lists', s) && SameForOthers(lists, lists', s)
  {
    assert pal + [] == pal;
    EraseCounts(pal, [], lists, s, p);
    assert Erase(pal, lists, s, p).0 + [] == Erase(pal, lists, s, p).0;
  }

  lemma {:induction false} EnterAgrees(pal: seq<DeviceId>, lists: Lists, s: StreamId, news: seq<NewDevice>, pf: Platform)
    requires Agree(pal, lists, s)
    ensures
      var (pal', lists', _) := Enter(pal, lists, s, news, pf);
      Agree(pal', lists', s) && SameForOthers(lists, lists', s)
  {
    if news != [] {
      EnterAgrees(pal, lists, s, news[..|news| - 1], pf);
      var (pal', lists', goOn) := Enter(pal, lists, s, news[..|news| - 1], pf);
      var n := news[|news| - 1];
      if goOn && !Stops(n, lists.Keys, pf) && !Skipped(n, pf) {
        AddAgrees(pal', lists', s, Resolve(n, lists.Keys, pf), n.request);
      }
    }
  }

  // ---------------------------------------------------------------- what a switch leaves

  /** Erasing takes the picked devices away altogether and no other occurrence. */
  lemma {:induction false} EraseKeepsExactly(pal: seq<DeviceId>, lists: Lists, s: StreamId, p: DeviceId -> bool, d: DeviceId)
    requires Known(pal, lists)
    ensures multiset(Erase(pal, lists, s, p).0)[d] == if p(d) then 0 else multiset(pal)[d]
  {
    if pal != [] {
      var init, last := pal[..|pal| - 1], pal[|pal| - 1];
      assert pal == init + [last];
      EraseKeepsExactly(init, lists, s, p, d);
    }
  }

  /** How often a request enters the device: once for every new device that resolves to it, up
      to the one that ends the switch. */
  function EnteredTimes(news: seq<NewDevice>, known: set<DeviceId>, pf: Platform, d: DeviceId): nat {
    if news == [] || Stops(news[0], known, pf) then 0
    else (if !Skipped(news[0], pf) && Resolve(news[0], known, pf) == d then 1 else 0)
         + EnteredTimes(news[1..], known, pf, d)
  }

  predicate StopsNowhere(news: seq<NewDevice>, known: set<DeviceId>, pf: Platform) {
    forall i :: 0 <= i < |news| ==> !Stops(news[i], known, pf)
  }

  lemma {:induction false} EnteredTimesAppend(news: seq<NewDevice>, n: NewDevice, known: set<DeviceId>, pf: Platform, d: DeviceId)
    ensures EnteredTimes(news + [n], known, pf, d) == EnteredTimes(news, known, pf, d)
         + if StopsNowhere(news, known, pf) then EnteredTimes([n], known, pf, d) else 0
  {
    if news == [] {
      assert news + [n] == [n];
    } else {
      assert (news + [n])[1..] == news[1..] + [n];
      EnteredTimesAppend(news[1..], n, known, pf, d);
      assert StopsNowhere(news, known, pf) <==> !Stops(news[0], known, pf) && StopsNowhere(news[1..], known, pf) by {
        assert news == [news[0]] + news[1..];
      }
    }
  }

  lemma {:induction false} EnterCounts(pal: seq<DeviceId>, lists: Lists, s: StreamId, news: seq<NewDevice>, pf: Platform, d: DeviceId)
    ensures Enter(pal, lists, s, news, pf).2 <==> StopsNowhere(news, lists.Keys, pf)
    ensures multiset(Enter(pal, lists, s, news, pf).0)[d] == multiset(pal)[d] + EnteredTimes(news, lists.Keys, pf, d)
  {
    if news != [] {
      var init, n := news[..|news| - 1], news[|news| - 1];
      assert news == init + [n];
      EnterCounts(pal, lists, s, init, pf, d);
      EnteredTimesAppend(init, n, lists.Keys, pf, d);
      assert [n][1..] == [];
    }
  }

  /** After a switch the stream is routed to exactly the devices of the directions that were not
      replaced, and those that the request enters. */
  lemma SwitchReplaces(pal: seq<DeviceId>, lists: Lists, s: StreamId, news: seq<NewDevice>, pf: Platform, d: DeviceId)
    requires Known(pal, lists)
    ensures multiset(Switch(pal, lists, s, news, pf).0)[d]
         == (if Replaced(news)(d) then 0 else multiset(pal)[d]) + EnteredTimes(news, lists.Keys, pf, d)
  {
    EraseKeepsExactly(pal, lists, s, Replaced(news), d);
    var (kept, lists') := Erase(pal, lists, s, Replaced(news));
    EnterCounts(kept, lists', s, news, pf, d);
  }

  /** Whether the request names an output, or an input, by the ranges of their ids. */
  predicate NamesOutput(news: seq<NewDevice>) {
    exists n <- news :: 1 < n.id < 30
  }

  predicate NamesInput(news: seq<NewDevice>) {
    exists n <- news :: 30 < n.id < 61
  }

  /** The list after a switch, direction by direction: outputs give way exactly if the request names
      an output, inputs exactly if it names an input, and everything the request enters is added. */
  lemma SwitchByDirection(pal: seq<DeviceId>, lists: Lists, s: StreamId, news: seq<NewDevice>, pf: Platform, d: DeviceId)
    requires Known(pal, lists)
    ensures
      var now, entered := multiset(Switch(pal, lists, s, news, pf).0)[d], EnteredTimes(news, lists.Keys, pf, d);
      && (1 < d < 30 ==> now == (if NamesOutput(news) then 0 else multiset(pal)[d]) + entered)
      && (30 < d < 61 ==> now == (if NamesInput(news) then 0 else multiset(pal)[d]) + entered)
      && (d <= 1 || d == 30 || 61 <= d ==> now == multiset(pal)[d] + entered)
  {
    SwitchReplaces(pal, lists, s, news, pf, d);
    assert NamesOutput(news) <==> exists i :: 0 <= i < |news| && 1 < news[i].id < 30;
    assert NamesInput(news) <==> exists i :: 0 <= i < |news| && 30 < news[i].id < 61;
  }

  /** A request for outputs only leaves every input where it was, and the other way around. */
  lemma OtherDirectionStays(pal: seq<DeviceId>, lists: Lists, s: StreamId, news: seq<NewDevice>, pf: Platform, d: DeviceId)
    requires Known(pal, lists)
    ensures
      var now := multiset(Switch(pal, lists, s, news, pf).0)[d];
      && ((forall n <- news :: 1 < n.id < 30) && 30 < d < 61 ==> now == multiset(pal)[d])
      && ((forall n <- news :: 30 < n.id < 61) && 1 < d < 30 ==> now == multiset(pal)[d])
  {
    SwitchByDirection(pal, lists, s, news, pf, d);
    if ((forall n <- news :: 1 < n.id < 30) && 30 < d < 61) || ((forall n <- news :: 30 < n.id < 61) && 1 < d < 30) {
      EntersOwnDirection(news, lists.Keys, pf, d);
    }
  }

  lemma {:induction false} EntersOwnDirection(news: seq<NewDevice>, known: set<DeviceId>, pf: Platform, d: DeviceId)
    requires ((forall n <- news :: 1 < n.id < 30) && 30 < d < 61) || ((forall n <- news :: 30 < n.id < 61) && 1 < d < 30)
    ensures EnteredTimes(news, known, pf, d) == 0
    decreases |news|
  {
    if news != [] {
      assert news[0] in news;
      assert forall n <- news[1..] :: n in news;
      EntersOwnDirection(news[1..], known, pf, d);
    }
  }

  /** Which device takes the place of a requested one: the dummy, for a missing device where it is
      enabled and for A2DP beside a BLE recording; the speaker, for a missing device where it is not;
      and else the one that was asked for. */
  lemma ResolvesTo(n: NewDevice, known: set<DeviceId>, pf: Platform)
    ensures
      var r := Resolve(n, known, pf);
      && (r == 24 <==> || n.id == 24
                       || (n.id == 1 && pf.replaceNone && pf.dummyEnabled)
                       || (n.id == 8 && 53 in known && pf.bleRecording))
      && (r == 3 <==> n.id == 3 || (n.id == 1 && pf.replaceNone && !pf.dummyEnabled))
      && (r !in {3, 24} ==> r == n.id)
  {
  }

  /** A switch ends early exactly at a missing device that is not replaced, or one of which there is
      no instance; and passes over exactly a missing device whose replacement cannot be configured. */
  lemma StopsExactly(n: NewDevice, known: set<DeviceId>, pf: Platform)
    ensures Skipped(n, pf) <==> n.id == 1 && pf.replaceNone && n.configFails
    ensures Stops(n, known, pf) <==>
              if n.id == 1 then !pf.replaceNone || (!n.configFails && (if pf.dummyEnabled then 24 else 3) !in known)
              else if n.id == 8 && 53 in known && pf.bleRecording then 24 !in known
              else n.id !in known
  {
  }

  /** Clearing the outputs leaves exactly the inputs. */
  lemma ClearOutKeepsInputs(y: System, s: StreamId, d: DeviceId)
    requires s < |y.pals| && Known(y.pals[s], y.lists)
    ensures multiset(Step(y, ClearOut(s)).pals[s])[d] == if 30 < d < 61 then multiset(y.pals[s])[d] else 0
  {
    EraseKeepsExactly(y.pals[s], y.lists, s, k => !IsInput(k), d);
  }

  /** Removing a device takes away that one, as often as it is listed. */
  lemma RemoveTakesOne(y: System, s: StreamId, x: DeviceId, d: DeviceId)
    requires s < |y.pals| && Known(y.pals[s], y.lists)
    ensures multiset(Step(y, RemoveDevice(s, x)).pals[s])[d] == if d == x then 0 else multiset(y.pals[s])[d]
  {
    EraseKeepsExactly(y.pals[s], y.lists, s, k => k == x, d);
  }

  /** The devices that are not picked, in their order. */
  function Kept(pal: seq<DeviceId>, p: DeviceId -> bool): seq<DeviceId> {
    if pal == [] then [] else (if p(pal[0]) then [] else [pal[0]]) + Kept(pal[1..], p)
  }

  lemma {:induction false} KeptAppend(pal: seq<DeviceId>, d: DeviceId, p: DeviceId -> bool)
    ensures Kept(pal + [d], p) == Kept(pal, p) + if p(d) then [] else [d]
  {
    if pal == [] {
      assert pal + [d] == [d];
    } else {
      assert (pal + [d])[1..] == pal[1..] + [d];
      KeptAppend(pal[1..], d, p);
    }
  }

  lemma {:induction false} EraseKeepsOrder(pal: seq<DeviceId>, lists: Lists, s: StreamId, p: DeviceId -> bool)
    requires Known(pal, lists)
    ensures Erase(pal, lists, s, p).0 == Kept(pal, p)
  {
    if pal != [] {
      var init, last := pal[..|pal| - 1], pal[|pal| - 1];
      assert pal == init + [last];
      EraseKeepsOrder(init, lists, s, p);
      KeptAppend(init, last, p);
    }
  }

  /** And what is entered comes behind it, in the order of the request. */
  function Entered(news: seq<NewDevice>, known: set<DeviceId>, pf: Platform): seq<DeviceId> {
    if news == [] || Stops(news[0], known, pf) then []
    else (if Skipped(news[0], pf) then [] else [Resolve(news[0], known, pf)]) + Entered(news[1..], known, pf)
  }

  lemma {:induction false} EnteredAppend(news: seq<NewDevice>, n: NewDevice, known: set<DeviceId>, pf: Platform)
    ensures Entered(news + [n], known, pf) == Entered(news, known, pf)
         + if StopsNowhere(news, known, pf) then Entered([n], known, pf) else []
  {
    if news == [] {
      assert news + [n] == [n];
    } else {
      assert (news + [n])[1..] == news[1..] + [n];
      EnteredAppend(news[1..], n, known, pf);
      assert StopsNowhere(news, known, pf) <==> !Stops(news[0], known, pf) && StopsNowhere(news[1..], known, pf) by {
        assert news == [news[0]] + news[1..];
      }
    }
  }

  lemma EnterOneMore(pal: seq<DeviceId>, lists: Lists, s: StreamId, init: seq<NewDevice>, n: NewDevice, pf: Platform)
    ensures
      var before := Enter(pal, lists, s, init, pf);
      Enter(pal, lists, s, init + [n], pf).0 == before.0 + if before.2 then Entered([n], lists.Keys, pf) else []
  {
    var all := init + [n];
    assert all[..|all| - 1] == init && all[|all| - 1] == n;
    EnteredOne(n, lists.Keys, pf);
  }

  lemma EnteredOne(n: NewDevice, known: set<DeviceId>, pf: Platform)
    ensures Entered([n], known, pf) == if Stops(n, known, pf) || Skipped(n, pf) then [] else [Resolve(n, known, pf)]
  {
    assert [n][1..] == [];
  }

  lemma EnterAppendsOne(pal: seq<DeviceId>, lists: Lists, s: StreamId, init: seq<NewDevice>, n: NewDevice, pf: Platform)
    requires Enter(pal, lists, s, init, pf).0 == pal + Entered(init, lists.Keys, pf)
    ensures Enter(pal, lists, s, init + [n], pf).0 == pal + Entered(init + [n], lists.Keys, pf)
  {
    var done := Entered(init, lists.Keys, pf);
    var more := if Enter(pal, lists, s, init, pf).2 then Entered([n], lists.Keys, pf) else [];
    assert Enter(pal, lists, s, init + [n], pf).0 == Enter(pal, lists, s, init, pf).0 + more by {
      EnterOneMore(pal, lists, s, init, n, pf);
    }
    assert Entered(init + [n], lists.Keys, pf) == done + more by {
      EnterCounts(pal, lists, s, init, pf, 0);
      EnteredAppend(init, n, lists.Keys, pf);
    }
    Associate(pal, done, more);
  }

  lemma Associate(one: seq<DeviceId>, two: seq<DeviceId>, three: seq<DeviceId>)
    ensures one + two + three == one + (two + three)
  {
  }

  lemma {:induction false} EnterAppends(pal: seq<DeviceId>, lists: Lists, s: StreamId, news: seq<NewDevice>, pf: Platform)
    ensures Enter(pal, lists, s, news, pf).0 == pal + Entered(news, lists.Keys, pf)
  {
    if news != [] {
      var init, n := news[..|news| - 1], news[|news| - 1];
      EnterAppends(pal, lists, s, init, pf);
      EnterAppendsOne(pal, lists, s, init, n, pf);
      assert news == init + [n];
    }
  }

  /** The whole list after a switch: what is not replaced, in its order, and then what is entered. */
  lemma SwitchInOrder(pal: seq<DeviceId>, lists: Lists, s: StreamId, news: seq<NewDevice>, pf: Platform)
    requires Known(pal, lists)
    ensures Switch(pal, lists, s, news, pf).0
         == Kept(pal, d => (1 < d < 30 && NamesOutput(news)) || (30 < d < 61 && NamesInput(news))) + Entered(news, lists.Keys, pf)
  {
    var p := (d: DeviceId) => (1 < d < 30 && NamesOutput(news)) || (30 < d < 61 && NamesInput(news));
    assert NamesOutput(news) <==> exists i :: 0 <= i < |news| && 1 < news[i].id < 30;
    assert NamesInput(news) <==> exists i :: 0 <= i < |news| && 30 < news[i].id < 61;
    ErasePointwise(pal, lists, s, Replaced(news), p);
    EraseKeepsOrder(pal, lists, s, p);
    var (kept, lists') := Erase(pal, lists, s, Replaced(news));
    EnterAppends(kept, lists', s, news, pf);
  }

  // ---------------------------------------------------------------- whole runs

  datatype Op =
    | Add(stream: StreamId, device: DeviceId, request: Request)
    | RemoveDevice(stream: StreamId, device: DeviceId)
    | ClearOut(stream: StreamId)
    | SwitchTo(stream: StreamId, news: seq<NewDevice>, platform: Platform)

  /** The streams' lists, one per stream, and the devices' lists. */
  datatype System = System(pals: seq<seq<DeviceId>>, lists: Lists)

  ghost predicate InStep(y: System) {
    forall s :: 0 <= s < |y.pals| ==> Agree(y.pals[s], y.lists, s)
  }

  /** The lists of one stream and of the devices after an operation of that stream. */
  function ApplyTo(pal: seq<DeviceId>, lists: Lists, op: Op): (seq<DeviceId>, Lists)
    requires Known(pal, lists)
  {
    match op
    case Add(s, d, r) => if d in lists then AddOne(pal, lists, s, d, r) else (pal, lists)
    case RemoveDevice(s, d) => Erase(pal, lists, s, k => k == d)
    case ClearOut(s) => Erase(pal, lists, s, k => !IsInput(k))
    case SwitchTo(s, news, pf) => Switch(pal, lists, s, news, pf)
  }

  lemma ApplyAgrees(pal: seq<DeviceId>, lists: Lists, op: Op)
    requires Agree(pal, lists, op.stream)
    ensures
      var (pal', lists') := ApplyTo(pal, lists, op);
      Agree(pal', lists', op.stream) && SameForOthers(lists, lists', op.stream)
  {
    match op
    case Add(s, d, r) =>
      if d in lists {
        AddAgrees(pal, lists, s, d, r);
      }
    case RemoveDevice(s, d) => EraseAgrees(pal, lists, s, k => k == d);
    case ClearOut(s) => EraseAgrees(pal, lists, s, k => !IsInput(k));
    case SwitchTo(s, news, pf) =>
      EraseAgrees(pal, lists, s, Replaced(news));
      var (kept, lists') := Erase(pal, lists, s, Replaced(news));
      EnterAgrees(kept, lists', s, news, pf);
  }

  function Step(y: System, op: Op): System {
    if op.stream < |y.pals| && Known(y.pals[op.stream], y.lists) then
      var (pal, lists) := ApplyTo(y.pals[op.stream], y.lists, op);
      System(y.pals[op.stream := pal], lists)
    else y
  }

  function Run(y: System, ops: seq<Op>): System {
    if ops == [] then y else Step(Run(y, ops[..|ops| - 1]), ops[|ops| - 1])
  }

  lemma StepInStep(y: System, op: Op)
    requires InStep(y)
    ensures InStep(Step(y, op))
  {
    if op.stream < |y.pals| {
      ApplyAgrees(y.pals[op.stream], y.lists, op);
    }
  }

  /** Over every run of adding, removing, clearing and switching by any number of streams,
      with every exit of a switch included, each device holds exactly as many entries for
      each stream as that stream lists the device. */
  lemma {:induction false} EveryRunInStep(y: System, ops: seq<Op>)
    requires InStep(y)
    ensures InStep(Run(y, ops))
  {
    if ops != [] {
      EveryRunInStep(y, ops[..|ops| - 1]);
      StepInStep(Run(y, ops[..|ops| - 1]), ops[|ops| - 1]);
    }
  }
}
