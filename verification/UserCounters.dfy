/** Who is using a stream: the user counters around API calls, callbacks and temporary mutes, the
    semaphore that a closing stream waits on, and every interleaving of the threads that use them. */
module UserCounters {

  type StreamId = nat

  const EINVAL: int := 22

  datatype Slot = Slot(count: nat, active: bool)

  /** The counters, and the semaphores of the streams that have one. */
  datatype Core = Core(slots: map<StreamId, Slot>, sems: map<StreamId, nat>)

  /** What a call does: `stuck` says that it waits for a semaphore that is taken, or touches one
      that does not exist. */
  datatype Outcome = Outcome(core: Core, rc: int, stuck: bool)

  function Init(c: Core, s: StreamId): Core {
    Core(if s in c.slots then c.slots else c.slots[s := Slot(0, true)], c.sems[s := 1])
  }

  function Increase(c: Core, s: StreamId): Outcome {
    if s !in c.slots || !c.slots[s].active then Outcome(c, -EINVAL, false)
    else
      var slot := c.slots[s];
      var more := c.slots[s := slot.(count := slot.count + 1)];
      if slot.count > 0 then Outcome(c.(slots := more), 0, false)
      else if s !in c.sems || c.sems[s] == 0 then Outcome(c, 0, true)
      else Outcome(Core(more, c.sems[s := c.sems[s] - 1]), 0, false)
  }

  function Decrease(c: Core, s: StreamId): Outcome {
    if s !in c.slots || c.slots[s].count == 0 then Outcome(c, -EINVAL, false)
    else
      var slot := c.slots[s];
      var less := c.slots[s := slot.(count := slot.count - 1)];
      if slot.count > 1 then Outcome(c.(slots := less), 0, false)
      else if s !in c.sems then Outcome(c, 0, true)
      else Outcome(Core(less, c.sems[s := c.sems[s] + 1]), 0, false)
  }

  /** The first half of a deactivation; the second half waits for the semaphore. */
  function Deactivate(c: Core, s: StreamId): Outcome {
    if s !in c.slots || !c.slots[s].active then Outcome(c, -EINVAL, false)
    else Outcome(c.(slots := c.slots[s := c.slots[s].(active := false)]), 0, false)
  }

  function Erase(c: Core, s: StreamId): Outcome {
    if s !in c.slots then Outcome(c, -EINVAL, false) else Outcome(c.(slots := c.slots - {s}), 0, false)
  }

  /** Who is refused, and that a refusal changes nothing: an increase or a deactivation, exactly by a
      stream that is unknown or closing; a decrease, exactly by one that nobody uses; and an erasure,
      exactly by one that is unknown. */
  lemma RefusedExactly(c: Core, s: StreamId)
    ensures
      var gone := s !in c.slots;
      && (Increase(c, s).rc == if gone || !c.slots[s].active then -22 else 0)
      && (Decrease(c, s).rc == if gone || c.slots[s].count == 0 then -22 else 0)
      && (Deactivate(c, s).rc == if gone || !c.slots[s].active then -22 else 0)
      && (Erase(c, s).rc == if gone then -22 else 0)
    ensures forall o <- [Increase(c, s), Decrease(c, s), Deactivate(c, s), Erase(c, s)] :: o.rc != 0 ==> o.core == c && !o.stuck
  {
  }

  // ---------------------------------------------------------------- the objects

  /** The calls that mute a stream, or end its being muted. */
  datatype Mute = Mute(stream: StreamId, on: bool)

  function Mutes(streams: seq<StreamId>, on: bool): seq<Mute> {
    seq(|streams|, i requires 0 <= i < |streams| => Mute(streams[i], on))
  }

  /** The calls made so far, then every stream muted, then every stream unmuted. */
  function MutedAndUnmuted(log: seq<Mute>, streams: seq<StreamId>): seq<Mute> {
    log + Mutes(streams, true) + Mutes(streams, false)
  }

  function Times(s: StreamId, streams: seq<StreamId>): nat {
    if streams == [] then 0 else (if streams[0] == s then 1 else 0) + Times(s, streams[1..])
  }

  lemma {:induction false} TimesAppend(s: StreamId, one: seq<StreamId>, two: seq<StreamId>)
    ensures Times(s, one + two) == Times(s, one) + Times(s, two)
  {
    if one == [] {
      assert one + two == two;
    } else {
      assert (one + two)[1..] == one[1..] + two;
      TimesAppend(s, one[1..], two);
    }
  }

  /** Streams that are in use, or free to be used: the semaphore says which. */
  ghost predicate Tidy(c: Core) {
    forall s <- c.slots :: c.slots[s].active ==> s in c.sems && c.sems[s] == if c.slots[s].count == 0 then 1 else 0
  }

  /** The counters with the given streams in use once more for every time they are listed. */
  ghost function Held(c: Core, streams: seq<StreamId>): Core {
    Core(map s | s in c.slots :: c.slots[s].(count := c.slots[s].count + Times(s, streams)),
         map s | s in c.sems :: if Times(s, streams) > 0 then 0 else c.sems[s])
  }

  predicate Usable(c: Core, s: StreamId) {
    s in c.slots && c.slots[s].active
  }

  lemma HeldNothing(c: Core)
    ensures Held(c, []) == c
  {
    assert Held(c, []).slots == c.slots && Held(c, []).sems == c.sems;
  }

  lemma HoldOneMore(c: Core, streams: seq<StreamId>, s: StreamId)
    requires Tidy(c) && forall t <- streams :: Usable(c, t)
    ensures
      var out := Increase(Held(c, streams), s);
      && !out.stuck
      && (out.rc == 0 <==> Usable(c, s))
      && out.core == if Usable(c, s) then Held(c, streams + [s]) else Held(c, streams)
  {
    forall t ensures Times(t, streams + [s]) == Times(t, streams) + if t == s then 1 else 0 {
      TimesAppend(t, streams, [s]);
    }
    var out, more := Increase(Held(c, streams), s), Held(c, streams + [s]);
    if Usable(c, s) {
      assert out.core.slots == more.slots;
      assert out.core.sems == more.sems;
    }
  }

  lemma HoldOneLess(c: Core, s: StreamId, streams: seq<StreamId>)
    requires Tidy(c) && Usable(c, s)
    ensures
      var out := Decrease(Held(c, [s] + streams), s);
      out.rc == 0 && !out.stuck && out.core == Held(c, streams)
  {
    assert ([s] + streams)[1..] == streams;
    var out, less := Decrease(Held(c, [s] + streams), s), Held(c, streams);
    assert forall t :: Times(t, [s] + streams) == Times(t, streams) + if t == s then 1 else 0;
    assert out.core.slots == less.slots;
    assert out.core.sems == less.sems;
  }

  /** One stream that shares a backend with a device to be connected. */
  datatype Shared = Shared(stream: StreamId, switches: bool, playback: bool)

  /** What a switch finds for one new device: the streams to switch along, and whether the
      configuration of the other SCO direction fails. */
  datatype Group = Group(shared: seq<Shared>, scoFails: bool)

  predicate Affected(c: Core, self: StreamId, x: Shared) {
    x.switches && x.stream != self && x.playback && Usable(c, x.stream)
  }

  function MutedOf(c: Core, self: StreamId, shared: seq<Shared>): seq<StreamId> {
    if shared == [] then []
    else
      var last := shared[|shared| - 1];
      MutedOf(c, self, shared[..|shared| - 1]) + if Affected(c, self, last) then [last.stream] else []
  }

  lemma {:induction false} MutedUsable(c: Core, self: StreamId, shared: seq<Shared>)
    ensures forall s <- MutedOf(c, self, shared) :: Usable(c, s)
  {
    if shared != [] {
      MutedUsable(c, self, shared[..|shared| - 1]);
    }
  }

  class UserCounters {
    var slots: map<StreamId, Slot>
    var sems: map<StreamId, nat>
    var mutes: seq<Mute>  // the calls made so far

    constructor ()
      ensures Value() == Core(map[], map[]) && mutes == []
    {
      slots, sems, mutes := map[], map[], [];
    }

    function Value(): Core
      reads this
    {
      Core(slots, sems)
    }

    method InitStreamUserCounter(s: StreamId)
      modifies this`slots, this`sems
      ensures Value() == Init(old(Value()), s)
    {
      if s !in slots { slots := slots[s := Slot(0, true)]; }
      sems := sems[s := 1];
    }

    method IncreaseStreamUserCounter(s: StreamId) returns (rc: int, ghost stuck: bool)
      modifies this`slots, this`sems
      ensures Outcome(Value(), rc, stuck) == Increase(old(Value()), s)
    {
      stuck := false;
      if s !in slots || !slots[s].active { return -EINVAL, false; }
      if slots[s].count == 0 {
        if s !in sems || sems[s] == 0 { return 0, true; }
        sems := sems[s := sems[s] - 1];
      }
      slots := slots[s := slots[s].(count := slots[s].count + 1)];
      rc := 0;
    }

    method DecreaseStreamUserCounter(s: StreamId) returns (rc: int, ghost stuck: bool)
      modifies this`slots, this`sems
      ensures Outcome(Value(), rc, stuck) == Decrease(old(Value()), s)
    {
      stuck := false;
      if s !in slots || slots[s].count == 0 { return -EINVAL, false; }
      if slots[s].count == 1 {
        if s !in sems { return 0, true; }
        sems := sems[s := sems[s] + 1];
      }
      slots := slots[s := slots[s].(count := slots[s].count - 1)];
      rc := 0;
    }

    method DeactivateStreamUserCounter(s: StreamId) returns (rc: int)
      modifies this`slots
      ensures Value() == Deactivate(old(Value()), s).core && rc == Deactivate(old(Value()), s).rc
    {
      if s !in slots || !slots[s].active { return -EINVAL; }
      slots := slots[s := slots[s].(active := false)];
      rc := 0;
    }

    method EraseStreamUserCounter(s: StreamId) returns (rc: int)
      modifies this`slots
      ensures Value() == Erase(old(Value()), s).core && rc == Erase(old(Value()), s).rc
    {
      if s !in slots { return -EINVAL; }
      slots := slots - {s};
      rc := 0;
    }

    /** Mutes, one by one, the streams that a new device takes along. */
    method MuteShared(self: StreamId, shared: seq<Shared>, before: seq<StreamId>, ghost start: Core)
      returns (muted: seq<StreamId>)
      requires Tidy(start) && (forall s <- before :: Usable(start, s)) && Value() == Held(start, before)
      modifies this
      ensures muted == before + MutedOf(start, self, shared)
      ensures Value() == Held(start, muted)
      ensures mutes == old(mutes) + Mutes(MutedOf(start, self, shared), true)
    {
      muted := before;
      for i := 0 to |shared|
        invariant muted == before + MutedOf(start, self, shared[..i])
        invariant Value() == Held(start, muted)
        invariant mutes == old(mutes) + Mutes(MutedOf(start, self, shared[..i]), true)
      {
        assert shared[..i + 1][..i] == shared[..i];
        MutedUsable(start, self, shared[..i]);
        ghost var so, log := MutedOf(start, self, shared[..i]), mutes;
        muted := MuteOneShared(self, shared[i], muted, start);
        ghost var one := if Affected(start, self, shared[i]) then [shared[i].stream] else [];
        MutesAppend(so, one, true);
      }
      assert shared[..|shared|] == shared;
    }

    /** Mutes one stream if it plays, is switched along and can be used. */
    method MuteOneShared(self: StreamId, x: Shared, before: seq<StreamId>, ghost start: Core) returns (muted: seq<StreamId>)
      requires Tidy(start) && (forall s <- before :: Usable(start, s)) && Value() == Held(start, before)
      modifies this
      ensures Value() == Held(start, muted)
      ensures
        var one := if Affected(start, self, x) then [x.stream] else [];
        muted == before + one && mutes == old(mutes) + Mutes(one, true)
    {
      muted := before;
      if x.switches && x.stream != self && x.playback {
        HoldOneMore(start, muted, x.stream);
        var rc, stuck := IncreaseStreamUserCounter(x.stream);
        if rc == 0 {
          mutes := mutes + [Mute(x.stream, true)];
          muted := muted + [x.stream];
        }
      }
    }

    method UnmuteAll(muted: seq<StreamId>, ghost start: Core)
      requires Tidy(start) && (forall s <- muted :: Usable(start, s)) && Value() == Held(start, muted)
      modifies this
      ensures Value() == start
      ensures mutes == old(mutes) + Mutes(muted, false)
    {
      for i := 0 to |muted|
        invariant Value() == Held(start, muted[i..])
        invariant mutes == old(mutes) + Mutes(muted[..i], false)
      {
        var s := muted[i];
        assert muted[i..] == [s] + muted[i + 1..];
        HoldOneLess(start, s, muted[i + 1..]);
        mutes := mutes + [Mute(s, false)];
        var rc, stuck := DecreaseStreamUserCounter(s);
        assert Mutes(muted[..i + 1], false) == Mutes(muted[..i], false) + [Mute(s, false)];
      }
      HeldNothing(start);
      assert muted[..|muted|] == muted;
    }

    /** The temporary mutes of a device switch, up to the group where it fails. Whichever way it
        leaves, every stream that was muted is unmuted as often, and the counters are what they
        were. */
    method SwitchDevice(self: StreamId, groups: seq<Group>) returns (failed: bool, ghost reached: nat)
      requires Tidy(Value())
      modifies this
      ensures Value() == old(Value())
      ensures reached <= |groups| && forall j :: 0 <= j < reached - 1 ==> !groups[j].scoFails
      ensures if failed then reached > 0 && groups[reached - 1].scoFails
              else reached == |groups| && (reached > 0 ==> !groups[reached - 1].scoFails)
      ensures mutes == MutedAndUnmuted(old(mutes), AllMuted(old(Value()), self, groups, reached))
      ensures forall s: StreamId :: Balance(mutes, s) == Balance(old(mutes), s)
      ensures forall s: StreamId, on: bool ::
                Calls(mutes, s, on) == Calls(old(mutes), s, on) + Due(old(Value()), self, groups[..reached], s)
      ensures MutesFirst(mutes, |old(mutes)|)
    {
      ghost var start, log := Value(), mutes;
      var muted: seq<StreamId> := [];
      HeldNothing(start);
      reached := 0;
      for i := 0 to |groups|
        invariant reached == i
        invariant forall j :: 0 <= j < i ==> !groups[j].scoFails
        invariant muted == AllMuted(start, self, groups, i)
        invariant Value() == Held(start, muted)
        invariant mutes == log + Mutes(muted, true)
      {
        muted := MuteGroup(self, groups, i, muted, start, log);
        reached := i + 1;
        if groups[i].scoFails {
          UnmuteGroups(self, groups, i + 1, muted, start, log);
          SwitchBalances(start, self, groups, i + 1, log);
          return true, reached;
        }
      }
      UnmuteGroups(self, groups, |groups|, muted, start, log);
      SwitchBalances(start, self, groups, |groups|, log);
      failed := false;
    }

    /** The way out, wherever it is taken. */
    method UnmuteGroups(ghost self: StreamId, ghost groups: seq<Group>, ghost n: nat, muted: seq<StreamId>, ghost start: Core, ghost log: seq<Mute>)
      requires n <= |groups| && Tidy(start) && muted == AllMuted(start, self, groups, n) && Value() == Held(start, muted)
      requires mutes == log + Mutes(muted, true)
      modifies this
      ensures Value() == start && mutes == MutedAndUnmuted(log, muted)
    {
      AllMutedUsable(start, self, groups, n);
      UnmuteAll(muted, start);
    }

    /** The mutes for one new device, after those for the devices before it. */
    method MuteGroup(self: StreamId, groups: seq<Group>, i: nat, before: seq<StreamId>, ghost start: Core, ghost log: seq<Mute>)
      returns (muted: seq<StreamId>)
      requires i < |groups| && Tidy(start)
      requires before == AllMuted(start, self, groups, i) && Value() == Held(start, before)
      requires mutes == log + Mutes(before, true)
      modifies this
      ensures muted == AllMuted(start, self, groups, i + 1) && Value() == Held(start, muted)
      ensures mutes == log + Mutes(muted, true)
    {
      AllMutedUsable(start, self, groups, i);
      muted := MuteShared(self, groups[i].shared, before, start);
      MutesAppend(before, MutedOf(start, self, groups[i].shared), true);
    }
  }

  lemma MutesAppend(one: seq<StreamId>, two: seq<StreamId>, on: bool)
    ensures Mutes(one + two, on) == Mutes(one, on) + Mutes(two, on)
  {
  }

  lemma {:induction false} AllMutedUsable(c: Core, self: StreamId, groups: seq<Group>, n: nat)
    requires n <= |groups|
    ensures forall s <- AllMuted(c, self, groups, n) :: Usable(c, s)
  {
    if n > 0 {
      AllMutedUsable(c, self, groups, n - 1);
      MutedUsable(c, self, groups[n - 1].shared);
    }
  }

  /** What the first n groups mute. */
  function AllMuted(c: Core, self: StreamId, groups: seq<Group>, n: nat): seq<StreamId>
    requires n <= |groups|
  {
    if n == 0 then [] else AllMuted(c, self, groups, n - 1) + MutedOf(c, self, groups[n - 1].shared)
  }

  /** How often a stream has been muted, or unmuted. */
  function Calls(mutes: seq<Mute>, s: StreamId, on: bool): nat {
    if mutes == [] then 0
    else Calls(mutes[..|mutes| - 1], s, on) + if mutes[|mutes| - 1] == Mute(s, on) then 1 else 0
  }

  /** How often a switch has to mute a stream: for every entry of it that plays and is switched along,
      unless it is the stream that is switched itself or is on its way out. */
  function DueIn(c: Core, self: StreamId, shared: seq<Shared>, s: StreamId): nat {
    if shared == [] then 0
    else
      var x := shared[0];
      (if x.stream == s && x.switches && x.playback && s != self && s in c.slots && c.slots[s].active then 1 else 0)
      + DueIn(c, self, shared[1..], s)
  }

  function Due(c: Core, self: StreamId, groups: seq<Group>, s: StreamId): nat {
    if groups == [] then 0 else DueIn(c, self, groups[0].shared, s) + Due(c, self, groups[1..], s)
  }

  /** From a place on, no stream is muted after one has been unmuted. */
  predicate MutesFirst(mutes: seq<Mute>, from: nat) {
    forall i, j :: from <= i < j < |mutes| && mutes[j].on ==> mutes[i].on
  }

  lemma {:induction false} CallsAppend(one: seq<Mute>, two: seq<Mute>, s: StreamId, on: bool)
    ensures Calls(one + two, s, on) == Calls(one, s, on) + Calls(two, s, on)
  {
    if two == [] {
      assert one + two == one;
    } else {
      var n := |two| - 1;
      assert (one + two)[..|one| + n] == one + two[..n];
      CallsAppend(one, two[..n], s, on);
    }
  }

  lemma {:induction false} CallsOfMutes(streams: seq<StreamId>, on: bool, s: StreamId, asked: bool)
    ensures Calls(Mutes(streams, on), s, asked) == if on == asked then Times(s, streams) else 0
    ensures Balance(Mutes(streams, on), s) == if on then Times(s, streams) else 0 - Times(s, streams)
  {
    if streams != [] {
      var head, rest := [Mute(streams[0], on)], Mutes(streams[1..], on);
      CallsOfMutes(streams[1..], on, s, asked);
      assert Mutes(streams, on) == head + rest;
      CallsAppend(head, rest, s, asked);
      BalanceAppend(head, rest, s);
      assert head[..0] == [];
    }
  }

  lemma {:induction false} DueInAppend(c: Core, self: StreamId, shared: seq<Shared>, x: Shared, s: StreamId)
    ensures DueIn(c, self, shared + [x], s) == DueIn(c, self, shared, s) + DueIn(c, self, [x], s)
  {
    if shared == [] {
      assert shared + [x] == [x];
    } else {
      assert (shared + [x])[1..] == shared[1..] + [x];
      DueInAppend(c, self, shared[1..], x, s);
    }
  }

  lemma {:induction false} MutedAsDue(c: Core, self: StreamId, shared: seq<Shared>, s: StreamId)
    ensures Times(s, MutedOf(c, self, shared)) == DueIn(c, self, shared, s)
  {
    if shared != [] {
      var init, last := shared[..|shared| - 1], shared[|shared| - 1];
      assert shared == init + [last];
      MutedAsDue(c, self, init, s);
      DueInAppend(c, self, init, last, s);
      TimesAppend(s, MutedOf(c, self, init), if Affected(c, self, last) then [last.stream] else []);
      assert [last][1..] == [];
    }
  }

  lemma {:induction false} DueAppend(c: Core, self: StreamId, groups: seq<Group>, g: Group, s: StreamId)
    ensures Due(c, self, groups + [g], s) == Due(c, self, groups, s) + DueIn(c, self, g.shared, s)
  {
    if groups == [] {
      assert groups + [g] == [g] && [g][1..] == [];
    } else {
      assert (groups + [g])[1..] == groups[1..] + [g];
      DueAppend(c, self, groups[1..], g, s);
    }
  }

  lemma {:induction false} AllMutedAsDue(c: Core, self: StreamId, groups: seq<Group>, n: nat, s: StreamId)
    requires n <= |groups|
    ensures Times(s, AllMuted(c, self, groups, n)) == Due(c, self, groups[..n], s)
  {
    if n > 0 {
      AllMutedAsDue(c, self, groups, n - 1, s);
      MutedAsDue(c, self, groups[n - 1].shared, s);
      TimesAppend(s, AllMuted(c, self, groups, n - 1), MutedOf(c, self, groups[n - 1].shared));
      assert groups[..n] == groups[..n - 1] + [groups[n - 1]];
      DueAppend(c, self, groups[..n - 1], groups[n - 1], s);
    }
  }

  /** A switch mutes as often as is due, unmutes as often, and so leaves every stream as it was. */
  lemma SwitchBalances(c: Core, self: StreamId, groups: seq<Group>, n: nat, log: seq<Mute>)
    requires n <= |groups|
    ensures
      var after := MutedAndUnmuted(log, AllMuted(c, self, groups, n));
      && (forall s: StreamId :: Balance(after, s) == Balance(log, s))
      && (forall s: StreamId, on: bool :: Calls(after, s, on) == Calls(log, s, on) + Due(c, self, groups[..n], s))
      && MutesFirst(after, |log|)
  {
    var all := AllMuted(c, self, groups, n);
    forall s: StreamId ensures Balance(MutedAndUnmuted(log, all), s) == Balance(log, s) {
      BalanceAppend(log + Mutes(all, true), Mutes(all, false), s);
      BalanceAppend(log, Mutes(all, true), s);
      CallsOfMutes(all, true, s, true);
      CallsOfMutes(all, false, s, true);
    }
    forall s: StreamId, on: bool
      ensures Calls(MutedAndUnmuted(log, all), s, on) == Calls(log, s, on) + Due(c, self, groups[..n], s)
    {
      CallsAppend(log + Mutes(all, true), Mutes(all, false), s, on);
      CallsAppend(log, Mutes(all, true), s, on);
      CallsOfMutes(all, true, s, on);
      CallsOfMutes(all, false, s, on);
      AllMutedAsDue(c, self, groups, n, s);
    }
  }

  // ---------------------------------------------------------------- all interleavings

  /** How far the one successful closer of a stream has come. */
  datatype Life = InUse | Waiting | Acquired | SemaphoreGone | CounterGone

  /** A thread: the streams of the API calls and callbacks it is in the middle of, innermost last,
      and the streams that the switch it carries out has muted. */
  datatype Thread = Thread(calls: seq<StreamId>, muted: seq<StreamId>)

  datatype System = System(core: Core, life: map<StreamId, Life>, threads: seq<Thread>, mutes: seq<Mute>)

  datatype Action =
    | Open(stream: StreamId)
    | Begin(thread: nat, stream: StreamId)  // of an API call, or of a mixer callback
    | Finish(thread: nat)
    | MuteOne(thread: nat, stream: StreamId)
    | UnmuteAll(thread: nat)  // on the way out of a switch
    | StartClosing(stream: StreamId)
    | Await(stream: StreamId)
    | DropSemaphore(stream: StreamId)
    | DropCounter(stream: StreamId)
    | Destroy(stream: StreamId)

  function Holds(t: Thread, s: StreamId): nat {
    Times(s, t.calls) + Times(s, t.muted)
  }

  /** How often a stream is held, over all threads. */
  function Holders(threads: seq<Thread>, s: StreamId): nat {
    if threads == [] then 0 else Holders(threads[..|threads| - 1], s) + Holds(threads[|threads| - 1], s)
  }

  function MutedNow(threads: seq<Thread>, s: StreamId): nat {
    if threads == [] then 0
    else MutedNow(threads[..|threads| - 1], s) + Times(s, threads[|threads| - 1].muted)
  }

  /** How often a stream has been muted and not unmuted. */
  function Balance(mutes: seq<Mute>, s: StreamId): int {
    if mutes == [] then 0
    else
      var last := mutes[|mutes| - 1];
      Balance(mutes[..|mutes| - 1], s) + if last.stream != s then 0 else if last.on then 1 else -1
  }

  /** The unmuting loop, front to back. */
  function Release(c: Core, streams: seq<StreamId>): Core
    decreases |streams|
  {
    if streams == [] then c else Release(Decrease(c, streams[0]).core, streams[1..])
  }

  /** What an action does; an action that its thread or stream is not ready for does nothing. */
  function Step(y: System, a: Action): System {
    match a
    case Open(s) =>
      if s in y.life then y else y.(core := Init(y.core, s), life := y.life[s := InUse])
    case Begin(t, s) =>
      if t >= |y.threads| then y
      else
        var out := Increase(y.core, s);
        if out.rc != 0 || out.stuck then y
        else
          var th := y.threads[t];
          y.(core := out.core, threads := y.threads[t := th.(calls := th.calls + [s])])
    case Finish(t) =>
      if t >= |y.threads| || y.threads[t].calls == [] then y
      else
        var th := y.threads[t];
        var n := |th.calls| - 1;
        y.(core := Decrease(y.core, th.calls[n]).core, threads := y.threads[t := th.(calls := th.calls[..n])])
    case MuteOne(t, s) =>
      if t >= |y.threads| then y
      else
        var out := Increase(y.core, s);
        if out.rc != 0 || out.stuck then y
        else
          var th := y.threads[t];
          System(out.core, y.life, y.threads[t := th.(muted := th.muted + [s])], y.mutes + [Mute(s, true)])
    case UnmuteAll(t) =>
      if t >= |y.threads| then y
      else
        var th := y.threads[t];
        System(Release(y.core, th.muted), y.life, y.threads[t := th.(muted := [])], y.mutes + Mutes(th.muted, false))
    case StartClosing(s) =>
      var out := Deactivate(y.core, s);
      if out.rc != 0 then y else y.(core := out.core, life := y.life[s := Waiting])
    case Await(s) =>
      if s !in y.life || y.life[s] != Waiting || s !in y.core.sems || y.core.sems[s] == 0 then y
      else y.(core := y.core.(sems := y.core.sems[s := y.core.sems[s] - 1]), life := y.life[s := Acquired])
    case DropSemaphore(s) =>
      if s !in y.life || y.life[s] != Acquired then y
      else y.(core := y.core.(sems := y.core.sems - {s}), life := y.life[s := SemaphoreGone])
    case DropCounter(s) =>
      if s !in y.life || y.life[s] != SemaphoreGone then y
      else y.(core := Erase(y.core, s).core, life := y.life[s := CounterGone])
    case Destroy(s) =>
      if s !in y.life || y.life[s] != CounterGone then y else y.(life := y.life - {s})
  }

  function Execute(y: System, actions: seq<Action>): System {
    if actions == [] then y else Step(Execute(y, actions[..|actions| - 1]), actions[|actions| - 1])
  }

  /** How one stream's counter, semaphore and closer stand to each other when it is held n times. */
  ghost predicate InOrder(c: Core, life: map<StreamId, Life>, s: StreamId, n: nat) {
    && (s in c.slots <==> s in life && life[s] != CounterGone)
    && (s in c.slots ==> c.slots[s].count == n && (c.slots[s].active <==> life[s] == InUse))
    && (s in c.sems <==> s in life && life[s] in {InUse, Waiting, Acquired})
    && (s in life && life[s] in {InUse, Waiting} ==> c.sems[s] == if n == 0 then 1 else 0)
    && (s !in life || life[s] !in {InUse, Waiting} ==> n == 0)
    && (s in life && life[s] == Acquired ==> c.sems[s] == 0)
  }

  ghost predicate SoundFor(y: System, s: StreamId) {
    InOrder(y.core, y.life, s, Holders(y.threads, s)) && Balance(y.mutes, s) == MutedNow(y.threads, s)
  }

  ghost predicate Sound(y: System) {
    forall s: StreamId :: SoundFor(y, s)
  }

  lemma {:induction false} HoldersUpdate(threads: seq<Thread>, t: nat, th: Thread, s: StreamId)
    requires t < |threads|
    ensures Holders(threads[t := th], s) == Holders(threads, s) - Holds(threads[t], s) + Holds(th, s)
    ensures MutedNow(threads[t := th], s) == MutedNow(threads, s) - Times(s, threads[t].muted) + Times(s, th.muted)
  {
    var n := |threads| - 1;
    if t < n {
      HoldersUpdate(threads[..n], t, th, s);
      assert threads[t := th][..n] == threads[..n][t := th];
    } else {
      assert threads[t := th][..n] == threads[..n];
    }
  }

  lemma {:induction false} HoldersAtLeast(threads: seq<Thread>, t: nat, s: StreamId)
    requires t < |threads|
    ensures Holders(threads, s) >= Holds(threads[t], s)
  {
    var n := |threads| - 1;
    if t < n {
      HoldersAtLeast(threads[..n], t, s);
    }
  }

  lemma {:induction false} BalanceAppend(one: seq<Mute>, two: seq<Mute>, s: StreamId)
    ensures Balance(one + two, s) == Balance(one, s) + Balance(two, s)
  {
    if two == [] {
      assert one + two == one;
    } else {
      var n := |two| - 1;
      assert (one + two)[..|one| + n] == one + two[..n];
      BalanceAppend(one, two[..n], s);
    }
  }

  /** While a stream is held, decreasing keeps order; no semaphore that is gone is touched. */
  lemma DecreaseInOrder(c: Core, life: map<StreamId, Life>, s: StreamId, x: StreamId, n: nat)
    requires InOrder(c, life, s, n) && n > 0
    ensures
      var out := Decrease(c, s);
      && out.rc == 0 && !out.stuck
      && InOrder(out.core, life, s, n - 1)
      && (forall m :: x != s && InOrder(c, life, x, m) ==> InOrder(out.core, life, x, m))
  {
  }

  lemma IncreaseInOrder(c: Core, life: map<StreamId, Life>, s: StreamId, x: StreamId, n: nat)
    requires InOrder(c, life, s, n)
    ensures
      var out := Increase(c, s);
      && !out.stuck
      && (out.rc == 0 <==> s in life && life[s] == InUse)
      && (out.rc == 0 ==> InOrder(out.core, life, s, n + 1))
      && (forall m :: x != s && InOrder(c, life, x, m) ==> InOrder(out.core, life, x, m))
  {
  }

  lemma {:induction false} ReleaseInOrder(c: Core, life: map<StreamId, Life>, streams: seq<StreamId>, s: StreamId, n: nat)
    requires InOrder(c, life, s, n) && n >= Times(s, streams)
    ensures InOrder(Release(c, streams), life, s, n - Times(s, streams))
    decreases |streams|
  {
    if streams != [] {
      var less := Decrease(c, streams[0]).core;
      ReleaseInOrder(less, life, streams[1..], s, if streams[0] == s then n - 1 else n);
    }
  }

  lemma FinishSound(y: System, t: nat)
    requires Sound(y)
    ensures Sound(Step(y, Finish(t)))
  {
    if t < |y.threads| && y.threads[t].calls != [] {
      var th := y.threads[t];
      var n := |th.calls| - 1;
      var s := th.calls[n];
      var after := Step(y, Finish(t));
      forall x: StreamId ensures SoundFor(after, x) {
        OneLessHold(y.threads, t, x);
        assert SoundFor(y, x);
      }
    }
  }

  lemma BeginSound(y: System, t: nat, s: StreamId)
    requires Sound(y)
    ensures Sound(Step(y, Begin(t, s)))
  {
    if t < |y.threads| && Increase(y.core, s).rc == 0 && !Increase(y.core, s).stuck {
      var th := y.threads[t];
      var after := Step(y, Begin(t, s));
      forall x: StreamId ensures SoundFor(after, x) {
        OneMoreHold(y.threads, t, s, x);
        assert SoundFor(y, x);
      }
    }
  }

  lemma MuteOneSound(y: System, t: nat, s: StreamId)
    requires Sound(y)
    ensures Sound(Step(y, MuteOne(t, s)))
  {
    if t < |y.threads| && Increase(y.core, s).rc == 0 && !Increase(y.core, s).stuck {
      var th := y.threads[t];
      var after := Step(y, MuteOne(t, s));
      forall x: StreamId ensures SoundFor(after, x) {
        OneMoreHold(y.threads, t, s, x);
        BalanceAppend(y.mutes, [Mute(s, true)], x);
        assert Balance([Mute(s, true)], x) == if x == s then 1 else 0;
        assert SoundFor(y, x);
      }
    }
  }

  lemma UnmuteAllSound(y: System, t: nat)
    requires Sound(y)
    ensures Sound(Step(y, UnmuteAll(t)))
  {
    if t < |y.threads| {
      var th := y.threads[t];
      var after := Step(y, UnmuteAll(t));
      forall x: StreamId ensures SoundFor(after, x) {
        assert SoundFor(y, x);
        HoldersAtLeast(y.threads, t, x);
        HoldersUpdate(y.threads, t, th.(muted := []), x);
        BalanceAppend(y.mutes, Mutes(th.muted, false), x);
        CallsOfMutes(th.muted, false, x, false);
        ReleaseInOrder(y.core, y.life, th.muted, x, Holders(y.threads, x));
      }
    }
  }

  lemma ClosingSound(y: System, a: Action)
    requires Sound(y)
    requires a.Open? || a.StartClosing? || a.Await? || a.DropSemaphore? || a.DropCounter? || a.Destroy?
    ensures Sound(Step(y, a))
  {
    var after := Step(y, a);
    forall x: StreamId ensures SoundFor(after, x) {
      assert SoundFor(y, x) && SoundFor(y, a.stream);
    }
  }

  lemma StepSound(y: System, a: Action)
    requires Sound(y)
    ensures Sound(Step(y, a))
  {
    match a
    case Begin(t, s) => BeginSound(y, t, s);
    case Finish(t) => FinishSound(y, t);
    case MuteOne(t, s) => MuteOneSound(y, t, s);
    case UnmuteAll(t) => UnmuteAllSound(y, t);
    case _ => ClosingSound(y, a);
  }

  predicate Idle(threads: seq<Thread>) {
    forall i :: 0 <= i < |threads| ==> threads[i].calls == [] && threads[i].muted == []
  }

  ghost predicate Fresh(y: System) {
    y.core == Core(map[], map[]) && y.life == map[] && y.mutes == [] && Idle(y.threads)
  }

  lemma {:induction false} NobodyHolds(threads: seq<Thread>, s: StreamId)
    requires Idle(threads)
    ensures Holders(threads, s) == 0 && MutedNow(threads, s) == 0
  {
    if threads != [] {
      NobodyHolds(threads[..|threads| - 1], s);
    }
  }

  /** In every interleaving: a stream's counter equals the calls that are between their increase and
      their decrease plus its entries in the lists of muted streams, its semaphore is free exactly
      when that is zero, and it is muted as often as it is listed. */
  lemma {:induction false} CountersConserved(y: System, actions: seq<Action>)
    requires Fresh(y)
    ensures Sound(Execute(y, actions))
  {
    if actions == [] {
      forall s: StreamId ensures SoundFor(y, s) {
        NobodyHolds(y.threads, s);
      }
    } else {
      CountersConserved(y, actions[..|actions| - 1]);
      StepSound(Execute(y, actions[..|actions| - 1]), actions[|actions| - 1]);
    }
  }

  /** No thread ever waits while it holds the lock on the streams, nor touches a semaphore that is
      gone: an increase finds the semaphore free if it needs it, and is refused exactly if the
      stream is not there or on its way out; the decrease that ends a call succeeds. */
  lemma NeverStuck(y: System, actions: seq<Action>, s: StreamId)
    requires Fresh(y)
    ensures
      var z := Execute(y, actions);
      && !Increase(z.core, s).stuck
      && (Increase(z.core, s).rc == 0 <==> s in z.life && z.life[s] == InUse)
      && (Holders(z.threads, s) > 0 ==> Decrease(z.core, s).rc == 0 && !Decrease(z.core, s).stuck)
  {
    CountersConserved(y, actions);
    var z := Execute(y, actions);
    assert SoundFor(z, s);
    IncreaseInOrder(z.core, z.life, s, s, Holders(z.threads, s));
    if Holders(z.threads, s) > 0 {
      DecreaseInOrder(z.core, z.life, s, s, Holders(z.threads, s));
    }
  }

  /** A closing stream gets past its semaphore exactly when nobody holds it any more, and from then
      on until it is destroyed nobody does. */
  lemma ClosesOnlyUnheld(y: System, actions: seq<Action>, s: StreamId)
    requires Fresh(y) && s in Execute(y, actions).life
    ensures
      var z := Execute(y, actions);
      && (z.life[s] == Waiting ==> (Step(z, Await(s)).life[s] == Acquired <==> Holders(z.threads, s) == 0))
      && (z.life[s] in {Acquired, SemaphoreGone, CounterGone} ==> Holders(z.threads, s) == 0)
  {
    CountersConserved(y, actions);
    var z := Execute(y, actions);
    assert SoundFor(z, s);
  }

  /** Once a stream is on its way out, no step adds a holder. */
  lemma NoNewHolders(y: System, actions: seq<Action>, s: StreamId, a: Action)
    requires Fresh(y)
    requires s in Execute(y, actions).life && Execute(y, actions).life[s] != InUse
    ensures
      var z := Execute(y, actions);
      Holders(Step(z, a).threads, s) <= Holders(z.threads, s)
  {
    var z := Execute(y, actions);
    CountersConserved(y, actions);
    assert SoundFor(z, s);
    IncreaseInOrder(z.core, z.life, s, s, Holders(z.threads, s));
    RefusedGainsNothing(z, a, s);
  }

  /** A stream that refuses new users gains no holder in any step. */
  lemma RefusedGainsNothing(z: System, a: Action, s: StreamId)
    requires Increase(z.core, s).rc != 0
    ensures Holders(Step(z, a).threads, s) <= Holders(z.threads, s)
  {
    match a
    case Begin(t, x) => BeginElsewhere(z, t, x, s);
    case MuteOne(t, x) => MuteElsewhere(z, t, x, s);
    case Finish(t) =>
      if t < |z.threads| && z.threads[t].calls != [] {
        OneLessHold(z.threads, t, s);
      }
    case UnmuteAll(t) =>
      if t < |z.threads| {
        HoldersUpdate(z.threads, t, z.threads[t].(muted := []), s);
      }
    case _ =>
  }

  lemma BeginElsewhere(z: System, t: nat, x: StreamId, s: StreamId)
    requires Increase(z.core, s).rc != 0
    ensures Holders(Step(z, Begin(t, x)).threads, s) == Holders(z.threads, s)
  {
    if t < |z.threads| && x != s { OneMoreHold(z.threads, t, x, s); }
  }

  lemma MuteElsewhere(z: System, t: nat, x: StreamId, s: StreamId)
    requires Increase(z.core, s).rc != 0
    ensures Holders(Step(z, MuteOne(t, x)).threads, s) == Holders(z.threads, s)
  {
    if t < |z.threads| && x != s { OneMoreHold(z.threads, t, x, s); }
  }

  /** A thread that comes to the end of its innermost call. */
  lemma OneLessHold(threads: seq<Thread>, t: nat, s: StreamId)
    requires t < |threads| && threads[t].calls != []
    ensures
      var th := threads[t];
      var n := |th.calls| - 1;
      var done := threads[t := th.(calls := th.calls[..n])];
      && Holders(threads, s) == Holders(done, s) + (if th.calls[n] == s then 1 else 0)
      && MutedNow(done, s) == MutedNow(threads, s)
  {
    var th := threads[t];
    var n := |th.calls| - 1;
    assert th.calls == th.calls[..n] + [th.calls[n]];
    TimesAppend(s, th.calls[..n], [th.calls[n]]);
    HoldersUpdate(threads, t, th.(calls := th.calls[..n]), s);
  }

  /** A thread that takes up one more stream, for a call or to mute it. */
  lemma OneMoreHold(threads: seq<Thread>, t: nat, x: StreamId, s: StreamId)
    requires t < |threads|
    ensures
      var th := threads[t];
      var calling, muting := threads[t := th.(calls := th.calls + [x])], threads[t := th.(muted := th.muted + [x])];
      var more := if x == s then 1 else 0;
      && Holders(calling, s) == Holders(threads, s) + more && MutedNow(calling, s) == MutedNow(threads, s)
      && Holders(muting, s) == Holders(threads, s) + more && MutedNow(muting, s) == MutedNow(threads, s) + more
  {
    var th := threads[t];
    TimesAppend(s, th.calls, [x]);
    TimesAppend(s, th.muted, [x]);
    HoldersUpdate(threads, t, th.(calls := th.calls + [x]), s);
    HoldersUpdate(threads, t, th.(muted := th.muted + [x]), s);
  }

  /** Of all the attempts to close a stream, one is let through: after it every other is refused
      until the stream is gone. */
  lemma OneCloser(y: System, actions: seq<Action>, s: StreamId)
    requires Fresh(y)
    ensures
      var z := Execute(y, actions);
      Deactivate(z.core, s).rc == 0 <==> s in z.life && z.life[s] == InUse
  {
    CountersConserved(y, actions);
    var z := Execute(y, actions);
    assert SoundFor(z, s);
  }
}
