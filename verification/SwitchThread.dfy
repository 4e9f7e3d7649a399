/** The thread that counts down a deferred switch back to LPI, interleaved with the events
    of the switch machine. Every stretch of code under the thread's mutex is one step. */
module SwitchThread {
  import opened LowPowerSwitch

  /** Where the thread is between two steps: at the loop guard, waiting on the condition
      variable, sleeping one second, about to handle the deferred switch, about to take the
      mutex again after that, or finished. */
  datatype Pc = Top | Waiting | Sleeping | Handling | Relock | Done

  /** `wakeLog` records the calls for the wake lock, true for acquiring it. `notified` is
      meant only while waiting. */
  datatype System = System(
    core: Core,
    pc: Pc,
    held: bool,
    notified: bool,
    exit: bool,
    wakeLog: seq<bool>)

  const START: System := System(INITIAL, Top, false, false, false, [])

  datatype Action =
    | Environment(event: Event)
    | Exit
    | Thread(spurious: bool, online: bool, buffering: bool)

  /** The part of the loop body that the thread runs holding the mutex, up to the point
      where it lets go of it. */
  function LoopBody(s: System): System {
    if s.core.countdown > 0 then s.(core := s.core.(countdown := s.core.countdown - 1), pc := Sleeping)
    else if s.core.countdown == 0 then s.(pc := Handling)
    else s.(pc := Top)
  }

  function Acquire(s: System): System {
    s.(held := true, wakeLog := s.wakeLog + [true])
  }

  function Release(s: System): System {
    s.(held := false, wakeLog := s.wakeLog + [false])
  }

  function ThreadStep(c: Config, s: System, spurious: bool, online: bool, buffering: bool): System {
    match s.pc
    case Top =>
      if s.exit then s.(pc := Done)
      else if s.core.countdown < 0 then (if s.held then Release(s) else s).(pc := Waiting, notified := false)
      else LoopBody(s)
    case Waiting =>
      if !s.notified && !spurious then s
      else if s.exit then Release(Acquire(s)).(pc := Done)
      else LoopBody(Acquire(s))
    case Sleeping => s.(pc := if s.core.countdown == 0 then Handling else Top)
    case Handling => s.(core := OnHandleDeferred(s.core, online, buffering).core, pc := Relock)
    case Relock =>
      s.(core := if s.core.countdown == 0 then s.core.(countdown := -1) else s.core, pc := Top)
    case Done => s
  }

  /** An armed countdown notifies the waiting thread. */
  function EnvironmentStep(c: Config, s: System, e: Event): System {
    var core := Step(c, s.core, e).core;
    s.(core := core, notified := s.notified || core.countdown == SWITCH_DELAY)
  }

  function Next(c: Config, s: System, a: Action): System {
    match a
    case Environment(e) => EnvironmentStep(c, s, e)
    case Exit => s.(exit := true, notified := true)
    case Thread(spurious, online, buffering) => ThreadStep(c, s, spurious, online, buffering)
  }

  function Execute(c: Config, s: System, actions: seq<Action>): System {
    if actions == [] then s
    else Next(c, Execute(c, s, actions[..|actions| - 1]), actions[|actions| - 1])
  }

  // ---------------------------------------------------------------- invariants

  /** Acquires and releases strictly in turn, starting with an acquire. */
  predicate InTurn(log: seq<bool>) {
    forall i :: 0 <= i < |log| ==> (log[i] <==> i % 2 == 0)
  }

  predicate Sound(s: System) {
    && -1 <= s.core.countdown <= 5
    && InTurn(s.wakeLog) && (s.held <==> |s.wakeLog| % 2 == 1)
    && (s.pc == Waiting ==> !s.held)
    && (s.pc == Waiting && !s.notified ==> s.core.countdown == -1 && !s.exit)
  }

  /** An event leaves the countdown alone, stops it, or sets it to its full length. */
  lemma EventCountdown(c: Config, s: Core, e: Event)
    ensures Step(c, s, e).core.countdown in {s.countdown, -1, SWITCH_DELAY}
  {
  }

  lemma NextSound(c: Config, s: System, a: Action)
    requires Sound(s)
    ensures Sound(Next(c, s, a))
  {
    if a.Environment? {
      EventCountdown(c, s.core, a.event);
    }
  }

  /** In every interleaving: the countdown stays between -1 and its full length, the wake
      lock is acquired and released strictly in turn and is never held while the thread
      waits, and a thread waiting un-notified has nothing to count and nothing to exit for
      (no wake-up is lost). */
  lemma {:induction false} EveryInterleavingSound(c: Config, actions: seq<Action>)
    ensures Sound(Execute(c, START, actions))
  {
    if actions != [] {
      EveryInterleavingSound(c, actions[..|actions| - 1]);
      NextSound(c, Execute(c, START, actions[..|actions| - 1]), actions[|actions| - 1]);
    }
  }

  // ---------------------------------------------------------------- counting down

  predicate EntersHandling(c: Config, s: System, a: Action) {
    s.pc != Handling && Next(c, s, a).pc == Handling
  }

  /** No event re-arms or cancels the countdown, nobody asks the thread to exit, and the
      thread has not come to the point of handling the switch. */
  predicate Undisturbed(c: Config, s: System, actions: seq<Action>) {
    actions != [] ==>
      var before := Execute(c, s, actions[..|actions| - 1]);
      var a := actions[|actions| - 1];
      && Undisturbed(c, s, actions[..|actions| - 1])
      && !a.Exit?
      && (a.Environment? ==> Next(c, before, a).core.countdown == before.core.countdown)
      && !EntersHandling(c, before, a)
  }

  function Decrements(c: Config, s: System, actions: seq<Action>): nat {
    if actions == [] then 0
    else
      var before := Execute(c, s, actions[..|actions| - 1]);
      var a := actions[|actions| - 1];
      Decrements(c, s, actions[..|actions| - 1])
      + if a.Thread? && Next(c, before, a).core.countdown == before.core.countdown - 1 then 1 else 0
  }

  function ThreadSteps(actions: seq<Action>): nat {
    if actions == [] then 0
    else ThreadSteps(actions[..|actions| - 1]) + if actions[|actions| - 1].Thread? then 1 else 0
  }

  /** Thread steps left, counting the one that comes to the handling of the switch. */
  function StepsLeft(s: System): int {
    match s.pc
    case Top => 2 * s.core.countdown + 1
    case Waiting => 2 * s.core.countdown + 1
    case Sleeping => 2 * s.core.countdown + 2
    case Relock => 2 * s.core.countdown + 2
    case Handling => 2 * s.core.countdown + 3
    case Done => 0
  }

  /** The thread is counting for the deferral that armed it: a waiting thread will wake up,
      and one that is still handling an earlier deferral has not begun to count. */
  predicate Counting(s: System) {
    && !s.exit && s.pc != Done
    && 0 <= s.core.countdown <= SWITCH_DELAY
    && (s.pc == Waiting ==> s.notified)
    && (s.pc == Top || s.pc == Waiting ==> s.core.countdown > 0)
    && (s.pc == Handling || s.pc == Relock ==> s.core.countdown == SWITCH_DELAY)
  }

  lemma CountingStep(c: Config, s: System, a: Action)
    requires Counting(s) && !a.Exit?
    requires a.Environment? ==> Next(c, s, a).core.countdown == s.core.countdown
    ensures !EntersHandling(c, s, a) ==>
      && Counting(Next(c, s, a))
      && StepsLeft(Next(c, s, a)) == StepsLeft(s) - (if a.Thread? then 1 else 0)
    ensures a.Thread? ==> (EntersHandling(c, s, a) <==> s.pc == Sleeping && s.core.countdown == 0)
    ensures a.Environment? ==> !EntersHandling(c, s, a)
  {
  }

  /** From the moment the countdown is armed and as long as it is left alone, it has lost
      one for each decrement, and every step the thread gets brings it closer to handling
      the switch; when it comes to that, it has decremented exactly five times. */
  lemma {:induction false} HandledAfterFiveDecrements(c: Config, s: System, actions: seq<Action>)
    requires Counting(s) && s.core.countdown == SWITCH_DELAY
    requires Undisturbed(c, s, actions)
    ensures
      var t := Execute(c, s, actions);
      && Counting(t)
      && t.core.countdown == SWITCH_DELAY - Decrements(c, s, actions)
      && 1 <= StepsLeft(t) == StepsLeft(s) - ThreadSteps(actions)
      && (forall a: Action | a.Thread? && EntersHandling(c, t, a) :: Decrements(c, s, actions) == 5)
      && (forall a: Action | a.Thread? && ThreadSteps(actions) == StepsLeft(s) - 2 :: EntersHandling(c, t, a))
  {
    if actions != [] {
      HandledAfterFiveDecrements(c, s, actions[..|actions| - 1]);
      CountingStep(c, Execute(c, s, actions[..|actions| - 1]), actions[|actions| - 1]);
    }
    var t := Execute(c, s, actions);
    forall a: Action | a.Thread?
      ensures EntersHandling(c, t, a) <==> t.pc == Sleeping && t.core.countdown == 0
    {
      CountingStep(c, t, a);
    }
  }

  /** A thread that arms itself into a sound, unfinished system is counting at once. */
  lemma ArmedIsCounting(s: System)
    requires Sound(s) && !s.exit && s.pc != Done && s.core.countdown == SWITCH_DELAY
    ensures Counting(s) && StepsLeft(s) <= 2 * SWITCH_DELAY + 3
  {
  }

  // ---------------------------------------------------------------- after the handling

  /** In every interleaving, a thread at the loop guard or waiting has no countdown that has run out:
      what has been handled has been put away. */
  lemma {:induction false} NothingLeftToHandle(c: Config, actions: seq<Action>)
    ensures
      var s := Execute(c, START, actions);
      s.pc == Top || s.pc == Waiting ==> s.core.countdown != 0
  {
    if actions != [] {
      var before, a := Execute(c, START, actions[..|actions| - 1]), actions[|actions| - 1];
      NothingLeftToHandle(c, actions[..|actions| - 1]);
      if a.Environment? {
        EventCountdown(c, before.core, a.event);
      }
    }
  }

  function ThreadTwice(c: Config, s: System, a: Action, b: Action): System {
    Next(c, Next(c, s, a), b)
  }

  /** After a handling with nothing armed meanwhile and no exit asked for, two steps take the thread
      back to waiting, without the wake lock and with the countdown stopped. */
  lemma WaitsAfterHandling(c: Config, s: System, a: Action, b: Action)
    requires s.pc == Relock && !s.exit && s.core.countdown in {-1, 0}
    requires a.Thread? && b.Thread?
    ensures
      var t := ThreadTwice(c, s, a, b);
      && t.pc == Waiting && !t.held && t.core.countdown == -1
      && t.wakeLog == if s.held then s.wakeLog + [false] else s.wakeLog
  {
  }

  /** A countdown armed meanwhile is not lost: the thread goes on counting it, with the lock state as
      it is. */
  lemma CountsWhatWasArmed(c: Config, s: System, a: Action, b: Action)
    requires s.pc == Relock && !s.exit && s.core.countdown > 0
    requires a.Thread? && b.Thread?
    ensures
      var t := ThreadTwice(c, s, a, b);
      t.pc == Sleeping && t.held == s.held && t.core.countdown == s.core.countdown - 1
  {
  }

  /** Handling takes one step, is tried once, and leaves the countdown to the step after it. */
  lemma HandledOnce(c: Config, s: System, a: Action)
    requires s.pc == Handling && a.Thread?
    ensures
      var t := Next(c, s, a);
      && t.pc == Relock && t.held == s.held && t.core.countdown == s.core.countdown
      && (a.online && !a.buffering ==> t.core.deferred == NoDefer && t.core.useLpi == s.core.Target())
      && (!a.online || a.buffering ==> t.core == s.core)
  {
  }

  /** A waiting thread wakes up exactly when it has been notified, or for no reason at all; it then
      takes the wake lock, and gives it back at once only if it is to exit. */
  lemma WakesUpIff(c: Config, s: System, a: Action)
    requires s.pc == Waiting && a.Thread?
    ensures
      var t := Next(c, s, a);
      && (t.pc != Waiting <==> s.notified || a.spurious)
      && (t.pc == Waiting ==> t == s)
      && (t.pc != Waiting ==> t.held == !s.exit && t.wakeLog == if s.exit then s.wakeLog + [true] + [false] else s.wakeLog + [true])
  {
  }

  // ---------------------------------------------------------------- leaving the loop

  /** The most steps the thread still takes once it is asked to exit. */
  function StepsToExit(s: System): nat {
    match s.pc
    case Done => 0
    case Top => 1
    case Waiting => 1
    case Relock => 2
    case Handling => 3
    case Sleeping => 4
  }

  lemma ExitingStep(c: Config, s: System, a: Action)
    requires Sound(s) && s.exit && (s.pc == Waiting ==> s.notified)
    ensures
      var t := Next(c, s, a);
      && t.exit && t.held == s.held && (t.pc == Waiting ==> t.notified)
      && (a.Thread? && s.pc != Done ==> StepsToExit(t) < StepsToExit(s))
      && (!a.Thread? || s.pc == Done ==> StepsToExit(t) == StepsToExit(s))
  {
  }

  /** From the moment the exit is asked for, whatever happens then, the lock state never changes
      again and the thread finishes within four of its steps. */
  lemma {:induction false} ExitingRun(c: Config, s: System, actions: seq<Action>)
    requires Sound(s)
    ensures
      var t := Execute(c, Next(c, s, Exit), actions);
      && Sound(t) && t.exit && (t.pc == Waiting ==> t.notified)
      && t.held == s.held
      && (t.pc == Done || StepsToExit(t) + ThreadSteps(actions) <= StepsToExit(s))
  {
    NextSound(c, s, Exit);
    if actions != [] {
      var init, last := actions[..|actions| - 1], actions[|actions| - 1];
      ExitingRun(c, s, init);
      ExitingStep(c, Execute(c, Next(c, s, Exit), init), last);
      NextSound(c, Execute(c, Next(c, s, Exit), init), last);
    }
  }

  /** Whether the thread has been waiting at some point of a run from the start. */
  function HasWaited(c: Config, actions: seq<Action>): bool {
    actions != [] && (HasWaited(c, actions[..|actions| - 1]) || Execute(c, START, actions).pc == Waiting)
  }

  /** A thread that is neither waiting nor finished holds the wake lock exactly if it has waited
      before: a countdown armed before its first wait is counted without the lock. */
  lemma {:induction false} HoldsIffHasWaited(c: Config, actions: seq<Action>)
    ensures
      var s := Execute(c, START, actions);
      && (s.pc == Waiting ==> !s.held && HasWaited(c, actions))
      && (s.pc != Waiting && s.pc != Done ==> (s.held <==> HasWaited(c, actions)))
  {
    if actions != [] {
      HoldsIffHasWaited(c, actions[..|actions| - 1]);
    }
  }

  /** The wake lock is kept for good by a run that asks the thread to exit if and only if, when it
      asks, the thread is in the middle of its loop and has waited before. Nothing that happens
      afterwards matters, and four steps later the thread has finished. */
  lemma WakeLockKeptIff(c: Config, before: seq<Action>, after: seq<Action>)
    requires Execute(c, START, before).pc != Done && ThreadSteps(after) >= 4
    ensures
      var s, t := Execute(c, START, before), Execute(c, Next(c, Execute(c, START, before), Exit), after);
      && t.pc == Done
      && (t.held <==> s.held)
      && (t.held <==> s.pc != Waiting && HasWaited(c, before))
  {
    EveryInterleavingSound(c, before);
    HoldsIffHasWaited(c, before);
    ExitingRun(c, Execute(c, START, before), after);
  }

  lemma ExecuteStep(c: Config, s: System, actions: seq<Action>, a: Action)
    ensures Execute(c, s, actions + [a]) == Next(c, Execute(c, s, actions), a)
  {
    assert (actions + [a])[..|actions|] == actions;
  }

  const CAPTURE := ConcInfo(true, false, true)
  const RUN := Thread(false, true, false)

  /** A VoiceUI stream and a stream that needs NLPI come, the thread goes to wait, and the second
      stream leaves again, which arms the countdown. */
  const ARMING: seq<Action> :=
    [Environment(VoiceUiRegistered)] + [Environment(Concurrent(1, true, CAPTURE, false))] + [RUN]
    + [Environment(Concurrent(1, false, CAPTURE, false))]

  lemma Armed(c: Config)
    requires c == Config(true, true, true)
    ensures Execute(c, START, ARMING)
         == System(Core(false, DeferNlpiToLpi, SWITCH_DELAY, {}, false, 1), Waiting, false, true, false, [])
  {
    var come, leave := Concurrent(1, true, CAPTURE, false), Concurrent(1, false, CAPTURE, false);
    var a1: seq<Action> := [Environment(VoiceUiRegistered)];
    var a2 := a1 + [Environment(come)];
    var a3 := a2 + [RUN];
    var s1 := START.(core := Core(true, NoDefer, -1, {}, false, 1));
    var s2 := s1.(core := Core(false, NoDefer, -1, {1}, false, 1));
    var s3 := s2.(pc := Waiting);
    assert Execute(c, START, a1) == s1 by { assert a1[..0] == []; }
    assert Execute(c, START, a2) == s2 by {
      ExecuteStep(c, START, a1, Environment(come));
      StreamComes(c, s1);
    }
    assert Execute(c, START, a3) == s3 by { ExecuteStep(c, START, a2, RUN); }
    ExecuteStep(c, START, a3, Environment(leave));
    StreamLeaves(c, s3);
  }

  lemma StreamComes(c: Config, s: System)
    requires c == Config(true, true, true) && s.core == Core(true, NoDefer, -1, {}, false, 1)
    ensures Next(c, s, Environment(Concurrent(1, true, CAPTURE, false))) == s.(core := Core(false, NoDefer, -1, {1}, false, 1))
  {
    assert {} + {1} == {1};
  }

  lemma StreamLeaves(c: Config, s: System)
    requires c == Config(true, true, true) && s.core == Core(false, NoDefer, -1, {1}, false, 1)
    ensures Next(c, s, Environment(Concurrent(1, false, CAPTURE, false)))
         == s.(core := Core(false, DeferNlpiToLpi, SWITCH_DELAY, {}, false, 1), notified := true)
  {
    assert {1} - {1} == {};
  }

  /** A run from the start that ends with the wake lock held for good: the exit is asked for
      while the thread sleeps. */
  lemma ExitDuringCountdownKeepsWakeLock()
    ensures
      var c := Config(true, true, true);
      var t := Execute(c, START, ARMING + [RUN] + [Exit] + [RUN] + [RUN]);
      t.pc == Done && t.held && t.wakeLog == [true]
  {
    var c := Config(true, true, true);
    var armed := System(Core(false, DeferNlpiToLpi, SWITCH_DELAY, {}, false, 1), Waiting, false, true, false, []);
    var counting := System(Core(false, DeferNlpiToLpi, SWITCH_DELAY - 1, {}, false, 1), Sleeping, true, true, false, [] + [true]);
    var exiting := counting.(exit := true);
    Armed(c);
    assert Execute(c, START, ARMING + [RUN]) == counting by {
      ExecuteStep(c, START, ARMING, RUN);
      assert Next(c, armed, RUN) == counting;
    }
    assert Execute(c, START, ARMING + [RUN] + [Exit]) == exiting by { ExecuteStep(c, START, ARMING + [RUN], Exit); }
    assert Execute(c, START, ARMING + [RUN] + [Exit] + [RUN]) == exiting.(pc := Top) by {
      ExecuteStep(c, START, ARMING + [RUN] + [Exit], RUN);
    }
    ExecuteStep(c, START, ARMING + [RUN] + [Exit] + [RUN], RUN);
  }
}
