/** The counted performance lock: many scoped objects share one real lock, which the first object
    that succeeds takes and the last one gives back. */
module PerfLock {

  /** Which of the two functions the vendor library offers. */
  datatype Library = Library(acquire: bool, release: bool)

  datatype Call = Obtained(handle: int) | Released(handle: int)

  /** The shared state, with the real locks obtained and given back so far. */
  datatype State = State(counter: int, handle: int, acquired: bool, calls: seq<Call>)

  const START := State(0, 0, false, [])

  /** `answer` is what the library would return. */
  function Acquire(lib: Library, st: State, answer: int): State {
    var more := st.(counter := st.counter + 1);
    if st.acquired || !lib.acquire then more
    else if answer > 0 then more.(handle := answer, acquired := true, calls := st.calls + [Obtained(answer)])
    else more.(handle := answer)
  }

  function Release(lib: Library, st: State): State {
    var less := st.(counter := st.counter - 1);
    if st.handle > 0 && lib.release && less.counter == 0
    then less.(acquired := false, calls := st.calls + [Released(st.handle)])
    else less
  }

  class PerfLocks {
    const library: Library
    var counter: int
    var handle: int
    var acquired: bool
    ghost var calls: seq<Call>

    constructor (lib: Library)
      ensures library == lib && Value() == START
    {
      library := lib;
      counter, handle, acquired, calls := 0, 0, false, [];
    }

    ghost function Value(): State
      reads this
    {
      State(counter, handle, acquired, calls)
    }

    method AcquireLocked(answer: int)
      modifies this
      ensures Value() == Acquire(library, old(Value()), answer)
    {
      counter := counter + 1;
      if !acquired && library.acquire {
        handle := answer;
        if handle > 0 {
          calls := calls + [Obtained(handle)];
          acquired := true;
        }
      }
    }

    method ReleaseLocked()
      modifies this
      ensures Value() == Release(library, old(Value()))
    {
      counter := counter - 1;
      if handle > 0 && library.release && counter == 0 {
        calls := calls + [Released(handle)];
        acquired := false;
      }
    }
  }

  // ---------------------------------------------------------------- whole runs

  datatype Event = Construct(answer: int) | Destruct

  function Step(lib: Library, st: State, e: Event): State {
    match e
    case Construct(answer) => Acquire(lib, st, answer)
    case Destruct => Release(lib, st)
  }

  function Run(lib: Library, events: seq<Event>): State {
    if events == [] then START else Step(lib, Run(lib, events[..|events| - 1]), events[|events| - 1])
  }

  /** Only an object that exists is destroyed. */
  predicate Scoped(lib: Library, events: seq<Event>) {
    forall i :: 0 <= i < |events| && events[i].Destruct? ==> Run(lib, events[..i]).counter > 0
  }

  /** The calls come in pairs, a handle obtained and the same handle given back, with perhaps one
      handle obtained at the end. */
  predicate Paired(calls: seq<Call>) {
    calls == [] ||
    var before, last := calls[..|calls| - 1], calls[|calls| - 1];
    Paired(before) && if Holding(before) then last == Released(before[|before| - 1].handle) else last.Obtained?
  }

  /** A real lock has been obtained and not been given back. */
  predicate Holding(calls: seq<Call>) {
    calls != [] && calls[|calls| - 1].Obtained?
  }

  ghost predicate Sound(lib: Library, st: State) {
    && st.counter >= 0
    && Paired(st.calls)
    && (st.acquired <==> Holding(st.calls))
    && (st.acquired ==> st.handle > 0 && st.calls[|st.calls| - 1] == Obtained(st.handle))
    && (!lib.acquire ==> st.calls == [] && st.handle == 0)
    && (st.counter > 0 && st.handle > 0 ==> st.acquired)
    && (lib.release && st.counter == 0 ==> !st.acquired)
    && (!lib.release ==> |st.calls| <= 1)
  }

  lemma StepSound(lib: Library, st: State, e: Event)
    requires Sound(lib, st) && (e.Destruct? ==> st.counter > 0)
    ensures Sound(lib, Step(lib, st, e))
  {
    match e
    case Construct(answer) =>
      if !st.acquired && lib.acquire && answer > 0 { PairedAppend(st.calls, Obtained(answer)); }
    case Destruct =>
      if st.handle > 0 && lib.release && st.counter == 1 { PairedAppend(st.calls, Released(st.handle)); }
  }

  lemma PairedAppend(calls: seq<Call>, call: Call)
    requires Paired(calls)
    requires if Holding(calls) then call == Released(calls[|calls| - 1].handle) else call.Obtained?
    ensures Paired(calls + [call]) && (Holding(calls + [call]) <==> !Holding(calls))
  {
    assert (calls + [call])[..|calls|] == calls;
  }

  /** Over all interleavings of constructions and destructions, whatever the library answers: at
      most one real lock is out at a time, and every handle obtained is given back at most once,
      never a stale one. */
  lemma {:induction false} OneLockAtATime(lib: Library, events: seq<Event>)
    requires Scoped(lib, events)
    ensures Sound(lib, Run(lib, events))
  {
    if events != [] {
      var init := events[..|events| - 1];
      forall i | 0 <= i < |init| && init[i].Destruct? ensures Run(lib, init[..i]).counter > 0 {
        assert init[..i] == events[..i] && init[i] == events[i];
      }
      OneLockAtATime(lib, init);
      StepSound(lib, Run(lib, init), events[|events| - 1]);
    }
  }

  /** Exactly when the library is called: for a lock, by every new object while none is held, if it has
      the function; and to give it back, by the last object, if one is held and it has the function. */
  lemma CallsExactly(lib: Library, events: seq<Event>, e: Event)
    requires Scoped(lib, events) && (e.Destruct? ==> Run(lib, events).counter > 0)
    ensures
      var st := Run(lib, events);
      Step(lib, st, e).calls == st.calls +
        match e
        case Construct(answer) => if lib.acquire && !Holding(st.calls) && answer > 0 then [Obtained(answer)] else []
        case Destruct =>
          if lib.release && Holding(st.calls) && st.counter == 1 then [Released(st.calls[|st.calls| - 1].handle)] else []
  {
    OneLockAtATime(lib, events);
    assert Run(lib, events).calls + [] == Run(lib, events).calls;
  }

  /** When the last object is gone a real lock is still held exactly if one was ever obtained from
      a library that cannot take it back. */
  lemma HeldAtRestIff(lib: Library, events: seq<Event>)
    requires Scoped(lib, events) && Run(lib, events).counter == 0
    ensures Holding(Run(lib, events).calls) <==> !lib.release && Run(lib, events).calls != []
  {
    OneLockAtATime(lib, events);
  }

  /** The library decides whether the lock can leak: every run gives everything back exactly if it
      cannot acquire without being able to release. */
  lemma AlwaysGivenBackIff(lib: Library)
    ensures (forall events :: Scoped(lib, events) && Run(lib, events).counter == 0 ==> !Holding(Run(lib, events).calls))
       <==> (lib.acquire ==> lib.release)
  {
    if lib.acquire && !lib.release {
      var events := [Construct(1), Destruct];
      assert events[..1][..0] == [];
      assert Run(lib, events[..1]) == State(1, 1, true, [Obtained(1)]);
      assert Run(lib, events).counter == 0 && Holding(Run(lib, events).calls);
      assert Scoped(lib, events);
    } else {
      forall events | Scoped(lib, events) && Run(lib, events).counter == 0
        ensures !Holding(Run(lib, events).calls)
      {
        OneLockAtATime(lib, events);
      }
    }
  }
}
