/** The context manager's registry: clients, the use cases each of them has registered, and the
    streams opened for them, kept in step while every call into a stream may fail. */
module ContextRegistry {

  type ClientId = nat
  type UsecaseId = nat
  type Handle = nat

  /** The stream that a use case has opened. */
  datatype Usecase = Usecase(handle: Handle)

  type Usecases = map<UsecaseId, Usecase>

  /** How the calls made while a registration is processed turn out; `address` is what a stream
      that is opened gets as its handle. */
  datatype Answers = Answers(known: bool, data: bool, canOpen: bool, configure: bool, start: bool, ack: bool, address: Handle)

  datatype Status = Success | Failed

  /** The registry beside the streams that are open; `closes` lists the calls to close, oldest
      first. */
  datatype State = State(clients: map<ClientId, Usecases>, live: set<Handle>, closes: seq<Handle>)

  const INITIAL := State(map[], {}, [])

  predicate Present(st: State, c: ClientId, u: UsecaseId) {
    c in st.clients && u in st.clients[c]
  }

  predicate Owns(st: State, c: ClientId, u: UsecaseId, h: Handle) {
    Present(st, c, u) && st.clients[c][u].handle == h
  }

  // ---------------------------------------------------------------- what the commands do

  function CloseHandle(st: State, h: Handle): State {
    st.(live := st.live - {h}, closes := st.closes + [h])
  }

  /** A client is created by the first request that names it, whatever becomes of the request. */
  function WithClient(st: State, c: ClientId): State {
    if c in st.clients then st else st.(clients := st.clients[c := map[]])
  }

  function Put(st: State, c: ClientId, us: Usecases): State {
    st.(clients := st.clients[c := us])
  }

  function RegisterNew(st: State, c: ClientId, u: UsecaseId, a: Answers): (State, Status)
    requires c in st.clients
  {
    if !a.known || !a.data || !a.canOpen then (st, Failed)
    else
      var h := a.address;
      var running := st.(live := st.live + {h});
      if !a.configure || !a.start then (CloseHandle(running, h), Failed)
      else (Put(running, c, st.clients[c][u := Usecase(h)]), if a.ack then Success else Failed)
  }

  function RegisterAgain(st: State, c: ClientId, u: UsecaseId, a: Answers): (State, Status)
    requires Present(st, c, u)
  {
    if !a.data then (st, Failed)
    else if !a.configure then (CloseHandle(st, st.clients[c][u].handle), Failed)
    else (st, if a.ack then Success else Failed)
  }

  function Register(st: State, c: ClientId, u: UsecaseId, a: Answers): (State, Status) {
    var named := WithClient(st, c);
    if Present(named, c, u) then RegisterAgain(named, c, u, a) else RegisterNew(named, c, u, a)
  }

  function Deregister(st: State, c: ClientId, u: UsecaseId): (State, Status) {
    if !Present(st, c, u) then (st, Failed)
    else (CloseHandle(Put(st, c, st.clients[c] - {u}), st.clients[c][u].handle), Success)
  }

  function HandlesOf(us: Usecases): set<Handle> {
    set u | u in us :: us[u].handle
  }

  ghost function AllHandles(clients: map<ClientId, Usecases>): set<Handle> {
    set c, u | c in clients && u in clients[c] :: clients[c][u].handle
  }

  /** The log of closes grew by exactly the given handles. */
  ghost predicate Closed(before: seq<Handle>, after: seq<Handle>, handles: set<Handle>) {
    before <= after && forall h :: h in after[|before|..] <==> h in handles
  }

  lemma ClosedTrans(a: seq<Handle>, b: seq<Handle>, c: seq<Handle>, one: set<Handle>, two: set<Handle>)
    requires Closed(a, b, one) && Closed(b, c, two)
    ensures Closed(a, c, one + two)
  {
    assert c[|a|..] == b[|a|..] + c[|b|..];
  }

  // ---------------------------------------------------------------- the objects

  /** The streams, as far as the registry sees them. A close may report an error, but the stream
      is gone. */
  class Streams {
    var live: set<Handle>
    var closes: seq<Handle>

    constructor ()
      ensures live == {} && closes == []
    {
      live, closes := {}, [];
    }

    /** No two streams that are open at the same time have the same address; one that is closed
        may leave its address to another. */
    method Open(ok: bool, address: Handle) returns (h: Handle)
      requires ok ==> address !in live
      modifies this`live
      ensures h == address && live == if ok then old(live) + {h} else old(live)
    {
      h := address;
      if ok { live := live + {h}; }
    }

    method StopAndClose(h: Handle)
      modifies this`live, this`closes
      ensures live == old(live) - {h} && closes == old(closes) + [h]
    {
      live, closes := live - {h}, closes + [h];
    }
  }

  class SeeClient {
    const id: ClientId
    var usecases: Usecases

    constructor (c: ClientId)
      ensures id == c && usecases == map[]
    {
      id, usecases := c, map[];
    }

    method UsecaseAdd(u: UsecaseId, uc: Usecase)
      modifies this
      ensures usecases == if u in old(usecases) then old(usecases) else old(usecases)[u := uc]
    {
      if u !in usecases { usecases := usecases[u := uc]; }
    }

    method UsecaseRemove(u: UsecaseId) returns (status: Status)
      modifies this
      ensures usecases == old(usecases) - {u}
      ensures status == Success <==> u in old(usecases)
    {
      if u in usecases {
        usecases := usecases - {u};
        status := Success;
      } else {
        status := Failed;
      }
    }

    /** Stops, closes and forgets the use cases one by one, in any order. */
    method CloseAllUsecases(streams: Streams)
      modifies this, streams`live, streams`closes
      ensures usecases == map[]
      ensures streams.live == old(streams.live) - HandlesOf(old(usecases))
      ensures Closed(old(streams.closes), streams.closes, HandlesOf(old(usecases)))
      ensures |streams.closes| == |old(streams.closes)| + |old(usecases)|
    {
      ghost var all := usecases;
      while usecases.Keys != {}
        invariant usecases.Keys <= all.Keys && forall u <- usecases :: usecases[u] == all[u]
        invariant streams.live == old(streams.live) - HandlesOf(all - usecases.Keys)
        invariant Closed(old(streams.closes), streams.closes, HandlesOf(all - usecases.Keys))
        invariant |streams.closes| == |old(streams.closes)| + |all| - |usecases|
        decreases |usecases|
      {
        var u :| u in usecases;
        var h := usecases[u].handle;
        OneMoreClosed(all, usecases, u);
        ghost var closes := streams.closes;
        streams.StopAndClose(h);
        ClosedTrans(old(streams.closes), closes, streams.closes, HandlesOf(all - usecases.Keys), {h});
        usecases := usecases - {u};
      }
      assert all - usecases.Keys == all;
    }
  }

  class ContextManager {
    var clients: map<ClientId, SeeClient>
    const streams: Streams

    constructor ()
      ensures Valid() && Value() == INITIAL && fresh(streams)
    {
      clients := map[];
      streams := new Streams();
    }

    ghost predicate Valid()
      reads this, clients.Values
    {
      && (forall c <- clients :: clients[c].id == c)
    }

    ghost function Value(): State
      reads this, clients.Values, streams
    {
      State(map c | c in clients :: clients[c].usecases, streams.live, streams.closes)
    }

    method CreateIfAndGet(c: ClientId) returns (client: SeeClient)
      requires Valid()
      modifies this`clients
      ensures Valid() && c in clients && clients[c] == client
      ensures clients.Keys == old(clients.Keys) + {c}
      ensures forall d <- old(clients) :: clients[d] == old(clients[d])
      ensures c !in old(clients) ==> fresh(client) && client.usecases == map[]
      ensures Value() == WithClient(old(Value()), c)
    {
      if c in clients {
        client := clients[c];
      } else {
        client := new SeeClient(c);
        clients := clients[c := client];
      }
    }

    method RegisterUsecase(c: ClientId, u: UsecaseId, a: Answers) returns (status: Status)
      requires Valid() && c in clients && u !in clients[c].usecases && (a.canOpen ==> a.address !in streams.live)
      modifies clients[c], streams
      ensures Valid()
      ensures (Value(), status) == RegisterNew(old(Value()), c, u, a)
    {
      ghost var was := Value().clients;
      if !a.known { return Failed; }
      if !a.data { return Failed; }
      var h := streams.Open(a.canOpen, a.address);
      assert Value().clients == was;
      if !a.canOpen { return Failed; }
      if !a.configure || !a.start {
        streams.StopAndClose(h);
        assert Value().clients == was;
        return Failed;
      }
      clients[c].UsecaseAdd(u, Usecase(h));
      ghost var us: Usecases := was[c][u := Usecase(h)];
      assert Value().clients == was[c := us];
      status := if a.ack then Success else Failed;
    }

    method ProcessRegisterRequest(c: ClientId, u: UsecaseId, a: Answers) returns (status: Status)
      requires Valid() && (!Present(Value(), c, u) && a.canOpen ==> a.address !in streams.live)
      modifies this`clients, clients.Values, streams
      ensures Valid()
      ensures (Value(), status) == Register(old(Value()), c, u, a)
    {
      var client := CreateIfAndGet(c);
      ghost var named := Value();
      assert named.clients[c] == client.usecases;
      if u !in client.usecases {
        status := RegisterUsecase(c, u, a);
      } else {
        if !a.data { return Failed; }
        if !a.configure {
          streams.StopAndClose(client.usecases[u].handle);
          assert Value().clients == named.clients;
          return Failed;
        }
        status := if a.ack then Success else Failed;
      }
    }

    method ProcessDeregisterRequest(c: ClientId, u: UsecaseId) returns (status: Status)
      requires Valid()
      modifies clients.Values, streams`live, streams`closes
      ensures Valid()
      ensures (Value(), status) == Deregister(old(Value()), c, u)
    {
      if c !in clients { return Failed; }
      var client := clients[c];
      if u !in client.usecases { return Failed; }
      streams.StopAndClose(client.usecases[u].handle);
      status := client.UsecaseRemove(u);
      assert Value().clients == old(Value()).clients[c := old(client.usecases) - {u}];
      status := Success;
    }

    /** The clients that are left, with the use cases they had. */
    ghost predicate Remains(was: map<ClientId, Usecases>)
      reads this, clients.Values
    {
      Valid() && clients.Keys <= was.Keys && forall c <- clients :: clients[c].usecases == was[c]
    }

    method CloseClient(c: ClientId, ghost was: map<ClientId, Usecases>)
      requires Remains(was) && c in clients
      modifies this`clients, clients[c], streams`live, streams`closes
      ensures Remains(was) && clients == old(clients) - {c} && clients.Keys == old(clients.Keys) - {c}
      ensures clients.Values <= old(clients.Values)
      ensures streams.live == old(streams.live) - HandlesOf(was[c])
      ensures Closed(old(streams.closes), streams.closes, HandlesOf(was[c]))
    {
      clients[c].CloseAllUsecases(streams);
      clients := clients - {c};
    }

    /** One more client, after those that are gone already. */
    method CloseNext(c: ClientId, ghost was: map<ClientId, Usecases>, ghost live: set<Handle>, ghost closes: seq<Handle>)
      requires Remains(was) && c in clients
      requires streams.live == live - AllHandles(was - clients.Keys)
      requires Closed(closes, streams.closes, AllHandles(was - clients.Keys))
      modifies this`clients, clients[c], streams`live, streams`closes
      ensures Remains(was) && clients.Keys == old(clients.Keys) - {c} && clients.Values <= old(clients.Values)
      ensures streams.live == live - AllHandles(was - clients.Keys)
      ensures Closed(closes, streams.closes, AllHandles(was - clients.Keys))
    {
      ghost var left, so := clients.Keys, streams.closes;
      CloseClient(c, was);
      OneMoreClient(was, left, c);
      ClosedTrans(closes, so, streams.closes, AllHandles(was - left), HandlesOf(was[c]));
    }

    /** Empties the registry client by client, in any order. */
    method CloseAll()
      requires Valid()
      modifies this`clients, clients.Values, streams`live, streams`closes
      ensures Valid()
      ensures ClosedAll(old(Value()), Value())
    {
      ghost var was := Value().clients;
      ghost var live, closes := streams.live, streams.closes;
      while clients.Keys != {}
        invariant Remains(was) && clients.Values <= old(clients.Values)
        invariant streams.live == live - AllHandles(was - clients.Keys)
        invariant Closed(closes, streams.closes, AllHandles(was - clients.Keys))
        decreases clients.Keys
      {
        var c :| c in clients;
        CloseNext(c, was, live, closes);
      }
      assert was - clients.Keys == was;
      assert Value().clients == map[];
    }
  }

  /** Emptying the registry closes exactly the handles it held. */
  ghost predicate ClosedAll(st: State, after: State) {
    && after.clients == map[]
    && after.live == st.live - AllHandles(st.clients)
    && Closed(st.closes, after.closes, AllHandles(st.clients))
  }

  lemma OneMoreClient(all: map<ClientId, Usecases>, left: set<ClientId>, c: ClientId)
    requires left <= all.Keys && c in left
    ensures AllHandles(all - (left - {c})) == AllHandles(all - left) + HandlesOf(all[c])
  {
    var before, after := all - left, all - (left - {c});
    assert after == before[c := all[c]];
    forall h ensures h in AllHandles(after) <==> h in AllHandles(before) || h in HandlesOf(all[c]) {
      if h in AllHandles(before) {
        var d, u :| d in before && u in before[d] && before[d][u].handle == h;
        assert d in after && u in after[d] && after[d][u].handle == h;
      }
      if h in HandlesOf(all[c]) {
        var u :| u in all[c] && all[c][u].handle == h;
        assert c in after && u in after[c] && after[c][u].handle == h;
      }
      if h in AllHandles(after) && h !in HandlesOf(all[c]) {
        var d, u :| d in after && u in after[d] && after[d][u].handle == h;
        assert d in before && u in before[d] && before[d][u].handle == h;
      }
    }
  }

  lemma OneMoreClosed(all: Usecases, left: Usecases, u: UsecaseId)
    requires left.Keys <= all.Keys && u in left && left[u] == all[u]
    ensures |left - {u}| == |left| - 1
    ensures HandlesOf(all - (left - {u}).Keys) == HandlesOf(all - left.Keys) + {left[u].handle}
  {
    var less := left - {u};
    assert left == less[u := left[u]];
    assert u in all - less.Keys && (all - less.Keys)[u].handle == left[u].handle;
    forall h ensures h in HandlesOf(all - less.Keys) <==> h in HandlesOf(all - left.Keys) || h == left[u].handle {
      if h in HandlesOf(all - left.Keys) {
        var v :| v in all - left.Keys && all[v].handle == h;
        assert v in all - less.Keys && (all - less.Keys)[v].handle == h;
      }
      if h in HandlesOf(all - less.Keys) && h != left[u].handle {
        var v :| v in all - less.Keys && all[v].handle == h;
        assert v in all - left.Keys && (all - left.Keys)[v].handle == h;
      }
    }
  }

  // ---------------------------------------------------------------- whole runs

  datatype Command =
    | RegisterCommand(client: ClientId, usecase: UsecaseId, answers: Answers)
    | DeregisterCommand(client: ClientId, usecase: UsecaseId)
    | CloseAllCommand

  /** Whether a command opens a stream, which then gets an address that no open stream has. */
  predicate OpensStream(st: State, cmd: Command) {
    cmd.RegisterCommand? && !Present(st, cmd.client, cmd.usecase)
    && cmd.answers.known && cmd.answers.data && cmd.answers.canOpen
  }

  ghost predicate Next(st: State, cmd: Command, after: State) {
    && (OpensStream(st, cmd) ==> cmd.answers.address !in st.live)
    && match cmd
       case RegisterCommand(c, u, a) => after == Register(st, c, u, a).0
       case DeregisterCommand(c, u) => after == Deregister(st, c, u).0
       case CloseAllCommand => ClosedAll(st, after)
  }

  type Entries = set<(ClientId, UsecaseId)>

  /** The entries that a reconfiguration has failed for, after one more command. */
  function Track(st: State, broken: Entries, cmd: Command): Entries {
    match cmd
    case RegisterCommand(c, u, a) => if Present(st, c, u) && a.data && !a.configure then broken + {(c, u)} else broken
    case DeregisterCommand(c, u) => broken - {(c, u)}
    case CloseAllCommand => {}
  }

  ghost predicate Execution(states: seq<State>, cmds: seq<Command>) {
    && |states| == |cmds| + 1
    && states[0] == INITIAL
    && forall i :: 0 <= i < |cmds| ==> Next(states[i], cmds[i], states[i + 1])
  }

  ghost function Broken(states: seq<State>, cmds: seq<Command>): Entries
    requires |states| == |cmds| + 1
  {
    if cmds == [] then {}
    else Track(states[|cmds| - 1], Broken(states[..|cmds|], cmds[..|cmds| - 1]), cmds[|cmds| - 1])
  }

  ghost predicate OneOwner(st: State) {
    forall c, u, d, v, h :: Owns(st, c, u, h) && Owns(st, d, v, h) ==> c == d && u == v
  }

  ghost predicate Owned(st: State, h: Handle) {
    exists c, u :: Owns(st, c, u, h)
  }

  ghost predicate NoOrphans(st: State) {
    forall h <- st.live :: Owned(st, h)
  }

  ghost predicate Sound(st: State, broken: Entries) {
    && NoOrphans(st)
    && OneOwner(st)
    && (forall c: ClientId, u: UsecaseId, h: Handle :: Owns(st, c, u, h) ==> (h in st.live <==> (c, u) !in broken))
    && (forall c, u :: (c, u) in broken ==> Present(st, c, u))
  }

  lemma OwnersAre(st: State, h: Handle)
    ensures h in AllHandles(st.clients) <==> Owned(st, h)
  {
    if h in AllHandles(st.clients) {
      var c, u :| c in st.clients && u in st.clients[c] && st.clients[c][u].handle == h;
      assert Owns(st, c, u, h);
    }
  }

  // ---------------------------------------------------------------- what the commands do to ownership

  lemma WithClientOwners(st: State, c: ClientId)
    ensures forall d, u, h :: Owns(WithClient(st, c), d, u, h) <==> Owns(st, d, u, h)
    ensures forall d, u :: Present(WithClient(st, c), d, u) <==> Present(st, d, u)
  {
    assert forall d, u, h :: Owns(WithClient(st, c), d, u, h) <==> Owns(st, d, u, h);
  }

  /** A new registration adds an entry exactly if all calls up to the start succeed, and the stream
      of that entry is the only one more that is open. */
  lemma RegisterNewOwners(st: State, c: ClientId, u: UsecaseId, a: Answers)
    requires !Present(st, c, u) && a.address !in st.live
    ensures
      var after := Register(st, c, u, a).0;
      if a.known && a.data && a.canOpen && a.configure && a.start
      then && (forall d, v, h :: Owns(after, d, v, h) <==> Owns(st, d, v, h) || (d == c && v == u && h == a.address))
           && after.live == st.live + {a.address}
      else && (forall d, v, h :: Owns(after, d, v, h) <==> Owns(st, d, v, h))
           && after.live == st.live
  {
    WithClientOwners(st, c);
    var named, after := WithClient(st, c), Register(st, c, u, a).0;
    if a.known && a.data && a.canOpen && a.configure && a.start {
      assert forall d, v, h :: Owns(after, d, v, h) <==> Owns(named, d, v, h) || (d == c && v == u && h == a.address);
    } else {
      assert forall d, v, h :: Owns(after, d, v, h) <==> Owns(named, d, v, h);
    }
  }

  lemma RegisterRefused(st: State, c: ClientId, u: UsecaseId, a: Answers)
    requires !Present(st, c, u) && !(a.known && a.data && a.canOpen)
    ensures
      var after := Register(st, c, u, a).0;
      (forall d, v, h :: Owns(after, d, v, h) <==> Owns(st, d, v, h)) && after.live == st.live
  {
    WithClientOwners(st, c);
  }

  lemma RegisterAgainOwners(st: State, c: ClientId, u: UsecaseId, a: Answers)
    requires Present(st, c, u)
    ensures
      var after := Register(st, c, u, a).0;
      && (forall d, v, h :: Owns(after, d, v, h) <==> Owns(st, d, v, h))
      && after.live == if a.data && !a.configure then st.live - {st.clients[c][u].handle} else st.live
  {
    var after := Register(st, c, u, a).0;
    assert after.clients == st.clients;
  }

  lemma DeregisterOwners(st: State, c: ClientId, u: UsecaseId)
    requires Present(st, c, u)
    ensures
      var after := Deregister(st, c, u).0;
      && (forall d, v, h :: Owns(after, d, v, h) <==> Owns(st, d, v, h) && (d != c || v != u))
      && after.live == st.live - {st.clients[c][u].handle}
  {
    var after := Deregister(st, c, u).0;
    assert forall d, v, h :: Owns(after, d, v, h) <==> Owns(st, d, v, h) && (d != c || v != u);
  }

  /** Entries that own what is still open keep it owned. */
  lemma StillOwned(st: State, after: State, extra: set<Handle>)
    requires NoOrphans(st) && after.live <= st.live + extra
    requires forall h <- extra :: Owned(after, h)
    requires forall c, u, h :: Owns(st, c, u, h) && h in after.live ==> Owns(after, c, u, h)
    ensures NoOrphans(after)
  {
    forall h <- after.live ensures Owned(after, h) {
      if h !in extra {
        var c, u :| Owns(st, c, u, h);
        assert Owns(after, c, u, h);
      }
    }
  }

  lemma NextNoOrphans(st: State, cmd: Command, after: State)
    requires NoOrphans(st) && Next(st, cmd, after)
    ensures NoOrphans(after)
  {
    match cmd
    case RegisterCommand(c, u, a) =>
      if Present(st, c, u) {
        RegisterAgainOwners(st, c, u, a);
        StillOwned(st, after, {});
      } else if OpensStream(st, cmd) {
        RegisterNewOwners(st, c, u, a);
        if a.configure && a.start {
          assert Owns(after, c, u, a.address);
          StillOwned(st, after, {a.address});
        } else {
          StillOwned(st, after, {});
        }
      } else {
        RegisterRefused(st, c, u, a);
        StillOwned(st, after, {});
      }
    case DeregisterCommand(c, u) =>
      if Present(st, c, u) {
        DeregisterOwners(st, c, u);
        StillOwned(st, after, {});
      }
    case CloseAllCommand =>
      forall h <- after.live ensures false { OwnersAre(st, h); }
  }

  /** After any commands, whatever fails on the way and whatever addresses streams get, no open
      stream is orphaned. */
  lemma {:induction false} NeverOrphans(states: seq<State>, cmds: seq<Command>)
    requires Execution(states, cmds)
    ensures NoOrphans(states[|cmds|])
  {
    if cmds != [] {
      var n := |cmds| - 1;
      NeverOrphans(states[..n + 1], cmds[..n]);
      NextNoOrphans(states[n], cmds[n], states[n + 1]);
    }
  }

  /** Closing everything leaves no client and no open stream, whenever it comes. */
  lemma CloseAllLeavesNothing(states: seq<State>, cmds: seq<Command>)
    requires Execution(states, cmds) && |cmds| > 0 && cmds[|cmds| - 1] == CloseAllCommand
    ensures states[|cmds|].clients == map[] && states[|cmds|].live == {}
  {
    var n := |cmds| - 1;
    NeverOrphans(states[..n + 1], cmds[..n]);
    assert Next(states[n], cmds[n], states[n + 1]);
    forall h <- states[n].live ensures h in AllHandles(states[n].clients) { OwnersAre(states[n], h); }
  }

  // ---------------------------------------------------------------- one owner each

  /** A registration succeeds and gets the address that some entry still names: one whose stream
      is closed. */
  ghost predicate ReusesStale(st: State, cmd: Command) {
    OpensStream(st, cmd) && cmd.answers.configure && cmd.answers.start && Owned(st, cmd.answers.address)
  }

  /** A command keeps every open stream with one owner, and an entry's stream open unless its
      reconfiguration has failed, if and only if it does not reuse such an address. */
  lemma NextSoundIff(st: State, broken: Entries, cmd: Command, after: State)
    requires Sound(st, broken) && Next(st, cmd, after)
    ensures Sound(after, Track(st, broken, cmd)) <==> !ReusesStale(st, cmd)
  {
    NextNoOrphans(st, cmd, after);
    match cmd
    case RegisterCommand(c, u, a) =>
      if Present(st, c, u) {
        RegisterAgainOwners(st, c, u, a);
        assert Owns(st, c, u, st.clients[c][u].handle);
        SamePresence(st, after);
      } else if OpensStream(st, cmd) {
        RegisterNewOwners(st, c, u, a);
        if a.configure && a.start {
          NewEntrySoundIff(st, broken, c, u, a.address, after);
        } else {
          SamePresence(st, after);
        }
      } else {
        RegisterRefused(st, c, u, a);
        SamePresence(st, after);
      }
    case DeregisterCommand(c, u) =>
      if Present(st, c, u) {
        DeregisterSound(st, broken, c, u);
      }
    case CloseAllCommand =>
  }

  lemma SamePresence(st: State, after: State)
    requires forall c, u, h :: Owns(after, c, u, h) <==> Owns(st, c, u, h)
    ensures forall c, u :: Present(after, c, u) <==> Present(st, c, u)
  {
    forall c, u ensures Present(after, c, u) <==> Present(st, c, u) {
      if Present(after, c, u) { assert Owns(after, c, u, after.clients[c][u].handle); }
      if Present(st, c, u) { assert Owns(st, c, u, st.clients[c][u].handle); }
    }
  }

  lemma NewEntrySoundIff(st: State, broken: Entries, c: ClientId, u: UsecaseId, address: Handle, after: State)
    requires Sound(st, broken) && NoOrphans(after) && !Present(st, c, u) && address !in st.live
    requires forall d, v, h :: Owns(after, d, v, h) <==> Owns(st, d, v, h) || (d == c && v == u && h == address)
    requires after.live == st.live + {address}
    ensures Sound(after, broken) <==> !Owned(st, address)
  {
    assert Owns(after, c, u, address);
    if Owned(st, address) {
      var d, v :| Owns(st, d, v, address);
      assert Owns(after, d, v, address);
    } else {
      forall d, v | (d, v) in broken ensures Present(after, d, v) {
        assert Owns(st, d, v, st.clients[d][v].handle);
      }
    }
  }

  lemma DeregisterSound(st: State, broken: Entries, c: ClientId, u: UsecaseId)
    requires Sound(st, broken) && Present(st, c, u) && NoOrphans(Deregister(st, c, u).0)
    ensures Sound(Deregister(st, c, u).0, broken - {(c, u)})
  {
    var after, gone := Deregister(st, c, u).0, st.clients[c][u].handle;
    DeregisterOwners(st, c, u);
    assert Owns(st, c, u, gone);
    forall d, v | (d, v) in broken - {(c, u)} ensures Present(after, d, v) {
      assert Owns(st, d, v, st.clients[d][v].handle);
    }
  }

  ghost predicate NeverReusesStale(states: seq<State>, cmds: seq<Command>)
    requires |states| == |cmds| + 1
  {
    forall i :: 0 <= i < |cmds| ==> !ReusesStale(states[i], cmds[i])
  }

  /** After any commands, whatever fails on the way: as long as no address of a closed stream is
      reused while an entry still names it, no open stream is orphaned or shared, and the stream of
      an entry is open exactly unless a reconfiguration of it has failed. */
  lemma {:induction false} EveryRunSound(states: seq<State>, cmds: seq<Command>)
    requires Execution(states, cmds) && NeverReusesStale(states, cmds)
    ensures Sound(states[|cmds|], Broken(states, cmds))
  {
    if cmds != [] {
      var n := |cmds| - 1;
      forall i | 0 <= i < n ensures !ReusesStale(states[..n + 1][i], cmds[..n][i]) {
        assert !ReusesStale(states[i], cmds[i]);
      }
      EveryRunSound(states[..n + 1], cmds[..n]);
      NextSoundIff(states[n], Broken(states[..n + 1], cmds[..n]), cmds[n], states[n + 1]);
    }
  }

  /** Every open stream then belongs to exactly one registered use case of exactly one client. */
  lemma ExactlyOneOwner(states: seq<State>, cmds: seq<Command>, h: Handle)
    requires Execution(states, cmds) && NeverReusesStale(states, cmds) && h in states[|cmds|].live
    ensures exists c, u ::
              && Owns(states[|cmds|], c, u, h)
              && forall d, v :: Owns(states[|cmds|], d, v, h) ==> d == c && v == u
  {
    EveryRunSound(states, cmds);
    assert Owned(states[|cmds|], h);
  }

  /** Only a failed reconfiguration leaves an address to be reused this way. */
  lemma ReuseNeedsBroken(st: State, broken: Entries, cmd: Command, after: State)
    requires Sound(st, broken) && Next(st, cmd, after) && ReusesStale(st, cmd)
    ensures exists c, u :: (c, u) in broken && Owns(st, c, u, cmd.answers.address)
  {
    var c: ClientId, u: UsecaseId :| Owns(st, c, u, cmd.answers.address);
    assert (c, u) in broken;
  }

  /** The handles that a command hands to the streams to close. */
  function NewlyClosed(st: State, after: State): seq<Handle> {
    if |st.closes| <= |after.closes| then after.closes[|st.closes|..] else []
  }

  /** Apart from one that the command itself has opened, a stream is handed over for closing when
      it is not open exactly if a reconfiguration of it has failed before: one that failed this way
      is closed a second time. */
  lemma StaleCloseIffBroken(states: seq<State>, cmds: seq<Command>, h: Handle)
    requires Execution(states, cmds) && NeverReusesStale(states, cmds) && |cmds| > 0
    requires
      var st, cmd := states[|cmds| - 1], cmds[|cmds| - 1];
      h in NewlyClosed(st, states[|cmds|]) && !(OpensStream(st, cmd) && h == cmd.answers.address)
    ensures
      var n := |cmds| - 1;
      h !in states[n].live <==> exists c, u :: (c, u) in Broken(states[..n + 1], cmds[..n]) && Owns(states[n], c, u, h)
  {
    var n := |cmds| - 1;
    var st, after := states[n], states[n + 1];
    forall i | 0 <= i < n ensures !ReusesStale(states[..n + 1][i], cmds[..n][i]) {
      assert !ReusesStale(states[i], cmds[i]);
    }
    EveryRunSound(states[..n + 1], cmds[..n]);
    assert Next(st, cmds[n], after);
    ClosesOwnHandles(st, cmds[n], after, h);
    var c, u :| Owns(st, c, u, h);
  }

  lemma ClosesOwnHandles(st: State, cmd: Command, after: State, h: Handle)
    requires Next(st, cmd, after) && h in NewlyClosed(st, after) && !(OpensStream(st, cmd) && h == cmd.answers.address)
    ensures Owned(st, h)
  {
    match cmd
    case RegisterCommand(c, u, a) =>
      assert Present(st, c, u) && Owns(st, c, u, h);
    case DeregisterCommand(c, u) =>
      assert Present(st, c, u) && Owns(st, c, u, h);
    case CloseAllCommand =>
      OwnersAre(st, h);
  }

  /** What a registration answers and what it leaves behind are not the same: a new use case is
      registered and running exactly when the calls up to the start succeed, even if the
      acknowledgement then fails and the client is told so. */
  lemma RegisteredIff(st: State, c: ClientId, u: UsecaseId, a: Answers)
    requires !Present(st, c, u) && (a.canOpen ==> a.address !in st.live)
    ensures
      var (after, status) := Register(st, c, u, a);
      && (Present(after, c, u) <==> a.known && a.data && a.canOpen && a.configure && a.start)
      && (Present(after, c, u) ==> after.clients[c][u].handle in after.live)
      && (!Present(after, c, u) ==> after.live == st.live)
      && (status == Success <==> Present(after, c, u) && a.ack)
  {
  }

  /** A request for a use case that is there already never adds or removes an entry; it closes the
      stream exactly if the reconfiguration fails, and succeeds exactly if everything does. */
  lemma ReconfiguredIff(st: State, c: ClientId, u: UsecaseId, a: Answers)
    requires Present(st, c, u)
    ensures
      var (after, status) := Register(st, c, u, a);
      var h := st.clients[c][u].handle;
      && after.clients == st.clients
      && (status == Success <==> a.data && a.configure && a.ack)
      && (if a.data && !a.configure then after.live == st.live - {h} && after.closes == st.closes + [h]
          else after.live == st.live && after.closes == st.closes)
  {
  }

  /** A deregistration reports success exactly if there is such a use case, even if the teardown fails,
      and then closes its stream. */
  lemma DeregisteredIff(st: State, c: ClientId, u: UsecaseId)
    ensures
      var (after, status) := Deregister(st, c, u);
      && (status == Success <==> c in st.clients && u in st.clients[c])
      && (if status == Success then after.closes == st.closes + [st.clients[c][u].handle] else after == st)
  {
  }

  /** Every request names its client, whatever becomes of it, and leaves all others alone. */
  lemma RequestNamesClient(st: State, c: ClientId, u: UsecaseId, a: Answers, d: ClientId)
    ensures
      var after := Register(st, c, u, a).0;
      && (d in after.clients <==> d in st.clients || d == c)
      && (d in st.clients && d != c ==> after.clients[d] == st.clients[d])
  {
  }

  /** Registering a new use case and deregistering it again gives back the client's use cases
      and the open streams. */
  lemma RegisterThenDeregister(st: State, c: ClientId, u: UsecaseId, a: Answers)
    requires c in st.clients && !Present(st, c, u) && (a.canOpen ==> a.address !in st.live)
    ensures
      var back := Deregister(Register(st, c, u, a).0, c, u).0;
      back.clients == st.clients && back.live == st.live
  {
    var us: Usecases := st.clients[c];
    var added: Usecases := us[u := Usecase(a.address)];
    assert added - {u} == us;
    assert st.clients[c := added][c := us] == st.clients;
  }

  // ---------------------------------------------------------------- a failed reconfiguration, from the start

  const FINE := Answers(true, true, true, true, true, true, 7)
  const REFUSED := FINE.(configure := false)

  function Add(u: UsecaseId): Usecases {
    map[][u := Usecase(7)]
  }

  /** The state after a use case was registered and its reconfiguration failed. */
  function OneBroken(): State {
    Register(Register(INITIAL, 1, 2, FINE).0, 1, 2, REFUSED).0
  }

  lemma OneBrokenIs()
    ensures OneBroken() == State(map[1 := Add(2)], {}, [7])
  {
    assert Register(INITIAL, 1, 2, FINE).0 == State(map[1 := Add(2)], {7}, []);
  }

  /** Its stream is closed at once, and again when it is deregistered. */
  lemma ClosedTwice()
    ensures Present(OneBroken(), 1, 2) && OneBroken().live == {}
    ensures Deregister(OneBroken(), 1, 2).0.closes == [7, 7]
  {
    OneBrokenIs();
  }

  /** If another use case gets the closed stream's address meanwhile, deregistering the first one
      closes the other one's stream. */
  lemma ReusedAddressIsClosed()
    ensures
      var shared := Register(OneBroken(), 1, 3, FINE).0;
      var after := Deregister(shared, 1, 2).0;
      && Owns(shared, 1, 2, 7) && Owns(shared, 1, 3, 7) && shared.live == {7}
      && Owns(after, 1, 3, 7) && after.live == {}
  {
    OneBrokenIs();
  }
}
