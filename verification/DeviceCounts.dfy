/** Streams attached to shared devices: the device's open count and start count against the
    device lists of all streams, through every failure exit of connecting and disconnecting. */
module DeviceCounts {

  type DeviceId = int

  const OUT_SPEAKER: DeviceId := 3
  const OUT_BLUETOOTH_A2DP: DeviceId := 8
  const OUT_USB_HEADSET: DeviceId := 12
  const OUT_BLUETOOTH_BLE: DeviceId := 22
  const IN_USB_HEADSET: DeviceId := 39

  const EINVAL: int := 22
  const ENOSYS: int := 38
  const ENETRESET: int := 102

  datatype StreamState = Idle | Init | Opened | Started | Paused | Suspended | Stopped

  /** Platform facts: the backend a device plays through and which devices are Bluetooth. */
  datatype Config = Config(backend: DeviceId -> string, isBluetooth: DeviceId -> bool, speakerProtection: bool)

  /** What the unseen parts answer during one operation; zero is success. */
  datatype Answers = Answers(
    instance: bool,
    cardDown: bool,
    openStatus: int,
    setupStatus: int,
    payloadStatus: int,
    connectStatus: int,
    boostStatus: int,
    disconnectStatus: int,
    usbConnected: bool)

  /** The counts of a device, whether its hardware path is enabled, and whether it carries a
      custom payload. */
  datatype Counts = Counts(opens: int, starts: int, enabled: bool, payload: bool)

  // ---------------------------------------------------------------- device operations

  function OpenDevice(d: Counts, status: int): (Counts, int) {
    if d.opens == 0 && status != 0 then (d, status)
    else (d.(opens := d.opens + 1, enabled := d.enabled || d.opens == 0), 0)
  }

  function CloseDevice(d: Counts): Counts {
    if d.opens <= 0 then d
    else if d.opens == 1 then Counts(0, 0, false, false)
    else d.(opens := d.opens - 1)
  }

  function StartDevice(d: Counts, backend: string, payloadStatus: int): (Counts, int) {
    if d.starts != 0 then (d.(starts := d.starts + 1), 0)
    else if backend == "" then (d, -EINVAL)
    else (d.(starts := d.starts + 1), if d.payload then payloadStatus else 0)
  }

  function StopDevice(d: Counts): Counts {
    if d.starts > 0 then d.(starts := d.starts - 1) else d
  }

  class Device {
    const id: DeviceId
    var deviceCount: int
    var deviceStartStopCount: int
    var enabled: bool
    var hasPayload: bool

    constructor (id: DeviceId, hasPayload: bool)
      ensures this.id == id && Value() == Counts(0, 0, false, hasPayload)
    {
      this.id := id;
      deviceCount, deviceStartStopCount, enabled, this.hasPayload := 0, 0, false, hasPayload;
    }

    function Value(): Counts
      reads this
    {
      Counts(deviceCount, deviceStartStopCount, enabled, hasPayload)
    }

    method Open(openStatus: int) returns (status: int)
      modifies this
      ensures (Value(), status) == OpenDevice(old(Value()), openStatus)
    {
      status := 0;
      if deviceCount == 0 {
        status := openStatus;
        if status != 0 {
          return;
        }
        enabled := true;
      }
      deviceCount := deviceCount + 1;
    }

    method Close()
      modifies this
      ensures Value() == CloseDevice(old(Value()))
    {
      if deviceCount > 0 {
        deviceCount := deviceCount - 1;
        if deviceCount == 0 {
          enabled := false;
          deviceStartStopCount := 0;
          hasPayload := false;
        }
      }
    }

    method Start(backend: string, payloadStatus: int) returns (status: int)
      modifies this
      ensures (Value(), status) == StartDevice(old(Value()), backend, payloadStatus)
    {
      status := 0;
      if deviceStartStopCount == 0 {
        if |backend| == 0 {
          return -EINVAL;
        }
        if hasPayload {
          status := payloadStatus;
        }
      }
      deviceStartStopCount := deviceStartStopCount + 1;
    }

    method Stop()
      modifies this
      ensures Value() == StopDevice(old(Value()))
    {
      if deviceStartStopCount > 0 {
        deviceStartStopCount := deviceStartStopCount - 1;
      }
    }
  }

  // ---------------------------------------------------------------- stream operations

  datatype StreamValue = StreamValue(devices: seq<DeviceId>, state: StreamState, mmap: bool)
  {
    predicate Running() {
      state != Init && state != Stopped
    }

    /** Whether being attached to the device includes having started it. */
    predicate Starts(d: DeviceId) {
      Running() || (mmap && d in {OUT_BLUETOOTH_A2DP, OUT_BLUETOOTH_BLE, OUT_SPEAKER})
    }
  }

  function WithoutFirst(l: seq<DeviceId>, d: DeviceId): seq<DeviceId> {
    if l == [] then [] else if l[0] == d then l[1..] else [l[0]] + WithoutFirst(l[1..], d)
  }

  predicate BackendTaken(c: Config, l: seq<DeviceId>, d: DeviceId) {
    exists i :: 0 <= i < |l| && c.backend(l[i]) == c.backend(d)
  }

  /** A failed connect gives the device back, unless the sound card was reset meanwhile. */
  function GiveBack(l: seq<DeviceId>, d: DeviceId, v: Counts, status: int): (seq<DeviceId>, Counts, int) {
    if status != -ENETRESET then (l, CloseDevice(v), status) else (l + [d], v, status)
  }

  function AttachSession(l: seq<DeviceId>, d: DeviceId, v: Counts, a: Answers): (seq<DeviceId>, Counts, int) {
    if a.connectStatus == 0 then (l + [d], v, a.boostStatus)
    else GiveBack(l, d, if a.connectStatus != -ENETRESET then StopDevice(v) else v, a.connectStatus)
  }

  function SetUp(c: Config, s: StreamValue, d: DeviceId, v: Counts, a: Answers): (seq<DeviceId>, Counts, int) {
    if a.setupStatus != 0 then GiveBack(s.devices, d, v, a.setupStatus)
    else if s.Starts(d) then
      var (v', status) := StartDevice(v, c.backend(d), a.payloadStatus);
      if status != 0 then GiveBack(s.devices, d, v', status) else AttachSession(s.devices, d, v', a)
    else if c.isBluetooth(d) && s.state == Stopped then (s.devices + [d], v, 0)
    else AttachSession(s.devices, d, v, a)
  }

  /** The stream's devices, the device's counts and the status after connecting. */
  function Connect(c: Config, s: StreamValue, d: DeviceId, v: Counts, a: Answers): (seq<DeviceId>, Counts, int) {
    if !a.instance then (s.devices, v, 0)
    else if s.state == Idle || a.cardDown then (s.devices + [d], v, 0)
    else if BackendTaken(c, s.devices, d) then (s.devices, v, 0)
    else
      var (v', status) := OpenDevice(v, a.openStatus);
      if status != 0 then (s.devices, v', status) else SetUp(c, s, d, v', a)
  }

  /** A failure on a USB headset that is gone is reported as such. */
  function UsbStatus(d: DeviceId, status: int, usbConnected: bool): int {
    if status != 0 && d in {OUT_USB_HEADSET, IN_USB_HEADSET} && !usbConnected then -ENOSYS else status
  }

  /** Stopping, detaching and closing one device. With speaker protection a running speaker
      is stopped first, and then not again. */
  function TakeDown(c: Config, s: StreamValue, d: DeviceId, v: Counts, a: Answers): (Counts, int) {
    var early := s.Running() && d == OUT_SPEAKER && c.speakerProtection;
    var v1 := if early then StopDevice(v) else v;
    if a.disconnectStatus != 0 then (v1, a.disconnectStatus)
    else (CloseDevice(if s.Starts(d) && !early then StopDevice(v1) else v1), 0)
  }

  function Disconnect(c: Config, s: StreamValue, d: DeviceId, v: Counts, a: Answers): (seq<DeviceId>, Counts, int) {
    if s.state == Idle || a.cardDown then (WithoutFirst(s.devices, d), v, 0)
    else if d !in s.devices then (s.devices, v, 0)
    else
      var (v', status) := TakeDown(c, s, d, v, a);
      (if status == 0 then WithoutFirst(s.devices, d) else s.devices, v', status)
  }

  function Ids(devices: seq<Device>): (r: seq<DeviceId>)
    ensures |r| == |devices| && forall i :: 0 <= i < |r| ==> r[i] == devices[i].id
  {
    seq(|devices|, i requires 0 <= i < |devices| => devices[i].id)
  }

  class Stream {
    var mDevices: seq<Device>
    var currentState: StreamState
    const isMMap: bool

    constructor (isMMap: bool)
      ensures this.isMMap == isMMap && mDevices == [] && currentState == Idle
    {
      this.isMMap := isMMap;
      mDevices, currentState := [], Idle;
    }

    function Value(): StreamValue
      reads this
    {
      StreamValue(Ids(mDevices), currentState, isMMap)
    }

    method SharesBackend(c: Config, d: DeviceId) returns (taken: bool)
      ensures taken <==> BackendTaken(c, Ids(mDevices), d)
    {
      var i := 0;
      while i < |mDevices|
        invariant 0 <= i <= |mDevices|
        invariant forall j :: 0 <= j < i ==> c.backend(mDevices[j].id) != c.backend(d)
      {
        if c.backend(mDevices[i].id) == c.backend(d) {
          assert c.backend(Ids(mDevices)[i]) == c.backend(d);
          return true;
        }
        i := i + 1;
      }
      return false;
    }

    method ConnectStreamDevice(c: Config, dev: Device, a: Answers) returns (status: int)
      modifies this`mDevices, dev
      ensures
        var (l, v, st) := Connect(c, old(Value()), dev.id, old(dev.Value()), a);
        Ids(mDevices) == l && dev.Value() == v && status == UsbStatus(dev.id, st, a.usbConnected)
    {
      status := 0;
      if !a.instance {
        return;
      }
      if currentState == Idle || a.cardDown {
        mDevices := mDevices + [dev];
        assert Ids(mDevices) == old(Ids(mDevices)) + [dev.id];
        return;
      }
      var taken := SharesBackend(c, dev.id);
      if taken {
        return;
      }
      status := dev.Open(a.openStatus);
      if status == 0 {
        status := SetUpDevice(c, dev, a);
      }
      if status != 0 && (dev.id == OUT_USB_HEADSET || dev.id == IN_USB_HEADSET) && !a.usbConnected {
        status := -ENOSYS;
      }
    }

    /** The session side of connecting, with its two clean-up exits. */
    method SetUpDevice(c: Config, dev: Device, a: Answers) returns (status: int)
      modifies this`mDevices, dev
      ensures (Ids(mDevices), dev.Value(), status) == SetUp(c, old(Value()), dev.id, old(dev.Value()), a)
    {
      ghost var before := Ids(mDevices);
      mDevices := mDevices + [dev];
      assert Ids(mDevices) == before + [dev.id];
      status := a.setupStatus;
      if status != 0 {
        DropLast(dev, status);
        return;
      }
      if (currentState != Init && currentState != Stopped) ||
         ((dev.id == OUT_BLUETOOTH_A2DP || dev.id == OUT_BLUETOOTH_BLE || dev.id == OUT_SPEAKER) && isMMap)
      {
        status := dev.Start(c.backend(dev.id), a.payloadStatus);
        if status != 0 {
          DropLast(dev, status);
          return;
        }
      } else if c.isBluetooth(dev.id) && currentState == Stopped {
        return;
      }
      status := a.connectStatus;
      if status != 0 {
        if status != -ENETRESET {
          dev.Stop();
        }
        DropLast(dev, status);
        return;
      }
      status := a.boostStatus;
    }

    method DropLast(dev: Device, status: int)
      requires mDevices != [] && mDevices[|mDevices| - 1] == dev
      modifies this`mDevices, dev
      ensures
        var l := old(Ids(mDevices))[..|old(mDevices)| - 1];
        (Ids(mDevices), dev.Value(), status) == GiveBack(l, dev.id, old(dev.Value()), status)
    {
      ghost var ids := Ids(mDevices);
      assert ids == ids[..|mDevices| - 1] + [dev.id];
      if status != -ENETRESET {
        mDevices := mDevices[..|mDevices| - 1];
        assert Ids(mDevices) == ids[..|ids| - 1];
        dev.Close();
      }
    }

    method FirstIndex(d: DeviceId) returns (i: nat)
      ensures i <= |mDevices| && forall j :: 0 <= j < i ==> mDevices[j].id != d
      ensures i < |mDevices| ==> mDevices[i].id == d
    {
      i := 0;
      while i < |mDevices| && mDevices[i].id != d
        invariant i <= |mDevices| && forall j :: 0 <= j < i ==> mDevices[j].id != d
      {
        i := i + 1;
      }
    }

    method TakeDownDevice(c: Config, dev: Device, a: Answers) returns (status: int)
      modifies dev
      ensures (dev.Value(), status) == TakeDown(c, Value(), dev.id, old(dev.Value()), a)
    {
      var stopped := false;
      if currentState != Init && currentState != Stopped && dev.id == OUT_SPEAKER && c.speakerProtection {
        dev.Stop();
        stopped := true;
      }
      status := a.disconnectStatus;
      if status != 0 {
        return;
      }
      if ((currentState != Init && currentState != Stopped) ||
          ((dev.id == OUT_BLUETOOTH_A2DP || dev.id == OUT_BLUETOOTH_BLE || dev.id == OUT_SPEAKER) && isMMap)) && !stopped
      {
        dev.Stop();
      }
      dev.Close();
    }

    method EraseAt(i: nat, d: DeviceId)
      requires i < |mDevices| && mDevices[i].id == d && forall j :: 0 <= j < i ==> mDevices[j].id != d
      modifies this`mDevices
      ensures Ids(mDevices) == WithoutFirst(old(Ids(mDevices)), d)
    {
      WithoutFirstIs(Ids(mDevices), d, i);
      mDevices := mDevices[..i] + mDevices[i + 1..];
    }

    /** An id stands for one object, so the counts of all other devices stay what they are. */
    method DisconnectStreamDevice(c: Config, d: DeviceId, a: Answers) returns (status: int)
      requires forall i, j :: 0 <= i < |mDevices| && 0 <= j < |mDevices| && mDevices[i].id == mDevices[j].id ==>
        mDevices[i] == mDevices[j]
      modifies this`mDevices, mDevices
      ensures forall x :: x in old(mDevices) && x.id != d ==> x.Value() == old(x.Value())
      ensures forall x :: x in old(mDevices) && x.id == d ==>
        (Ids(mDevices), x.Value(), status) == Disconnect(c, old(Value()), d, old(x.Value()), a)
      ensures d !in old(Ids(mDevices)) ==> Ids(mDevices) == old(Ids(mDevices)) && status == 0
    {
      status := 0;
      var i := FirstIndex(d);
      if i == |mDevices| {
        return;
      }
      assert Ids(mDevices)[i] == d;
      if currentState == Idle || a.cardDown {
        EraseAt(i, d);
        return;
      }
      status := TakeDownDevice(c, mDevices[i], a);
      if status == 0 {
        EraseAt(i, d);
      }
    }
  }

  lemma {:induction false} WithoutFirstIs(l: seq<DeviceId>, d: DeviceId, i: nat)
    requires i < |l| && l[i] == d && forall j :: 0 <= j < i ==> l[j] != d
    ensures WithoutFirst(l, d) == l[..i] + l[i + 1..]
  {
    if i > 0 {
      WithoutFirstIs(l[1..], d, i - 1);
      assert l[..i] == [l[0]] + l[1..][..i - 1];
    }
  }

  lemma {:induction false} WithoutFirstCounts(l: seq<DeviceId>, d: DeviceId)
    ensures d in l ==> multiset(WithoutFirst(l, d)) == multiset(l) - multiset{d}
    ensures d !in l ==> WithoutFirst(l, d) == l
  {
    if l != [] {
      assert l == [l[0]] + l[1..];
      WithoutFirstCounts(l[1..], d);
    }
  }

  // ---------------------------------------------------------------- one connection

  predicate CardUp(s: StreamValue, a: Answers) {
    s.state != Idle && !a.cardDown
  }

  /** A connect that fails leaves list, open count and path as they were, unless the card was
      reset meanwhile or only the boost setting failed. */
  lemma FailedConnectUndone(c: Config, s: StreamValue, d: DeviceId, v: Counts, a: Answers)
    requires CardUp(s, a) && v.opens >= 0 && (v.enabled <==> v.opens > 0) && a.boostStatus == 0
    ensures
      var (l, v', status) := Connect(c, s, d, v, a);
      status != 0 && status != -102 ==> l == s.devices && v'.opens == v.opens && v'.enabled == v.enabled
  {
  }

  /** Connecting a device and disconnecting it again, without failures, gives back the list and
      the counts of a device that others hold; one that nobody else holds ends closed. */
  lemma ConnectThenDisconnect(c: Config, s: StreamValue, d: DeviceId, v: Counts, a: Answers, b: Answers)
    requires CardUp(s, a) && CardUp(s, b) && a.instance && !BackendTaken(c, s.devices, d)
    requires a.openStatus == a.setupStatus == a.payloadStatus == a.connectStatus == a.boostStatus == b.disconnectStatus == 0
    requires 0 <= v.starts <= v.opens && (v.enabled <==> v.opens > 0) && c.backend(d) != ""
    ensures
      var (l, v', status) := Connect(c, s, d, v, a);
      var (l', v'', status') := Disconnect(c, s.(devices := l), d, v', b);
      && status == status' == 0 && l == s.devices + [d]
      && l' == s.devices
      && v'' == if v.opens > 0 then v else Counts(0, 0, false, false)
  {
    var l := s.devices + [d];
    var n := |s.devices|;
    forall j | 0 <= j < n ensures l[j] != d {
      assert c.backend(s.devices[j]) != c.backend(d);
    }
    WithoutFirstIs(l, d, n);
    assert l[..n] + l[n + 1..] == s.devices;
  }

  function FirstFailure(statuses: seq<int>): int {
    if statuses == [] then 0 else if statuses[0] != 0 then statuses[0] else FirstFailure(statuses[1..])
  }

  /** What a connect reports: nothing to do is success; else it is the first failure among the open,
      which is asked for by the first stream only, the set-up, the start, if the state of the stream
      asks for one, and the two last calls, which a stopped stream on Bluetooth does not come to. */
  lemma ConnectReports(c: Config, s: StreamValue, d: DeviceId, v: Counts, a: Answers)
    ensures
      var status := Connect(c, s, d, v, a).2;
      var opening := if v.opens == 0 then a.openStatus else 0;
      var starts := s.state in {Idle, Opened, Started, Paused, Suspended} || (s.mmap && d in {3, 8, 22});
      var starting := if !starts || v.starts != 0 then 0 else if c.backend(d) == "" then -22 else if v.payload then a.payloadStatus else 0;
      var last := if !starts && c.isBluetooth(d) && s.state == Stopped then [] else [a.connectStatus, a.boostStatus];
      status ==
        if !a.instance || s.state == Idle || a.cardDown || BackendTaken(c, s.devices, d) then 0
        else FirstFailure([opening, a.setupStatus, starting] + last)
  {
    var opening := if v.opens == 0 then a.openStatus else 0;
    var starting := if !s.Starts(d) || v.starts != 0 then 0 else if c.backend(d) == "" then -22 else if v.payload then a.payloadStatus else 0;
    FiveStatuses(opening, a.setupStatus, starting, a.connectStatus, a.boostStatus);
  }

  lemma FiveStatuses(x: int, y: int, z: int, u: int, w: int)
    ensures FirstFailure([x, y, z] + [u, w]) == if x != 0 then x else if y != 0 then y else if z != 0 then z else if u != 0 then u else w
    ensures FirstFailure([x, y, z] + []) == if x != 0 then x else if y != 0 then y else z
  {
    OneStatus(w, []);
    OneStatus(u, [w]);
    OneStatus(z, [u, w]);
    OneStatus(y, [z, u, w]);
    OneStatus(x, [y, z, u, w]);
    OneStatus(z, []);
    OneStatus(y, [z]);
    OneStatus(x, [y, z]);
    assert [x, y, z] + [u, w] == [x] + [y, z, u, w] && [y] + [z, u, w] == [y, z, u, w];
    assert [z] + [u, w] == [z, u, w] && [u] + [w] == [u, w] && [w] + [] == [w];
    assert [x, y, z] + [] == [x] + [y, z] && [y] + [z] == [y, z] && [z] + [] == [z];
  }

  lemma OneStatus(x: int, rest: seq<int>)
    ensures FirstFailure([x] + rest) == if x != 0 then x else FirstFailure(rest)
  {
    assert ([x] + rest)[1..] == rest;
  }

  /** What a disconnect reports: the answer of the session, or success if it is not asked. */
  lemma DisconnectReports(c: Config, s: StreamValue, d: DeviceId, v: Counts, a: Answers)
    ensures Disconnect(c, s, d, v, a).2
         == if s.state == Idle || a.cardDown || d !in s.devices then 0 else a.disconnectStatus
  {
  }

  /** What becomes of it on the way out: a failure on a USB headset that is gone is reported as such. */
  lemma UsbReports(d: DeviceId, status: int, usbConnected: bool)
    ensures UsbStatus(d, status, usbConnected) == 0 <==> status == 0
    ensures status != 0 ==> UsbStatus(d, status, usbConnected) == if (d == 12 || d == 39) && !usbConnected then -38 else status
  {
  }

  /** Which attachments include a start: those of a stream that is neither set up only nor stopped,
      and of an MMAP stream to the speaker or a Bluetooth device. */
  lemma AttachmentStartsIff(c: Config, s: StreamValue, d: DeviceId, v: Counts, a: Answers, b: Answers)
    requires CardUp(s, a) && CardUp(s, b) && a.instance && !BackendTaken(c, s.devices, d)
    requires a.openStatus == a.setupStatus == a.payloadStatus == a.connectStatus == a.boostStatus == b.disconnectStatus == 0
    requires 0 <= v.starts && 0 <= v.opens && c.backend(d) != ""
    ensures
      var starts := s.state in {Opened, Started, Paused, Suspended} || (s.mmap && d in {3, 8, 22});
      Connect(c, s, d, v, a).1.starts == v.starts + if starts then 1 else 0
    ensures
      var stops := s.state in {Opened, Started, Paused, Suspended} || (s.mmap && d in {3, 8, 22});
      d in s.devices && v.opens > 1 && v.starts > 0 ==>
        Disconnect(c, s, d, v, b).1.starts == v.starts - if stops then 1 else 0
  {
  }

  // ---------------------------------------------------------------- the whole system

  /** All devices by id and all streams. */
  datatype System = System(devices: map<DeviceId, Counts>, streams: seq<StreamValue>)

  datatype Op =
    | Attach(stream: nat, device: DeviceId, answers: Answers)
    | Detach(stream: nat, device: DeviceId, answers: Answers)

  predicate Possible(y: System, op: Op) {
    op.stream < |y.streams| && op.device in y.devices
  }

  function Result(c: Config, y: System, op: Op): (seq<DeviceId>, Counts, int)
    requires Possible(y, op)
  {
    var s, v := y.streams[op.stream], y.devices[op.device];
    match op
    case Attach(_, d, a) => Connect(c, s, d, v, a)
    case Detach(_, d, a) => Disconnect(c, s, d, v, a)
  }

  function Step(c: Config, y: System, op: Op): System {
    if !Possible(y, op) then y
    else
      var (l, v, _) := Result(c, y, op);
      System(y.devices[op.device := v], y.streams[op.stream := y.streams[op.stream].(devices := l)])
  }

  /** Beside connecting and disconnecting, a stream may change its state, and a device may be
      given a payload. */
  datatype Event =
    | Operation(op: Op)
    | SetState(stream: nat, state: StreamState)
    | SetPayload(device: DeviceId)

  function Advance(c: Config, y: System, e: Event): System {
    match e
    case Operation(op) => Step(c, y, op)
    case SetState(i, state) =>
      if i < |y.streams| then y.(streams := y.streams[i := y.streams[i].(state := state)]) else y
    case SetPayload(d) =>
      if d in y.devices then y.(devices := y.devices[d := y.devices[d].(payload := true)]) else y
  }

  function Run(c: Config, y: System, events: seq<Event>): System {
    if events == [] then y else Advance(c, Run(c, y, events[..|events| - 1]), events[|events| - 1])
  }

  /** How often the device occurs in the lists of all streams. */
  function Attached(streams: seq<StreamValue>, d: DeviceId): nat {
    if streams == [] then 0 else Attached(streams[1..], d) + multiset(streams[0].devices)[d]
  }

  /** How often it occurs in the lists of the streams that start it. */
  function Starters(streams: seq<StreamValue>, d: DeviceId): nat {
    if streams == [] then 0
    else Starters(streams[1..], d) + if streams[0].Starts(d) then multiset(streams[0].devices)[d] else 0
  }

  lemma {:induction false} AttachedUpdate(streams: seq<StreamValue>, i: nat, l: seq<DeviceId>, d: DeviceId)
    requires i < |streams|
    ensures Attached(streams[i := streams[i].(devices := l)], d) + multiset(streams[i].devices)[d]
         == Attached(streams, d) + multiset(l)[d]
  {
    var u := streams[i := streams[i].(devices := l)];
    if i == 0 {
      assert u[1..] == streams[1..];
    } else {
      AttachedUpdate(streams[1..], i - 1, l, d);
      assert u[1..] == streams[1..][i - 1 := streams[i].(devices := l)];
    }
  }

  lemma {:induction false} StartersUpdate(streams: seq<StreamValue>, i: nat, l: seq<DeviceId>, d: DeviceId)
    requires i < |streams|
    ensures
      var part := (x: seq<DeviceId>) => if streams[i].Starts(d) then multiset(x)[d] else 0;
      Starters(streams[i := streams[i].(devices := l)], d) + part(streams[i].devices)
      == Starters(streams, d) + part(l)
  {
    var u := streams[i := streams[i].(devices := l)];
    if i == 0 {
      assert u[1..] == streams[1..];
    } else {
      StartersUpdate(streams[1..], i - 1, l, d);
      assert u[1..] == streams[1..][i - 1 := streams[i].(devices := l)];
    }
  }

  predicate DistinctBackends(c: Config, l: seq<DeviceId>) {
    forall i, j :: 0 <= i < j < |l| ==> c.backend(l[i]) != c.backend(l[j])
  }

  /** Each device is opened once for every place it has in some stream's list, its hardware
      path is enabled exactly when there is one, and no stream uses one backend twice. */
  predicate OpensConserved(c: Config, y: System) {
    && (forall d :: d in y.devices ==>
        y.devices[d].opens == Attached(y.streams, d) && (y.devices[d].enabled <==> Attached(y.streams, d) > 0))
    && (forall i :: 0 <= i < |y.streams| ==> DistinctBackends(c, y.streams[i].devices))
  }

  /** The path that edits a stream's list without opening or closing anything. */
  predicate EditsOnly(y: System, op: Op) {
    Possible(y, op) && (y.streams[op.stream].state == Idle || op.answers.cardDown)
    && if op.Attach? then op.answers.instance else op.device in y.streams[op.stream].devices
  }

  predicate EventEditsOnly(y: System, e: Event) {
    e.Operation? && EditsOnly(y, e.op)
  }

  /** The possible effects of one operation on the list of its stream. */
  datatype Effect = Unchanged | Added | Removed

  function Apply(f: Effect, l: seq<DeviceId>, d: DeviceId): seq<DeviceId> {
    match f
    case Unchanged => l
    case Added => l + [d]
    case Removed => WithoutFirst(l, d)
  }

  function Delta(f: Effect): int {
    match f
    case Unchanged => 0
    case Added => 1
    case Removed => -1
  }

  /** An opened device is either added to the list and kept open or left out and closed. */
  lemma SetUpBalanced(c: Config, s: StreamValue, d: DeviceId, v: Counts, a: Answers)
    requires v.opens > 0 && v.enabled
    ensures
      var (l', v', _) := SetUp(c, s, d, v, a);
      && ((l' == s.devices + [d] && v'.opens == v.opens) || (l' == s.devices && v'.opens == v.opens - 1))
      && (v'.enabled <==> v'.opens > 0)
  {
  }

  lemma ConnectBalanced(c: Config, s: StreamValue, d: DeviceId, v: Counts, a: Answers) returns (f: Effect)
    requires v.opens >= 0 && (v.enabled <==> v.opens > 0)
    requires s.state == Idle || a.cardDown ==> !a.instance
    ensures
      var (l', v', _) := Connect(c, s, d, v, a);
      && l' == Apply(f, s.devices, d) && v'.opens == v.opens + Delta(f) && (v'.enabled <==> v'.opens > 0)
    ensures f == Unchanged || (f == Added && !BackendTaken(c, s.devices, d))
  {
    SetUpBalanced(c, s, d, OpenDevice(v, 0).0, a);
    f := if Connect(c, s, d, v, a).1.opens == v.opens then Unchanged else Added;
  }

  lemma DisconnectBalanced(c: Config, s: StreamValue, d: DeviceId, v: Counts, a: Answers) returns (f: Effect)
    requires v.opens >= multiset(s.devices)[d] && (v.enabled <==> v.opens > 0)
    requires s.state == Idle || a.cardDown ==> d !in s.devices
    ensures
      var (l', v', _) := Disconnect(c, s, d, v, a);
      && l' == Apply(f, s.devices, d) && v'.opens == v.opens + Delta(f) && (v'.enabled <==> v'.opens > 0)
    ensures f == Unchanged || (f == Removed && d in s.devices)
  {
    WithoutFirstCounts(s.devices, d);
    f := if Disconnect(c, s, d, v, a).1.opens == v.opens then Unchanged else Removed;
  }

  /** Away from the editing path, whatever fails, the open count follows the list. */
  lemma ResultBalanced(c: Config, y: System, op: Op) returns (f: Effect)
    requires Possible(y, op) && !EditsOnly(y, op)
    requires var v := y.devices[op.device];
      v.opens >= multiset(y.streams[op.stream].devices)[op.device] && (v.enabled <==> v.opens > 0)
    ensures
      var l := y.streams[op.stream].devices;
      var (l', v', _) := Result(c, y, op);
      && l' == Apply(f, l, op.device)
      && v'.opens == y.devices[op.device].opens + Delta(f)
      && (v'.enabled <==> v'.opens > 0)
      && (f == Added ==> !BackendTaken(c, l, op.device))
      && (f == Removed ==> op.device in l)
  {
    match op
    case Attach(i, d, a) => f := ConnectBalanced(c, y.streams[i], d, y.devices[d], a);
    case Detach(i, d, a) => f := DisconnectBalanced(c, y.streams[i], d, y.devices[d], a);
  }

  lemma ApplyCounts(f: Effect, l: seq<DeviceId>, d: DeviceId, k: DeviceId)
    requires f == Removed ==> d in l
    ensures multiset(Apply(f, l, d))[k] as int == multiset(l)[k] as int + if k == d then Delta(f) else 0
  {
    WithoutFirstCounts(l, d);
  }

  lemma ApplyDistinct(c: Config, f: Effect, l: seq<DeviceId>, d: DeviceId)
    requires DistinctBackends(c, l)
    requires f == Added ==> !BackendTaken(c, l, d)
    requires f == Removed ==> d in l
    ensures DistinctBackends(c, Apply(f, l, d))
  {
    if f == Removed {
      var i := IndexOf(l, d);
      WithoutFirstIs(l, d, i);
    }
  }

  lemma IndexOf(l: seq<DeviceId>, d: DeviceId) returns (i: nat)
    requires d in l
    ensures i < |l| && l[i] == d && forall j :: 0 <= j < i ==> l[j] != d
  {
    i := 0;
    while l[i] != d
      invariant i < |l| && forall j :: 0 <= j < i ==> l[j] != d
      decreases |l| - i
    {
      i := i + 1;
    }
  }

  lemma {:induction false} AttachedAtLeast(streams: seq<StreamValue>, i: nat, d: DeviceId)
    requires i < |streams|
    ensures Attached(streams, d) >= multiset(streams[i].devices)[d]
  {
    if i > 0 {
      AttachedAtLeast(streams[1..], i - 1, d);
    }
  }

  /** The system with one device's counts and one stream's list replaced. */
  function Updated(y: System, i: nat, d: DeviceId, l: seq<DeviceId>, v: Counts): System
    requires i < |y.streams|
  {
    System(y.devices[d := v], y.streams[i := y.streams[i].(devices := l)])
  }

  /** An operation, failing anywhere or nowhere, keeps the open counts right exactly when it
      does not take the path that only edits the list. */
  lemma OpensConservedIff(c: Config, y: System, op: Op)
    requires OpensConserved(c, y)
    ensures OpensConserved(c, Step(c, y, op)) <==> !EditsOnly(y, op)
  {
    if Possible(y, op) {
      var i, d := op.stream, op.device;
      AttachedAtLeast(y.streams, i, d);
      var (l, v, _) := Result(c, y, op);
      assert Step(c, y, op) == Updated(y, i, d, l, v);
      if EditsOnly(y, op) {
        EditsBreakOpens(c, y, op);
      } else {
        var f := ResultBalanced(c, y, op);
        OpensFollow(c, y, i, d, v, f);
      }
    }
  }

  lemma EditsBreakOpens(c: Config, y: System, op: Op)
    requires OpensConserved(c, y) && Possible(y, op) && EditsOnly(y, op)
    ensures !OpensConserved(c, Step(c, y, op))
  {
    WithoutFirstCounts(y.streams[op.stream].devices, op.device);
    AttachedUpdate(y.streams, op.stream, Result(c, y, op).0, op.device);
  }

  lemma OpensFollow(c: Config, y: System, i: nat, d: DeviceId, v: Counts, f: Effect)
    requires OpensConserved(c, y) && i < |y.streams| && d in y.devices
    requires v.opens == y.devices[d].opens + Delta(f) && (v.enabled <==> v.opens > 0)
    requires f == Added ==> !BackendTaken(c, y.streams[i].devices, d)
    requires f == Removed ==> d in y.streams[i].devices
    ensures OpensConserved(c, Updated(y, i, d, Apply(f, y.streams[i].devices, d), v))
  {
    var l := y.streams[i].devices;
    ApplyDistinct(c, f, l, d);
    forall k | k in y.devices
      ensures Attached(y.streams[i := y.streams[i].(devices := Apply(f, l, d))], k)
           == Attached(y.streams, k) + if k == d then Delta(f) else 0
    {
      ApplyCounts(f, l, d, k);
      AttachedUpdate(y.streams, i, Apply(f, l, d), k);
    }
  }

  lemma {:induction false} StateUpdate(streams: seq<StreamValue>, i: nat, state: StreamState, d: DeviceId)
    requires i < |streams|
    ensures
      var changed := streams[i].(state := state);
      var u := streams[i := changed];
      && Attached(u, d) == Attached(streams, d)
      && Starters(u, d) + (if streams[i].Starts(d) then multiset(streams[i].devices)[d] else 0)
         == Starters(streams, d) + if changed.Starts(d) then multiset(streams[i].devices)[d] else 0
  {
    var u := streams[i := streams[i].(state := state)];
    if i == 0 {
      assert u[1..] == streams[1..];
    } else {
      StateUpdate(streams[1..], i - 1, state, d);
      assert u[1..] == streams[1..][i - 1 := streams[i].(state := state)];
    }
  }

  /** The same for all events: changes of state and payload leave the opens alone. */
  lemma EventOpensConservedIff(c: Config, y: System, e: Event)
    requires OpensConserved(c, y)
    ensures OpensConserved(c, Advance(c, y, e)) <==> !EventEditsOnly(y, e)
  {
    match e
    case Operation(op) => OpensConservedIff(c, y, op);
    case SetState(i, state) =>
      if i < |y.streams| {
        forall d | d in y.devices ensures Attached(Advance(c, y, e).streams, d) == Attached(y.streams, d) {
          StateUpdate(y.streams, i, state, d);
        }
      }
    case SetPayload(d) =>
  }

  predicate NeverEditsOnly(c: Config, y: System, events: seq<Event>) {
    events != [] ==>
      NeverEditsOnly(c, y, events[..|events| - 1]) && !EventEditsOnly(Run(c, y, events[..|events| - 1]), events[|events| - 1])
  }

  /** Over every run in which no stream connects or disconnects while it is idle or the card is
      down, with any failures anywhere and any changes of state, opens stay conserved. */
  lemma {:induction false} OpensConservedOverRuns(c: Config, y: System, events: seq<Event>)
    requires OpensConserved(c, y) && NeverEditsOnly(c, y, events)
    ensures OpensConserved(c, Run(c, y, events))
  {
    if events != [] {
      OpensConservedOverRuns(c, y, events[..|events| - 1]);
      EventOpensConservedIff(c, Run(c, y, events[..|events| - 1]), events[|events| - 1]);
    }
  }

  // ---------------------------------------------------------------- start counts

  /** Each device is started once for every place it has in the list of a stream that
      starts its devices. */
  predicate StartsConserved(y: System) {
    forall d :: d in y.devices ==> y.devices[d].starts == Starters(y.streams, d)
  }

  /** The failures that leave the start count wrong: a set-up lost to a reset, which leaves the
      device attached but not started; a first start whose payload is refused on a device others
      hold open; a stop on the way out of a connect that never started the device; and a
      disconnect refused after the early stop of speaker protection. */
  predicate LosesStarts(c: Config, y: System, op: Op)
    requires Possible(y, op)
  {
    var s, v, a := y.streams[op.stream], y.devices[op.device], op.answers;
    if op.Attach? then
      && a.instance && s.state != Idle && !a.cardDown && !BackendTaken(c, s.devices, op.device)
      && (v.opens > 0 || a.openStatus == 0)
      && if a.setupStatus != 0 then a.setupStatus == -ENETRESET && s.Starts(op.device)
         else if s.Starts(op.device)
         then && v.starts == 0 && c.backend(op.device) != "" && v.payload && v.opens > 0
              && a.payloadStatus != 0 && a.payloadStatus != -ENETRESET
         else && !(c.isBluetooth(op.device) && s.state == Stopped) && v.starts > 0
              && a.connectStatus != 0 && a.connectStatus != -ENETRESET
    else
      && op.device in s.devices && s.Running() && op.device == OUT_SPEAKER && c.speakerProtection
      && a.disconnectStatus != 0
  }

  lemma {:induction false} StartersAtMost(streams: seq<StreamValue>, d: DeviceId)
    ensures Starters(streams, d) <= Attached(streams, d)
  {
    if streams != [] {
      StartersAtMost(streams[1..], d);
    }
  }

  lemma {:induction false} StartersAtLeast(streams: seq<StreamValue>, i: nat, d: DeviceId)
    requires i < |streams| && streams[i].Starts(d)
    ensures Starters(streams, d) >= multiset(streams[i].devices)[d]
  {
    if i > 0 {
      StartersAtLeast(streams[1..], i - 1, d);
    }
  }

  /** The part of the start count that is due after an operation with effect `f`. */
  function StartsDue(y: System, op: Op, f: Effect): int
    requires Possible(y, op)
  {
    y.devices[op.device].starts + if y.streams[op.stream].Starts(op.device) then Delta(f) else 0
  }

  /** The counts around an operation, as far as its own device is concerned. */
  predicate Around(c: Config, y: System, op: Op, f: Effect) {
    && Possible(y, op) && !EditsOnly(y, op)
    && (var s, v := y.streams[op.stream], y.devices[op.device];
        && v.opens >= multiset(s.devices)[op.device] && 0 <= v.starts <= v.opens
        && (s.Starts(op.device) ==> v.starts >= multiset(s.devices)[op.device])
        && (!s.Starts(op.device) ==> v.starts + multiset(s.devices)[op.device] <= v.opens))
    && (var (l', v', _) := Result(c, y, op);
        && l' == Apply(f, y.streams[op.stream].devices, op.device)
        && v'.opens == y.devices[op.device].opens + Delta(f))
  }

  lemma AttachStarts(c: Config, y: System, op: Op, f: Effect)
    requires Around(c, y, op, f) && op.Attach?
    ensures Result(c, y, op).1.starts == StartsDue(y, op, f) <==> !LosesStarts(c, y, op)
  {
  }

  lemma DetachStarts(c: Config, y: System, op: Op, f: Effect)
    requires Around(c, y, op, f) && op.Detach?
    ensures Result(c, y, op).1.starts == StartsDue(y, op, f) <==> !LosesStarts(c, y, op)
  {
  }

  /** In a system with conserved counts, an operation leaves the device started as often as
      due exactly when it does not lose a start. */
  lemma ResultStarts(c: Config, y: System, op: Op, f: Effect)
    requires Around(c, y, op, f)
    ensures Result(c, y, op).1.starts == StartsDue(y, op, f) <==> !LosesStarts(c, y, op)
  {
    if op.Attach? {
      AttachStarts(c, y, op, f);
    } else {
      DetachStarts(c, y, op, f);
    }
  }

  lemma StartsConservedIff(c: Config, y: System, op: Op)
    requires OpensConserved(c, y) && StartsConserved(y)
    requires Possible(y, op) && !EditsOnly(y, op)
    ensures StartsConserved(Step(c, y, op)) <==> !LosesStarts(c, y, op)
  {
    var s, d := y.streams[op.stream], op.device;
    AttachedAtLeast(y.streams, op.stream, d);
    var f := ResultBalanced(c, y, op);
    StartersAtMost(y.streams, d);
    if s.Starts(d) {
      StartersAtLeast(y.streams, op.stream, d);
    } else {
      StartersLeaveRoom(y.streams, op.stream, d);
    }
    ResultStarts(c, y, op, f);
    var (l, v, _) := Result(c, y, op);
    assert Step(c, y, op) == Updated(y, op.stream, d, l, v);
    StartsFollowIff(y, op.stream, d, v, f);
  }

  /** Once the list has changed by `f`, the starts are conserved exactly if the device was started
      or stopped along with it. */
  lemma StartsFollowIff(y: System, i: nat, d: DeviceId, v: Counts, f: Effect)
    requires StartsConserved(y) && i < |y.streams| && d in y.devices
    requires f == Removed ==> d in y.streams[i].devices
    ensures StartsConserved(Updated(y, i, d, Apply(f, y.streams[i].devices, d), v))
       <==> v.starts == y.devices[d].starts + if y.streams[i].Starts(d) then Delta(f) else 0
  {
    var s := y.streams[i];
    var u := Updated(y, i, d, Apply(f, s.devices, d), v);
    forall k | k in y.devices
      ensures Starters(u.streams, k) == Starters(y.streams, k) + if k == d && s.Starts(d) then Delta(f) else 0
    {
      ApplyCounts(f, s.devices, d, k);
      StartersUpdate(y.streams, i, Apply(f, s.devices, d), k);
    }
  }

  lemma {:induction false} StartersLeaveRoom(streams: seq<StreamValue>, i: nat, d: DeviceId)
    requires i < |streams| && !streams[i].Starts(d)
    ensures Starters(streams, d) + multiset(streams[i].devices)[d] <= Attached(streams, d)
  {
    StartersAtMost(streams[1..], d);
    if i > 0 {
      StartersLeaveRoom(streams[1..], i - 1, d);
    }
  }

  /** A change of state that turns attachments into starting ones, or the other way around, is due
      to start or stop those devices itself. */
  predicate ChangesStarts(y: System, i: nat, state: StreamState) {
    && i < |y.streams|
    && exists d <- y.streams[i].devices :: d in y.devices && y.streams[i].Starts(d) != y.streams[i].(state := state).Starts(d)
  }

  predicate EventLosesStarts(c: Config, y: System, e: Event) {
    match e
    case Operation(op) => Possible(y, op) && LosesStarts(c, y, op)
    case SetState(i, state) => ChangesStarts(y, i, state)
    case SetPayload(_) => false
  }

  lemma StateStartsConservedIff(y: System, i: nat, state: StreamState)
    requires StartsConserved(y) && i < |y.streams|
    ensures StartsConserved(y.(streams := y.streams[i := y.streams[i].(state := state)])) <==> !ChangesStarts(y, i, state)
  {
    var s, u := y.streams[i], y.streams[i := y.streams[i].(state := state)];
    forall d | d in y.devices
      ensures Starters(u, d) == Starters(y.streams, d) <==> d !in s.devices || s.Starts(d) == s.(state := state).Starts(d)
    {
      StateUpdate(y.streams, i, state, d);
      assert d in s.devices <==> multiset(s.devices)[d] > 0;
    }
  }

  lemma EventStartsConservedIff(c: Config, y: System, e: Event)
    requires OpensConserved(c, y) && StartsConserved(y) && !EventEditsOnly(y, e)
    ensures StartsConserved(Advance(c, y, e)) <==> !EventLosesStarts(c, y, e)
  {
    match e
    case Operation(op) =>
      if Possible(y, op) { StartsConservedIff(c, y, op); }
    case SetState(i, state) =>
      if i < |y.streams| { StateStartsConservedIff(y, i, state); }
    case SetPayload(d) =>
  }

  predicate NeverLosesStarts(c: Config, y: System, events: seq<Event>) {
    events != [] ==>
      && NeverLosesStarts(c, y, events[..|events| - 1])
      && !EventLosesStarts(c, Run(c, y, events[..|events| - 1]), events[|events| - 1])
  }

  /** Over every run without those failures, starts stay conserved as well, and no device is
      started more often than it is open. */
  lemma {:induction false} StartsConservedOverRuns(c: Config, y: System, events: seq<Event>)
    requires OpensConserved(c, y) && StartsConserved(y)
    requires NeverEditsOnly(c, y, events) && NeverLosesStarts(c, y, events)
    ensures
      var z := Run(c, y, events);
      && OpensConserved(c, z) && StartsConserved(z)
      && forall d :: d in z.devices ==> 0 <= z.devices[d].starts <= z.devices[d].opens
  {
    if events != [] {
      var before, e := Run(c, y, events[..|events| - 1]), events[|events| - 1];
      StartsConservedOverRuns(c, y, events[..|events| - 1]);
      EventOpensConservedIff(c, before, e);
      EventStartsConservedIff(c, before, e);
    }
    var z := Run(c, y, events);
    forall d | d in z.devices
      ensures Starters(z.streams, d) <= Attached(z.streams, d)
    {
      StartersAtMost(z.streams, d);
    }
  }

  /** Nothing fails, and no stream changes its state. */
  predicate FailureFree(e: Event) {
    match e
    case Operation(op) =>
      var a := op.answers;
      && a.setupStatus == 0 && a.payloadStatus == 0 && a.connectStatus == 0 && a.disconnectStatus == 0
    case SetState(_, _) => false
    case SetPayload(_) => true
  }

  lemma {:induction false} FailureFreeNeverLoses(c: Config, y: System, events: seq<Event>)
    requires forall i :: 0 <= i < |events| ==> FailureFree(events[i])
    ensures NeverLosesStarts(c, y, events)
  {
    if events != [] {
      FailureFreeNeverLoses(c, y, events[..|events| - 1]);
    }
  }

  // ---------------------------------------------------------------- the failures, from the start

  const FINE: Answers := Answers(true, false, 0, 0, 0, 0, 0, 0, true)

  /** A speaker that nobody has opened, and streams without devices. */
  function Fresh(states: seq<StreamState>): System {
    System(map[OUT_SPEAKER := Counts(0, 0, false, false)],
           seq(|states|, i requires 0 <= i < |states| => StreamValue([], states[i], false)))
  }

  function Use(i: nat, a: Answers): Event {
    Operation(Attach(i, OUT_SPEAKER, a))
  }

  lemma RunStep(c: Config, y: System, events: seq<Event>, e: Event)
    ensures Run(c, y, events + [e]) == Advance(c, Run(c, y, events), e)
  {
    assert (events + [e])[..|events|] == events;
  }

  lemma OneStep(c: Config, y: System, e: Event)
    ensures Run(c, y, [e]) == Advance(c, y, e)
  {
    assert [e][..0] == [];
  }

  /** How often the speaker is started, and how often it should be. */
  predicate SpeakerOff(z: System, starts: int, due: int) {
    OUT_SPEAKER in z.devices && z.devices[OUT_SPEAKER].starts == starts && Starters(z.streams, OUT_SPEAKER) == due
  }

  lemma OneStream(a: StreamValue)
    ensures Starters([a], OUT_SPEAKER) == if a.Starts(OUT_SPEAKER) then multiset(a.devices)[OUT_SPEAKER] else 0
  {
    assert [a][1..] == [];
  }

  lemma TwoStreams(a: StreamValue, b: StreamValue)
    ensures Starters([a, b], OUT_SPEAKER) ==
            (if a.Starts(OUT_SPEAKER) then multiset(a.devices)[OUT_SPEAKER] else 0)
            + if b.Starts(OUT_SPEAKER) then multiset(b.devices)[OUT_SPEAKER] else 0
  {
    assert [a, b][1..] == [b];
    OneStream(b);
  }

  /** What the first connect of the first stream leaves. */
  lemma FirstUse(c: Config, states: seq<StreamState>, a: Answers)
    requires |states| > 0
    ensures
      var y := Fresh(states);
      var (l, v, _) := Connect(c, y.streams[0], OUT_SPEAKER, Counts(0, 0, false, false), a);
      Run(c, y, [Use(0, a)]) == System(map[OUT_SPEAKER := v], y.streams[0 := StreamValue(l, states[0], false)])
  {
    OneStep(c, Fresh(states), Use(0, a));
  }

  const ON_SPEAKER: seq<DeviceId> := [] + [OUT_SPEAKER]

  /** An idle stream that is given a device lists it without having opened it. */
  lemma IdleAttachBreaksOpens(c: Config)
    ensures Run(c, Fresh([Idle]), [Use(0, FINE)])
         == System(map[OUT_SPEAKER := Counts(0, 0, false, false)], [StreamValue([OUT_SPEAKER], Idle, false)])
  {
    FirstUse(c, [Idle], FINE);
    assert ON_SPEAKER == [OUT_SPEAKER];
  }

  /** A set-up lost to a reset: attached, and not started. */
  lemma ResetBreaksStarts(c: Config)
    ensures SpeakerOff(Run(c, Fresh([Started]), [Use(0, FINE.(setupStatus := -ENETRESET))]), 0, 1)
  {
    var a := FINE.(setupStatus := -ENETRESET);
    FirstUse(c, [Started], a);
    assert ON_SPEAKER == [OUT_SPEAKER];
    assert Run(c, Fresh([Started]), [Use(0, a)]).streams == [StreamValue([OUT_SPEAKER], Started, false)];
    OneStream(StreamValue([OUT_SPEAKER], Started, false));
  }

  /** A payload refused on the first start of a speaker that another stream holds open. */
  lemma RefusedPayloadBreaksStarts(c: Config)
    requires c.backend(OUT_SPEAKER) != ""
    ensures
      SpeakerOff(Run(c, Fresh([Init, Started]), [Use(0, FINE)] + [SetPayload(OUT_SPEAKER)] + [Use(1, FINE.(payloadStatus := -EINVAL))]), 1, 0)
  {
    var y, refused := Fresh([Init, Started]), Use(1, FINE.(payloadStatus := -EINVAL));
    var a, b := StreamValue([OUT_SPEAKER], Init, false), StreamValue([], Started, false);
    FirstUse(c, [Init, Started], FINE);
    assert ON_SPEAKER == [OUT_SPEAKER];
    assert Run(c, y, [Use(0, FINE)]) == System(map[OUT_SPEAKER := Counts(1, 0, true, false)], [a, b]);
    RunStep(c, y, [Use(0, FINE)], SetPayload(OUT_SPEAKER));
    var before := System(map[OUT_SPEAKER := Counts(1, 0, true, true)], [a, b]);
    assert Run(c, y, [Use(0, FINE)] + [SetPayload(OUT_SPEAKER)]) == before;
    RunStep(c, y, [Use(0, FINE)] + [SetPayload(OUT_SPEAKER)], refused);
    assert Advance(c, before, refused).streams == [a, b];
    TwoStreams(a, b);
  }

  /** A stop on the way out of a connect that did not start the speaker, which another stream
      plays on. */
  lemma StrayStopBreaksStarts(c: Config)
    requires c.backend(OUT_SPEAKER) != ""
    ensures SpeakerOff(Run(c, Fresh([Started, Init]), [Use(0, FINE)] + [Use(1, FINE.(connectStatus := -EINVAL))]), 0, 1)
  {
    var y, failing := Fresh([Started, Init]), Use(1, FINE.(connectStatus := -EINVAL));
    var a, b := StreamValue([OUT_SPEAKER], Started, false), StreamValue([], Init, false);
    FirstUse(c, [Started, Init], FINE);
    assert ON_SPEAKER == [OUT_SPEAKER];
    var before := System(map[OUT_SPEAKER := Counts(1, 1, true, false)], [a, b]);
    assert Run(c, y, [Use(0, FINE)]) == before;
    RunStep(c, y, [Use(0, FINE)], failing);
    assert Advance(c, before, failing).streams == [a, b];
    TwoStreams(a, b);
  }

  /** A disconnect refused behind the early stop of speaker protection. */
  lemma RefusedDisconnectBreaksStarts(c: Config)
    requires c.speakerProtection && c.backend(OUT_SPEAKER) != ""
    ensures
      SpeakerOff(Run(c, Fresh([Started]), [Use(0, FINE)]
                     + [Operation(Detach(0, OUT_SPEAKER, FINE.(disconnectStatus := -EINVAL)))]), 0, 1)
  {
    var y, e := Fresh([Started]), Operation(Detach(0, OUT_SPEAKER, FINE.(disconnectStatus := -EINVAL)));
    var a := StreamValue([OUT_SPEAKER], Started, false);
    FirstUse(c, [Started], FINE);
    assert ON_SPEAKER == [OUT_SPEAKER];
    var before := System(map[OUT_SPEAKER := Counts(1, 1, true, false)], [a]);
    assert Run(c, y, [Use(0, FINE)]) == before;
    RunStep(c, y, [Use(0, FINE)], e);
    assert Advance(c, before, e).streams == [a];
    OneStream(a);
  }
}
