/** The broadcast manager as a protocol (hooks/broadcast/manager.go): subscribers, context
    cancellations, AfterFunc callbacks, UnsubscribeAll and broadcasts, interleaved at every
    access to shared state. A label names one atomic step; all nondeterminism is in the
    choice of label. */
module BroadcastProtocol {
  import opened Basics

  datatype Mode = BestEffort | Timed | Guaranteed

  datatype Closed = Open | ByManager | ByCaller

  /** A channel: everything ever sent on it, how much of that was received, and how many
      receivers are parked on it. `owned` channels were made by the manager. */
  datatype Chan = Chan(owned: bool, capacity: nat, flow: seq<string>, taken: nat, parked: nat, closed: Closed)

  /** One subscription. `first` is what its creator sent it directly, `sent` the numbers of
      the broadcasts delivered to it, `storedAt` how many broadcasts had begun by then. */
  datatype Sub = Sub(
    ch: nat, mode: Mode, external: bool,
    stored: bool, storedAt: nat, armed: bool, cancelled: bool, fired: bool,
    first: seq<string>, sent: seq<nat>)

  /** Who holds the manager's mutex, and how far it has got. */
  datatype Mutex =
    | Free
    | Closing(s: nat)
    | Sending(unvisited: set<nat>, pending: set<nat>)
    | Draining(u: nat, todo: set<nat>, at: Visit)

  datatype Visit = Next | Signalled(v: nat) | Deleted(v: nat)

  /** One UnsubscribeAll: its first pass runs without the mutex. `present` is what was
      stored when it began, `behind` the broadcast that held the mutex then. */
  datatype Teardown =
    | FirstPass(present: set<nat>, seen: set<nat>, behind: Option<nat>)
    | Contending(behind: Option<nat>)
    | Sweeping
    | TornDown

  datatype State = State(
    subs: seq<Sub>, chans: seq<Chan>, table: map<nat, nat>, mutex: Mutex,
    log: seq<string>, teardowns: seq<Teardown>, panicked: bool)

  const Initial := State([], [], map[], Free, [], [], false)

  datatype Origin = Owned(capacity: nat) | External(c: nat)

  /** GetStateChan, and its creator's greeting. */
  datatype Joining = Begin(origin: Origin, mode: Mode) | Store(s: nat) | Arm(s: nat) | First(s: nat, value: string)

  /** Context cancellation and the AfterFunc callback, which removes and then closes. */
  datatype Leaving = Cancel(s: nat) | Remove(s: nat) | Close

  /** Broadcast and the senders it fans out. */
  datatype Casting = Lock(value: string) | Visit(s: nat) | Send(s: nat) | Depart(s: nat) | Expire(s: nat) | Unlock

  /** UnsubscribeAll: a first pass without the mutex, then a sweep that holds it. */
  datatype Tearing =
    | TearBegin | Signal(u: nat, s: nat) | SignalEnd(u: nat)
    | SweepLock(u: nat) | SweepCancel(s: nat) | SweepDelete | SweepClose | SweepUnlock

  /** Callers making and closing their channels, and consumers. */
  datatype Outside = MakeChan(capacity: nat) | Receive(c: nat) | Park(c: nat) | Unpark(c: nat) | CallerClose(c: nat)

  datatype Label = Join(j: Joining) | Leave(v: Leaving) | Cast(b: Casting) | Tear(t: Tearing) | Out(o: Outside)

  // ---------- channels ----------

  predicate Ready(c: Chan) { |c.flow| - c.taken < c.capacity || c.parked > 0 }

  function Put(c: Chan, v: string): Chan {
    if c.parked > 0 then c.(flow := c.flow + [v], taken := c.taken + 1, parked := c.parked - 1)
    else c.(flow := c.flow + [v])
  }

  /** A send: on a closed channel the program panics. */
  function SendOn(m: State, c: nat, v: string): State
    requires c < |m.chans|
  {
    if m.chans[c].closed != Open then m.(panicked := true)
    else m.(chans := m.chans[c := Put(m.chans[c], v)])
  }

  /** A close by the manager: closing a closed channel panics. */
  function CloseOn(m: State, c: nat): State
    requires c < |m.chans|
  {
    if m.chans[c].closed != Open then m.(panicked := true)
    else m.(chans := m.chans[c := m.chans[c].(closed := ByManager)])
  }

  // ---------- steps ----------

  predicate SubOk(m: State, s: nat) { s < |m.subs| && m.subs[s].ch < |m.chans| }

  function Stored(m: State): set<nat> { set c | c in m.table :: m.table[c] }

  predicate JoinEnabled(m: State, l: Joining) {
    match l
    case Begin(o, _) => o.External? ==> o.c < |m.chans| && !m.chans[o.c].owned && m.chans[o.c].closed == Open
    case Store(s) => SubOk(m, s) && !m.subs[s].stored && m.mutex == Free
    case Arm(s) => SubOk(m, s) && m.subs[s].stored && !m.subs[s].armed
    // A creator greets its subscriber once, on a caller's channel, before any broadcast.
    case First(s, _) =>
      && SubOk(m, s) && m.subs[s].external && m.subs[s].first == [] && m.subs[s].sent == []
      && m.chans[m.subs[s].ch].closed == Open && Ready(m.chans[m.subs[s].ch])
  }

  predicate LeaveEnabled(m: State, l: Leaving) {
    match l
    case Cancel(s) => SubOk(m, s) && !m.subs[s].cancelled
    case Remove(s) => SubOk(m, s) && m.subs[s].armed && m.subs[s].cancelled && !m.subs[s].fired && m.mutex == Free
    case Close => m.mutex.Closing? && SubOk(m, m.mutex.s)
  }

  /** The channel accepts a value now, or is closed and would panic. */
  predicate Sendable(c: Chan) { c.closed != Open || Ready(c) }

  predicate CastEnabled(m: State, l: Casting) {
    match l
    case Lock(_) => m.mutex == Free
    case Visit(s) => m.mutex.Sending? && s in m.mutex.unvisited && SubOk(m, s) && m.log != []
    case Send(s) =>
      m.mutex.Sending? && s in m.mutex.pending && SubOk(m, s) && m.log != [] && Sendable(m.chans[m.subs[s].ch])
    case Depart(s) => m.mutex.Sending? && s in m.mutex.pending && SubOk(m, s) && m.subs[s].cancelled
    case Expire(s) => m.mutex.Sending? && s in m.mutex.pending && SubOk(m, s) && m.subs[s].mode == Timed
    case Unlock => m.mutex == Sending({}, {})
  }

  predicate TearEnabled(m: State, l: Tearing) {
    match l
    case TearBegin => true
    // The first pass may meet any subscription that has been stored, and must meet those
    // that are in the table throughout.
    case Signal(u, s) =>
      u < |m.teardowns| && m.teardowns[u].FirstPass? && SubOk(m, s) && m.subs[s].stored && s !in m.teardowns[u].seen
    case SignalEnd(u) =>
      u < |m.teardowns| && m.teardowns[u].FirstPass? && m.teardowns[u].present * Stored(m) <= m.teardowns[u].seen
    case SweepLock(u) => u < |m.teardowns| && m.teardowns[u].Contending? && m.mutex == Free
    case SweepCancel(s) => m.mutex.Draining? && m.mutex.at == Next && s in m.mutex.todo && SubOk(m, s)
    case SweepDelete => m.mutex.Draining? && m.mutex.at.Signalled? && SubOk(m, m.mutex.at.v)
    case SweepClose => m.mutex.Draining? && m.mutex.at.Deleted? && SubOk(m, m.mutex.at.v)
    case SweepUnlock => m.mutex.Draining? && m.mutex.at == Next && m.mutex.todo == {} && m.mutex.u < |m.teardowns|
  }

  predicate OutEnabled(m: State, l: Outside) {
    match l
    case MakeChan(_) => true
    case Receive(c) => c < |m.chans| && m.chans[c].taken < |m.chans[c].flow|
    case Park(c) => c < |m.chans| && m.chans[c].taken == |m.chans[c].flow| && m.chans[c].closed == Open
    case Unpark(c) => c < |m.chans| && m.chans[c].parked > 0
    // A caller closes only its own channel, and only while that is not subscribed.
    case CallerClose(c) =>
      && c < |m.chans| && !m.chans[c].owned && m.chans[c].closed == Open && c !in m.table
      && forall i | 0 <= i < |m.subs| && m.subs[i].ch == c :: m.subs[i].stored
  }

  predicate Enabled(m: State, l: Label) {
    match l
    case Join(j) => JoinEnabled(m, j)
    case Leave(v) => LeaveEnabled(m, v)
    case Cast(b) => CastEnabled(m, b)
    case Tear(t) => TearEnabled(m, t)
    case Out(o) => OutEnabled(m, o)
  }

  function SetSub(m: State, s: nat, x: Sub): State
    requires s < |m.subs|
  {
    m.(subs := m.subs[s := x])
  }

  /** removeLocked's LoadAndDelete: by channel key, whatever subscription is stored there. */
  function Deleting(m: State, s: nat): State
    requires SubOk(m, s)
  {
    m.(table := m.table - {m.subs[s].ch})
  }

  predicate MustClose(m: State, s: nat)
    requires SubOk(m, s)
  {
    m.subs[s].ch in m.table && !m.subs[s].external
  }

  function Deliver(m: State, s: nat): State
    requires SubOk(m, s) && m.log != []
  {
    var n := |m.log| - 1;
    var m1 := SendOn(m, m.subs[s].ch, m.log[n]);
    SetSub(m1, s, m1.subs[s].(sent := m1.subs[s].sent + [n]))
  }

  function JoinStep(m: State, l: Joining): State
    requires JoinEnabled(m, l)
  {
    match l
    case Begin(Owned(k), mode) =>
      m.(chans := m.chans + [Chan(true, k, [], 0, 0, Open)],
         subs := m.subs + [Sub(|m.chans|, mode, false, false, 0, false, false, false, [], [])])
    case Begin(External(c), mode) =>
      m.(subs := m.subs + [Sub(c, mode, true, false, 0, false, false, false, [], [])])
    case Store(s) =>
      SetSub(m, s, m.subs[s].(stored := true, storedAt := |m.log|)).(table := m.table[m.subs[s].ch := s])
    case Arm(s) => SetSub(m, s, m.subs[s].(armed := true))
    case First(s, v) =>
      var m1 := SendOn(m, m.subs[s].ch, v);
      SetSub(m1, s, m1.subs[s].(first := m1.subs[s].first + [v]))
  }

  function LeaveStep(m: State, l: Leaving): State
    requires LeaveEnabled(m, l)
  {
    match l
    case Cancel(s) => SetSub(m, s, m.subs[s].(cancelled := true))
    case Remove(s) =>
      var m1 := SetSub(Deleting(m, s), s, m.subs[s].(fired := true));
      if MustClose(m, s) then m1.(mutex := Closing(s)) else m1
    case Close => CloseOn(m, m.subs[m.mutex.s].ch).(mutex := Free)
  }

  /** A best-effort send happens on the spot or not at all; the others are left pending. */
  function CastStep(m: State, l: Casting): State
    requires CastEnabled(m, l)
  {
    match l
    case Lock(v) => m.(log := m.log + [v], mutex := Sending(Stored(m), {}))
    case Visit(s) =>
      var rest := m.mutex.unvisited - {s};
      if m.subs[s].mode != BestEffort then m.(mutex := Sending(rest, m.mutex.pending + {s}))
      else
        var m1 := m.(mutex := Sending(rest, m.mutex.pending));
        if Sendable(m.chans[m.subs[s].ch]) then Deliver(m1, s) else m1
    case Send(s) => Deliver(Served(m, s), s)
    case Depart(s) => Served(m, s)
    case Expire(s) => Served(m, s)
    case Unlock => m.(mutex := Free)
  }

  function Served(m: State, s: nat): State
    requires m.mutex.Sending?
  {
    m.(mutex := Sending(m.mutex.unvisited, m.mutex.pending - {s}))
  }

  function TearStep(m: State, l: Tearing): State
    requires TearEnabled(m, l)
  {
    match l
    case TearBegin =>
      var behind := if m.mutex.Sending? && m.log != [] then Some(|m.log| - 1) else None;
      m.(teardowns := m.teardowns + [FirstPass(Stored(m), {}, behind)])
    case Signal(u, s) =>
      var t := m.teardowns[u];
      SetSub(m, s, m.subs[s].(cancelled := true)).(teardowns := m.teardowns[u := t.(seen := t.seen + {s})])
    case SignalEnd(u) => m.(teardowns := m.teardowns[u := Contending(m.teardowns[u].behind)])
    case SweepLock(u) => m.(teardowns := m.teardowns[u := Sweeping], mutex := Draining(u, Stored(m), Next))
    case SweepCancel(s) =>
      SetSub(m, s, m.subs[s].(cancelled := true)).(mutex := Draining(m.mutex.u, m.mutex.todo - {s}, Signalled(s)))
    case SweepDelete =>
      var s := m.mutex.at.v;
      Deleting(m, s).(mutex := Draining(m.mutex.u, m.mutex.todo, if MustClose(m, s) then Deleted(s) else Next))
    case SweepClose => CloseOn(m, m.subs[m.mutex.at.v].ch).(mutex := Draining(m.mutex.u, m.mutex.todo, Next))
    case SweepUnlock => m.(teardowns := m.teardowns[m.mutex.u := TornDown], mutex := Free)
  }

  function OutStep(m: State, l: Outside): State
    requires OutEnabled(m, l)
  {
    match l
    case MakeChan(k) => m.(chans := m.chans + [Chan(false, k, [], 0, 0, Open)])
    case Receive(c) => m.(chans := m.chans[c := m.chans[c].(taken := m.chans[c].taken + 1)])
    case Park(c) => m.(chans := m.chans[c := m.chans[c].(parked := m.chans[c].parked + 1)])
    case Unpark(c) => m.(chans := m.chans[c := m.chans[c].(parked := m.chans[c].parked - 1)])
    case CallerClose(c) => m.(chans := m.chans[c := m.chans[c].(closed := ByCaller)])
  }

  function Step(m: State, l: Label): State
    requires Enabled(m, l)
  {
    match l
    case Join(j) => JoinStep(m, j)
    case Leave(v) => LeaveStep(m, v)
    case Cast(b) => CastStep(m, b)
    case Tear(t) => TearStep(m, t)
    case Out(o) => OutStep(m, o)
  }

  // ---------- runs ----------

  ghost predicate Run(m: State, ls: seq<Label>)
    decreases |ls|
  {
    ls == [] || (Enabled(m, ls[0]) && Run(Step(m, ls[0]), ls[1..]))
  }

  ghost function After(m: State, ls: seq<Label>): State
    requires Run(m, ls)
    decreases |ls|
  {
    if ls == [] then m else After(Step(m, ls[0]), ls[1..])
  }
}
