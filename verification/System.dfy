/** The whole machine as concurrent threads (fsm.go): operations under the write lock, hooks
    that may edit the registry, subscriptions under the read lock, and the broadcast
    manager's protocol underneath. One label is one atomic step of one thread. */
module SystemProtocol {
  import opened Basics
  import opened TransitionTable
  import opened RegistrySpec
  import B = BroadcastProtocol

  // ---------- operations and results ----------

  datatype Op =
    | Transition(to: string)
    | TransitionIf(expected: string, to: string)
    | SetState(to: string)
    | GetState
    | EditHooks(edit: Edit)
    | Subscribe(channel: nat)

  predicate Moves(op: Op) { op.Transition? || op.TransitionIf? || op.SetState? }

  datatype Why = Canceled | Mismatch | NotAllowed | Undefined | GuardFailed

  /** `at` is a position in the history: where the move left from, or what was seen. */
  datatype Result =
    | Moved(at: nat)
    | Refused(why: Why, at: nat)
    | Saw(at: nat)
    | Edited
    | Subscribed(s: nat)
    // the set-up of the broadcast hook failed, or subscription `own` was cancelled before
    // its greeting
    | NotSubscribed(own: Option<nat>)

  /** A successful operation: the `k`th leads from position `k` of the history to `k + 1`. */
  datatype Commit = Commit(thread: nat, from: string, to: string, forced: bool)

  // ---------- threads ----------

  datatype RegAct = Snapshot | Change(edit: Edit) | AddHook

  datatype RegUse = Idle | Wanting(act: RegAct) | Holding(act: RegAct)

  datatype Pc =
    | Start
    // holding the write lock
    | Checking
    | SnapGuards(from: string, to: string)
    | Guards(from: string, to: string, rest: seq<HookEntry>, forced: bool)
    | SnapActions(at: nat)
    | Actions(at: nat, rest: seq<HookEntry>)
    | InCast(at: nat, rest: seq<HookEntry>)
    | Exiting(res: Result)
    // subscribing; from Reading on, holding the read lock
    | InOnce
    | AwaitRead
    | Reading
    | Registered(s: nat)
    | Greeting(s: nat)
    | ReadExit(res: Result)
    | Done(res: Result)

  /** `born` is how many operations had succeeded when this one was called. */
  datatype Thread = Thread(op: Op, pc: Pc, reg: RegUse, born: nat)

  predicate WriterPc(pc: Pc) {
    pc.Checking? || pc.SnapGuards? || pc.Guards? || pc.SnapActions? || pc.Actions? || pc.InCast? || pc.Exiting?
  }

  predicate ReaderPc(pc: Pc) { pc.Reading? || pc.Registered? || pc.Greeting? || pc.ReadExit? }

  datatype Once = Fresh | InProgress(t: nat) | Ran(ok: bool)

  /** `base[s]` is the position in the history at which subscription `s` was registered. */
  datatype System = System(
    table: ConfigMap, initial: string, delivery: B.Mode,
    commits: seq<Commit>, writer: Option<nat>, readers: set<nat>,
    once: Once, regLock: Option<nat>, hooks: Hooks,
    mgr: B.State, base: seq<nat>, threads: seq<Thread>)

  ghost predicate Init(s: System) {
    && WellFormed(s.table) && s.initial in s.table
    && s.commits == [] && s.writer == None && s.readers == {} && s.once == Fresh && s.regLock == None
    && Consistent(s.hooks) && CAST_NAME !in s.hooks.byName && (forall e | e in s.hooks.log :: !IsCast(e))
    && s.mgr == B.Initial && s.base == [] && s.threads == []
  }

  /** The state at position `k` of the history. */
  function State(s: System, k: nat): string
    requires k <= |s.commits|
  {
    if k == 0 then s.initial else s.commits[k - 1].to
  }

  function Current(s: System): string { State(s, |s.commits|) }

  function History(s: System): seq<string> {
    seq(|s.commits| + 1, k requires 0 <= k <= |s.commits| => State(s, k))
  }

  // ---------- the broadcast hook ----------

  const CAST_NAME := "fsm.Subscribe"
  const CAST: nat := 0
  const CAST_HOOK := HookConfig(CAST_NAME, [WILDCARD], [WILDCARD], Some(CAST), Post)

  predicate IsCast(e: HookEntry) { e.callback == CAST }

  /** Users neither remove the broadcast hook nor register a callback that is its own. */
  predicate KeepsCast(e: Edit) {
    match e
    case DoRegister(cfg) => cfg.name != CAST_NAME && cfg.callback != Some(CAST)
    case DoRemove(name) => name != CAST_NAME
    case DoClear => false
  }

  // ---------- steps ----------

  datatype Life = Spawn(op: Op) | Read(t: nat) | GiveUp(t: nat)

  datatype Writing =
    | WLock(t: nat) | Check(t: nat, canceled: bool) | Guard(t: nat, passes: bool) | HookEdit(t: nat, edit: Edit)
    | Store(t: nat) | Act(t: nat) | CastLock(t: nat) | CastUnlock(t: nat) | ActsDone(t: nat) | WUnlock(t: nat)

  datatype Registering = Acquire(t: nat) | Work(t: nat)

  datatype Subscribing =
    | OnceEnter(t: nat) | OncePass(t: nat) | RLock(t: nat)
    | SubStore(t: nat) | SubArm(t: nat) | Greet(t: nat) | Abort(t: nat) | RUnlock(t: nat)

  datatype Label = Living(f: Life) | Write(w: Writing) | Regs(r: Registering) | Sub(b: Subscribing) | Mgr(l: B.Label)

  predicate At(s: System, t: nat) { t < |s.threads| && s.threads[t].reg == Idle }

  function SetPc(s: System, t: nat, pc: Pc): System
    requires t < |s.threads|
  {
    s.(threads := s.threads[t := s.threads[t].(pc := pc)])
  }

  function Enter(s: System, t: nat, pc: Pc, reg: RegUse): System
    requires t < |s.threads|
  {
    s.(threads := s.threads[t := s.threads[t].(pc := pc, reg := reg)])
  }

  // Calls, lock-free reads, and a SetState whose context is already canceled.

  predicate LifeEnabled(s: System, l: Life) {
    match l
    case Spawn(op) =>
      && (op.EditHooks? ==> KeepsCast(op.edit))
      && (op.Subscribe? ==>
            && op.channel < |s.mgr.chans| && !s.mgr.chans[op.channel].owned
            && s.mgr.chans[op.channel].closed == B.Open)
    case Read(t) => At(s, t) && s.threads[t].pc == Start && s.threads[t].op == GetState
    case GiveUp(t) => At(s, t) && s.threads[t].pc == Start && s.threads[t].op.SetState?
  }

  function LifeStep(s: System, l: Life): System
    requires LifeEnabled(s, l)
  {
    match l
    case Spawn(op) =>
      var reg := if op.EditHooks? then Wanting(Change(op.edit)) else Idle;
      s.(threads := s.threads + [Thread(op, Start, reg, |s.commits|)])
    case Read(t) => SetPc(s, t, Done(Saw(|s.commits|)))
    case GiveUp(t) => SetPc(s, t, Done(Refused(Canceled, |s.commits|)))
  }

  // Operations under the write lock.

  /** A user's guard or action is running. */
  predicate HookRunning(pc: Pc) {
    (pc.Guards? && pc.rest != []) || (pc.Actions? && pc.rest != [] && !IsCast(pc.rest[0]))
  }

  predicate WriteEnabled(s: System, l: Writing) {
    match l
    case WLock(t) =>
      At(s, t) && s.threads[t].pc == Start && Moves(s.threads[t].op) && s.writer == None && s.readers == {}
    case Check(t, canceled) =>
      At(s, t) && s.threads[t].pc == Checking && Moves(s.threads[t].op) && (canceled ==> !s.threads[t].op.SetState?)
    case Guard(t, _) => At(s, t) && s.threads[t].pc.Guards? && s.threads[t].pc.rest != []
    case HookEdit(t, e) =>
      && At(s, t) && KeepsCast(e) && HookRunning(s.threads[t].pc)
    case Store(t) => At(s, t) && s.threads[t].pc.Guards? && s.threads[t].pc.rest == []
    case Act(t) =>
      At(s, t) && s.threads[t].pc.Actions? && s.threads[t].pc.rest != [] && !IsCast(s.threads[t].pc.rest[0])
    case CastLock(t) =>
      && At(s, t) && s.threads[t].pc.Actions? && s.threads[t].pc.rest != [] && IsCast(s.threads[t].pc.rest[0])
      && s.threads[t].pc.at < |s.commits| && B.CastEnabled(s.mgr, B.Lock(s.commits[s.threads[t].pc.at].to))
    case CastUnlock(t) => At(s, t) && s.threads[t].pc.InCast? && B.CastEnabled(s.mgr, B.Unlock)
    case ActsDone(t) => At(s, t) && s.threads[t].pc.Actions? && s.threads[t].pc.rest == []
    case WUnlock(t) => At(s, t) && s.threads[t].pc.Exiting?
  }

  /** The checks of one operation, in the order the source makes them. */
  function Checked(s: System, op: Op, canceled: bool): Pc
    requires Moves(op)
  {
    var now, k := Current(s), |s.commits|;
    match op
    case SetState(to) => if to !in s.table then Exiting(Refused(Undefined, k)) else Guards(now, to, [], true)
    case TransitionIf(expected, to) =>
      if now != expected then Exiting(Refused(Mismatch, k)) else CheckedMove(s, to, canceled)
    case Transition(to) => CheckedMove(s, to, canceled)
  }

  function CheckedMove(s: System, to: string, canceled: bool): Pc {
    var now, k := Current(s), |s.commits|;
    if canceled then Exiting(Refused(Canceled, k))
    else if !(now in s.table && to in s.table[now]) then Exiting(Refused(NotAllowed, k))
    else SnapGuards(now, to)
  }

  function WriteStep(s: System, l: Writing): System
    requires WriteEnabled(s, l)
  {
    var pc := s.threads[l.t].pc;
    match l
    case WLock(t) => SetPc(s, t, Checking).(writer := Some(t))
    case Check(t, canceled) =>
      var next := Checked(s, s.threads[t].op, canceled);
      Enter(s, t, next, if next.SnapGuards? then Wanting(Snapshot) else Idle)
    case Guard(t, passes) =>
      SetPc(s, t,
            if passes then Guards(pc.from, pc.to, pc.rest[1..], pc.forced)
            else Exiting(Refused(GuardFailed, |s.commits|)))
    case HookEdit(t, e) => Enter(s, t, pc, Wanting(Change(e)))
    case Store(t) =>
      Enter(s, t, SnapActions(|s.commits|), Wanting(Snapshot))
        .(commits := s.commits + [Commit(t, pc.from, pc.to, pc.forced)])
    case Act(t) => SetPc(s, t, Actions(pc.at, pc.rest[1..]))
    case CastLock(t) =>
      SetPc(s, t, InCast(pc.at, pc.rest[1..])).(mgr := B.CastStep(s.mgr, B.Lock(s.commits[pc.at].to)))
    case CastUnlock(t) => SetPc(s, t, Actions(pc.at, pc.rest)).(mgr := B.CastStep(s.mgr, B.Unlock))
    case ActsDone(t) => SetPc(s, t, Exiting(Moved(pc.at)))
    case WUnlock(t) => SetPc(s, t, Done(pc.res)).(writer := None)
  }

  // The registry's own lock. No hook runs while it is held.

  predicate RegEnabled(s: System, l: Registering) {
    match l
    case Acquire(t) => t < |s.threads| && s.threads[t].reg.Wanting? && s.regLock == None
    case Work(t) =>
      && t < |s.threads| && s.threads[t].reg.Holding?
      && (s.threads[t].pc.SnapActions? ==> s.threads[t].pc.at < |s.commits|)
  }

  /** What an executor captures: the live hooks of its phase that match, in order. */
  function Selected(s: System, pc: Pc): Pc
    requires pc.SnapActions? ==> pc.at < |s.commits|
  {
    match pc
    case SnapGuards(from, to) => Guards(from, to, Pick(s.hooks.log, Running(Pre, from, to)), false)
    case SnapActions(at) => Actions(at, Pick(s.hooks.log, Running(Post, s.commits[at].from, s.commits[at].to)))
    case _ => pc
  }

  function RegStep(s: System, l: Registering): System
    requires RegEnabled(s, l)
  {
    var th := s.threads[l.t];
    match l
    case Acquire(t) => Enter(s, t, th.pc, Holding(th.reg.act)).(regLock := Some(t))
    case Work(t) =>
      var s1 := s.(regLock := None);
      match th.reg.act
      case Snapshot =>
        Enter(s1, t, Selected(s, th.pc), Idle)
      case Change(e) =>
        Enter(s1, t, if th.pc == Start then Done(Edited) else th.pc, Idle).(hooks := Apply(s.hooks, e))
      case AddHook =>
        var ok := RegisterError(s.hooks, CAST_HOOK).None?;
        Enter(s1, t, if ok then AwaitRead else Done(NotSubscribed(None)), Idle)
          .(hooks := Register(s.hooks, CAST_HOOK), once := Ran(ok))
  }

  // Subscribe.

  predicate SubEnabled(s: System, l: Subscribing) {
    match l
    case OnceEnter(t) => At(s, t) && s.threads[t].pc == Start && s.threads[t].op.Subscribe? && s.once == Fresh
    case OncePass(t) => At(s, t) && s.threads[t].pc == Start && s.threads[t].op.Subscribe? && s.once.Ran?
    case RLock(t) => At(s, t) && s.threads[t].pc == AwaitRead && s.writer == None
    case SubStore(t) =>
      && At(s, t) && s.threads[t].pc == Reading && s.threads[t].op.Subscribe? && s.mgr.mutex == B.Free
      && B.JoinEnabled(s.mgr, B.Begin(B.External(s.threads[t].op.channel), s.delivery))
    case SubArm(t) => At(s, t) && s.threads[t].pc.Registered? && B.JoinEnabled(s.mgr, B.Arm(s.threads[t].pc.s))
    case Greet(t) =>
      At(s, t) && s.threads[t].pc.Greeting? && B.JoinEnabled(s.mgr, B.First(s.threads[t].pc.s, Current(s)))
    case Abort(t) =>
      && At(s, t) && s.threads[t].pc.Greeting? && s.threads[t].pc.s < |s.mgr.subs|
      && s.mgr.subs[s.threads[t].pc.s].cancelled
    case RUnlock(t) => At(s, t) && s.threads[t].pc.ReadExit?
  }

  /** GetStateChan up to the store: a subscription on the caller's channel enters the table. */
  function Enrolled(m: B.State, c: nat, mode: B.Mode): B.State
    requires B.JoinEnabled(m, B.Begin(B.External(c), mode)) && m.mutex == B.Free
  {
    B.JoinStep(B.JoinStep(m, B.Begin(B.External(c), mode)), B.Store(|m.subs|))
  }

  function SubStep(s: System, l: Subscribing): System
    requires SubEnabled(s, l)
  {
    var th := s.threads[l.t];
    match l
    case OnceEnter(t) => Enter(s, t, InOnce, Wanting(AddHook)).(once := InProgress(t))
    case OncePass(t) => SetPc(s, t, if s.once.ok then AwaitRead else Done(NotSubscribed(None)))
    case RLock(t) => SetPc(s, t, Reading).(readers := s.readers + {t})
    case SubStore(t) =>
      SetPc(s, t, Registered(|s.mgr.subs|))
        .(mgr := Enrolled(s.mgr, th.op.channel, s.delivery), base := s.base + [|s.commits|])
    case SubArm(t) => SetPc(s, t, Greeting(th.pc.s)).(mgr := B.JoinStep(s.mgr, B.Arm(th.pc.s)))
    case Greet(t) =>
      SetPc(s, t, ReadExit(Subscribed(th.pc.s))).(mgr := B.JoinStep(s.mgr, B.First(th.pc.s, Current(s))))
    case Abort(t) => SetPc(s, t, ReadExit(NotSubscribed(Some(th.pc.s))))
    case RUnlock(t) => SetPc(s, t, Done(th.pc.res)).(readers := s.readers - {t})
  }

  // The manager's own steps: cancellations, callbacks, the senders of the broadcast in
  // progress, consumers and callers. A caller closes a channel only when no call of its own
  // is still subscribing it.

  predicate MgrEnabled(s: System, l: B.Label) {
    && B.Enabled(s.mgr, l)
    && match l
       case Leave(_) => true
       case Cast(b) => b.Visit? || b.Send? || b.Depart? || b.Expire?
       case Out(o) => o.CallerClose? ==>
         forall t | 0 <= t < |s.threads| && s.threads[t].op == Subscribe(o.c) :: s.threads[t].pc.Done?
       case _ => false
  }

  function MgrStep(s: System, l: B.Label): System
    requires MgrEnabled(s, l)
  {
    s.(mgr := B.Step(s.mgr, l))
  }

  predicate Enabled(s: System, l: Label) {
    match l
    case Living(f) => LifeEnabled(s, f)
    case Write(w) => WriteEnabled(s, w)
    case Regs(r) => RegEnabled(s, r)
    case Sub(b) => SubEnabled(s, b)
    case Mgr(m) => MgrEnabled(s, m)
  }

  function Step(s: System, l: Label): System
    requires Enabled(s, l)
  {
    match l
    case Living(f) => LifeStep(s, f)
    case Write(w) => WriteStep(s, w)
    case Regs(r) => RegStep(s, r)
    case Sub(b) => SubStep(s, b)
    case Mgr(m) => MgrStep(s, m)
  }

  // ---------- runs ----------

  ghost predicate Run(s: System, ls: seq<Label>)
    decreases |ls|
  {
    ls == [] || (Enabled(s, ls[0]) && Run(Step(s, ls[0]), ls[1..]))
  }

  ghost function After(s: System, ls: seq<Label>): System
    requires Run(s, ls)
    decreases |ls|
  {
    if ls == [] then s else After(Step(s, ls[0]), ls[1..])
  }

  ghost predicate Reachable(s: System) {
    exists s0, ls :: Init(s0) && Run(s0, ls) && After(s0, ls) == s
  }
}
