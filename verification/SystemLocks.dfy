/** Which thread may be where: the locks each point of the code holds, and what it may be
    doing with the registry. */
module SystemLocks {
  import opened Basics
  import opened RegistrySpec
  import opened SystemProtocol
  import B = BroadcastProtocol

  /** The registry is used only from the points that use it in the source. */
  predicate RegFits(th: Thread) {
    match th.pc
    case Start =>
      if th.op.EditHooks? then th.reg != Idle && th.reg.act == Change(th.op.edit) && KeepsCast(th.op.edit)
      else th.reg == Idle
    case SnapGuards(_, _) => th.reg != Idle && th.reg.act == Snapshot
    case SnapActions(_) => th.reg != Idle && th.reg.act == Snapshot
    case InOnce => th.reg != Idle && th.reg.act == AddHook
    case Guards(_, _, _, _) =>
      th.reg == Idle || (HookRunning(th.pc) && th.reg.act.Change? && KeepsCast(th.reg.act.edit))
    case Actions(_, _) => th.reg == Idle || (HookRunning(th.pc) && th.reg.act.Change? && KeepsCast(th.reg.act.edit))
    case _ => th.reg == Idle
  }

  /** Each point belongs to the operations that reach it. */
  predicate OpFits(th: Thread) {
    && (WriterPc(th.pc) ==> Moves(th.op))
    && (ReaderPc(th.pc) || th.pc.InOnce? || th.pc.AwaitRead? ==> th.op.Subscribe?)
    && (th.pc.ReadExit? ==> th.pc.res.Subscribed? || (th.pc.res.NotSubscribed? && th.pc.res.own.Some?))
    && (th.pc.Done? && (th.pc.res.Subscribed? || th.pc.res.NotSubscribed?) ==> th.op.Subscribe?)
    && (th.pc.Done? && th.pc.res == Edited ==> th.op.EditHooks?)
    && (th.pc.Exiting? ==> th.pc.res.Moved? || th.pc.res.Refused?)
    && (th.pc.Guards? && th.pc.forced ==> th.pc.rest == [] && th.op == SetState(th.pc.to))
    && ((th.pc.Guards? && !th.pc.forced) || th.pc.SnapGuards? ==> th.op.Transition? || th.op.TransitionIf?)
  }

  ghost predicate Locks(s: System) {
    && (s.writer.Some? ==> s.writer.value < |s.threads| && s.readers == {})
    && (s.regLock.Some? ==> s.regLock.value < |s.threads|)
    && (s.once.InProgress? ==> s.once.t < |s.threads|)
    && (forall t | t in s.readers :: t < |s.threads|)
    && (forall t | 0 <= t < |s.threads| :: WriterPc(s.threads[t].pc) <==> s.writer == Some(t))
    && (forall t | 0 <= t < |s.threads| :: ReaderPc(s.threads[t].pc) <==> t in s.readers)
    && (forall t | 0 <= t < |s.threads| :: s.threads[t].reg.Holding? <==> s.regLock == Some(t))
    && (forall t | 0 <= t < |s.threads| :: s.threads[t].pc.InOnce? <==> s.once == InProgress(t))
    && (forall t | 0 <= t < |s.threads| :: RegFits(s.threads[t]) && OpFits(s.threads[t]))
    && (forall t | 0 <= t < |s.threads| && s.threads[t].pc == Done(NotSubscribed(None)) :: s.once == Ran(false))
    // the broadcast lock is held through a writer's broadcast and nowhere else
    && (s.mgr.mutex.Sending? <==> s.writer.Some? && s.threads[s.writer.value].pc.InCast?)
    && !s.mgr.mutex.Draining? && s.mgr.teardowns == []
  }

  /** Only thread `t` moved, and only it may have taken or released a lock. */
  ghost predicate OneMoved(s: System, s': System, t: nat) {
    && t < |s.threads| && |s'.threads| == |s.threads|
    && (forall u | 0 <= u < |s.threads| && u != t :: s'.threads[u] == s.threads[u])
    && (s'.writer == s.writer
        || (s.writer == None && s'.writer == Some(t)) || (s.writer == Some(t) && s'.writer == None))
    && (s'.readers == s.readers || s'.readers == s.readers + {t} || s'.readers == s.readers - {t})
    && (s'.regLock == s.regLock
        || (s.regLock == None && s'.regLock == Some(t)) || (s.regLock == Some(t) && s'.regLock == None))
    && (s'.once == s.once || (s.once == Fresh && s'.once == InProgress(t)) || (s.once == InProgress(t) && s'.once.Ran?))
  }

  /** The thread's new place agrees with the locks it now holds. */
  predicate Placed(s: System, t: nat)
    requires t < |s.threads|
  {
    var th := s.threads[t];
    && (WriterPc(th.pc) <==> s.writer == Some(t)) && (ReaderPc(th.pc) <==> t in s.readers)
    && (th.reg.Holding? <==> s.regLock == Some(t)) && (th.pc.InOnce? <==> s.once == InProgress(t))
    && RegFits(th) && OpFits(th) && (th.pc == Done(NotSubscribed(None)) ==> s.once == Ran(false))
  }

  lemma MovedLocks(s: System, s': System, t: nat)
    requires Locks(s) && OneMoved(s, s', t) && Placed(s', t)
    requires s'.writer.Some? ==> s'.readers == {}
    requires s'.mgr.mutex.Sending?
      <==> s'.writer.Some? && s'.writer.value < |s'.threads| && s'.threads[s'.writer.value].pc.InCast?
    requires !s'.mgr.mutex.Draining? && s'.mgr.teardowns == []
    ensures Locks(s')
  {
  }

  /** What the locks say of one thread, and of the writer. */
  lemma LockFacts(s: System, t: nat)
    requires Locks(s) && t < |s.threads|
    ensures Placed(s, t) && (s.writer.Some? ==> s.readers == {} && s.writer.value < |s.threads|)
    ensures s.mgr.mutex.Sending? <==> s.writer.Some? && s.threads[s.writer.value].pc.InCast?
    ensures !s.mgr.mutex.Draining? && s.mgr.teardowns == []
  {
  }

  lemma LifeLocks(s: System, l: Life)
    requires Locks(s) && LifeEnabled(s, l)
    ensures Locks(LifeStep(s, l))
  {
    var s' := LifeStep(s, l);
    if l.Spawn? {
      assert forall u | 0 <= u < |s.threads| :: s'.threads[u] == s.threads[u];
    } else {
      MovedLocks(s, s', l.t);
    }
  }

  lemma WriteLocks(s: System, l: Writing)
    requires Locks(s) && WriteEnabled(s, l)
    ensures Locks(WriteStep(s, l))
  {
    hide Locks;
    match l
    case Check(t, canceled) => CheckLocks(s, t, canceled);
    case CastLock(t) => CastLocks(s, l);
    case CastUnlock(t) => CastLocks(s, l);
    case WLock(t) => DoorLocks(s, l);
    case WUnlock(t) => DoorLocks(s, l);
    case _ => HookLocks(s, l);
  }

  lemma DoorLocks(s: System, l: Writing)
    requires Locks(s) && WriteEnabled(s, l) && (l.WLock? || l.WUnlock?)
    ensures Locks(WriteStep(s, l))
  {
    LockFacts(s, l.t);
    hide Locks;
    MovedLocks(s, WriteStep(s, l), l.t);
  }

  lemma CheckLocks(s: System, t: nat, canceled: bool)
    requires Locks(s) && WriteEnabled(s, Check(t, canceled))
    ensures Locks(WriteStep(s, Check(t, canceled)))
  {
    MovedLocks(s, WriteStep(s, Check(t, canceled)), t);
  }

  lemma CastLocks(s: System, l: Writing)
    requires Locks(s) && WriteEnabled(s, l) && (l.CastLock? || l.CastUnlock?)
    ensures Locks(WriteStep(s, l))
  {
    MovedLocks(s, WriteStep(s, l), l.t);
  }

  lemma HookLocks(s: System, l: Writing)
    requires Locks(s) && WriteEnabled(s, l) && (l.Guard? || l.HookEdit? || l.Store? || l.Act? || l.ActsDone?)
    ensures Locks(WriteStep(s, l))
  {
    MovedLocks(s, WriteStep(s, l), l.t);
  }

  lemma RegLocks(s: System, l: Registering)
    requires Locks(s) && RegEnabled(s, l)
    ensures Locks(RegStep(s, l))
  {
    hide Locks, RegEnabled, RegStep;
    if l.Acquire? { AcquireLocks(s, l.t); } else { WorkLocks(s, l.t); }
  }

  lemma AcquireLocks(s: System, t: nat)
    requires Locks(s) && RegEnabled(s, Acquire(t))
    ensures Locks(RegStep(s, Acquire(t)))
  {
    LockFacts(s, t);
    hide Locks;
    MovedLocks(s, RegStep(s, Acquire(t)), t);
  }

  lemma WorkLocks(s: System, t: nat)
    requires Locks(s) && RegEnabled(s, Work(t))
    ensures Locks(RegStep(s, Work(t)))
  {
    LockFacts(s, t);
    hide Locks;
    WorkPlaced(s, t);
    hide Placed, Apply, Register, RegisterError, Pick;
    MovedLocks(s, RegStep(s, Work(t)), t);
  }

  lemma WorkPlaced(s: System, t: nat)
    requires RegEnabled(s, Work(t)) && Placed(s, t)
    ensures t < |RegStep(s, Work(t)).threads| && Placed(RegStep(s, Work(t)), t)
    ensures RegStep(s, Work(t)).threads[t].pc.InCast? <==> s.threads[t].pc.InCast?
  {
    hide Apply, Register, RegisterError, Pick;
  }

  predicate AtOnce(l: Subscribing) { l.OnceEnter? || l.OncePass? || l.RLock? || l.RUnlock? }

  lemma SubLocks(s: System, l: Subscribing)
    requires Locks(s) && SubEnabled(s, l)
    ensures Locks(SubStep(s, l))
  {
    hide SubEnabled, SubStep, Locks;
    if AtOnce(l) { GateLocks(s, l); } else { ReaderLocks(s, l); }
  }

  lemma GateLocks(s: System, l: Subscribing)
    requires Locks(s) && SubEnabled(s, l) && AtOnce(l)
    ensures Locks(SubStep(s, l))
  {
    LockFacts(s, l.t);
    hide Locks;
    MovedLocks(s, SubStep(s, l), l.t);
  }

  lemma ReaderLocks(s: System, l: Subscribing)
    requires Locks(s) && SubEnabled(s, l) && !AtOnce(l)
    ensures Locks(SubStep(s, l))
  {
    LockFacts(s, l.t);
    hide Locks;
    MovedLocks(s, SubStep(s, l), l.t);
  }

  lemma MgrLocks(s: System, l: B.Label)
    requires Locks(s) && MgrEnabled(s, l)
    ensures Locks(MgrStep(s, l))
  {
  }

  lemma StepLocks(s: System, l: Label)
    requires Locks(s) && Enabled(s, l)
    ensures Locks(Step(s, l))
  {
    hide Locks;
    match l
    case Living(f) => LifeLocks(s, f);
    case Write(w) => WriteLocks(s, w);
    case Regs(r) => RegLocks(s, r);
    case Sub(b) => SubLocks(s, b);
    case Mgr(m) => MgrLocks(s, m);
  }
}
