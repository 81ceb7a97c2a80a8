/** Every step keeps the broadcast log in step with the history. */
module SystemEcho {
  import opened Basics
  import opened RegistrySpec
  import opened SystemProtocol
  import opened SystemLocks
  import opened SystemHistory
  import opened SystemStream
  import B = BroadcastProtocol
  import S = BroadcastSafety

  // ---------- operations under the write lock ----------

  predicate Plain(l: Writing) { !l.Store? && !l.CastLock? && !l.CastUnlock? }

  lemma WriteEcho(s: System, l: Writing)
    requires Locks(s) && Story(s) && Echo(s) && WriteEnabled(s, l)
    ensures Echo(WriteStep(s, l))
  {
    hide Locks, Story, Echo;
    if Plain(l) { PlainEcho(s, l); }
    else if l.Store? { StoreEcho(s, l.t); }
    else if l.CastLock? { CastLockEcho(s, l.t); }
    else { CastUnlockEcho(s, l.t); }
  }

  /** What a plain step does to the thread's place. */
  lemma PlainPlace(s: System, l: Writing)
    requires Locks(s) && WriteEnabled(s, l) && Plain(l) && Tidy(On(s), s.threads[l.t].pc)
    ensures var s' := WriteStep(s, l);
      && Behind(s'.threads[l.t].pc) == Behind(s.threads[l.t].pc)
      && Tidy(On(s), s'.threads[l.t].pc) && SubOf(s'.threads[l.t].pc) == None && SubOf(s.threads[l.t].pc) == None
      && !s.threads[l.t].pc.Done? && !ReaderPc(s.threads[l.t].pc)
  {
    PlaceOf(s, l.t);
    hide Locks;
  }

  lemma PlaceOf(s: System, t: nat)
    requires Locks(s) && t < |s.threads|
    ensures OpFits(s.threads[t]) && RegFits(s.threads[t])
  {
  }

  lemma PlainEcho(s: System, l: Writing)
    requires Locks(s) && Story(s) && Echo(s) && WriteEnabled(s, l) && Plain(l)
    ensures Echo(WriteStep(s, l))
  {
    hide Locks, Story, HookedUp, LogTail, Bases, AllTidy, Greetings, Callers, Lag;
    var s', t := WriteStep(s, l), l.t;
    TidyAt(s, t);
    PlainPlace(s, l);
    PlainLag(s, l);
    WritersAlone(s, l);
    hide Greeted;
    TailKept(s, s');
    BasesKept(s, s');
    TidyMoved(s, s', t);
    GreetingsKept(s, s', t);
    CallersMoved(s, s', t);
  }

  lemma PlainLag(s: System, l: Writing)
    requires Locks(s) && WriteEnabled(s, l) && Plain(l)
    requires Behind(WriteStep(s, l).threads[l.t].pc) == Behind(s.threads[l.t].pc)
    ensures Lag(WriteStep(s, l)) == Lag(s)
  {
    hide Casts;
    if !l.WLock? { WriterIs(s, l.t); }
    hide Locks;
  }

  lemma WritersAlone(s: System, l: Writing)
    requires Locks(s) && WriteEnabled(s, l)
    ensures forall u | 0 <= u < |s.threads| :: !ReaderPc(s.threads[u].pc)
  {
    hide B.CastEnabled;
    if !l.WLock? { WriterIs(s, l.t); }
    NoReaders(s);
  }

  lemma StoreEcho(s: System, t: nat)
    requires Locks(s) && Story(s) && Echo(s) && WriteEnabled(s, Store(t))
    ensures Echo(WriteStep(s, Store(t)))
  {
    var s' := WriteStep(s, Store(t));
    WriterIs(s, t);
    assert Lag(s') == 1;
    WritersAlone(s, Store(t));
    hide Locks, Story, HookedUp, LogTail, Bases, AllTidy, Greetings, Callers, Lag;
    assert Skipped(s') == Skipped(s);
    TailKept(s, s');
    BasesKept(s, s');
    TidyMoved(s, s', t);
    GreetingsKept(s, s', t);
    CallersMoved(s, s', t);
  }

  /** The broadcast of the latest commit goes onto the end of the log. */
  lemma CastLockEcho(s: System, t: nat)
    requires Locks(s) && Story(s) && Echo(s) && WriteEnabled(s, CastLock(t))
    ensures Echo(WriteStep(s, CastLock(t)))
  {
    hide Locks, Story, HookedUp, LogTail, Bases, AllTidy, Greetings, Callers, Lag, Tidy;
    var s' := WriteStep(s, CastLock(t));
    CastPlace(s, t);
    WritersAlone(s, CastLock(t));
    LockLog(s, s', t);
    LockSubs(s, t);
    BasesKept(s, s');
    TidyMoved(s, s', t);
    GreetingsKept(s, s', t);
    CallersMoved(s, s', t);
  }

  lemma CastPlace(s: System, t: nat)
    requires Locks(s) && Story(s) && AllTidy(s) && WriteEnabled(s, CastLock(t))
    ensures var s' := WriteStep(s, CastLock(t));
      && Lag(s) == 1 && Lag(s') == 0 && On(s) && Tidy(On(s'), s'.threads[t].pc)
      && s.commits != [] && s.threads[t].pc.at == |s.commits| - 1
  {
    WriterIs(s, t);
    Look(s, t);
    assert Tidy(On(s), s.threads[t].pc);
    hide Locks, Story, AllTidy;
  }

  lemma LockSubs(s: System, t: nat)
    requires WriteEnabled(s, CastLock(t))
    ensures var s' := WriteStep(s, CastLock(t));
      s'.mgr.subs == s.mgr.subs && s'.mgr.chans == s.mgr.chans && SameBases(s.mgr, s'.mgr)
  {
  }

  lemma LockLog(s: System, s': System, t: nat)
    requires LogTail(s) && On(s) && On(s') && s'.commits == s.commits && s.commits != []
    requires Lag(s) == 1 && Lag(s') == 0
    requires s'.mgr.log == s.mgr.log + [s.commits[|s.commits| - 1].to]
    ensures Skipped(s') == Skipped(s) && LogTail(s')
  {
    hide Lag;
    forall k | 0 <= k < |s'.mgr.log| ensures s'.mgr.log[k] == s'.commits[Skipped(s') + k].to {
      if k < |s.mgr.log| { assert s'.mgr.log[k] == s.mgr.log[k]; }
    }
  }

  lemma CastUnlockEcho(s: System, t: nat)
    requires Locks(s) && Story(s) && Echo(s) && WriteEnabled(s, CastUnlock(t))
    ensures Echo(WriteStep(s, CastUnlock(t)))
  {
    hide Locks, Story, HookedUp, LogTail, Bases, AllTidy, Greetings, Callers, Lag;
    var s' := WriteStep(s, CastUnlock(t));
    UnlockPlace(s, t);
    WritersAlone(s, CastUnlock(t));
    TailKept(s, s');
    BasesKept(s, s');
    TidyMoved(s, s', t);
    GreetingsKept(s, s', t);
    CallersMoved(s, s', t);
  }

  lemma UnlockPlace(s: System, t: nat)
    requires Locks(s) && AllTidy(s) && WriteEnabled(s, CastUnlock(t))
    ensures var s' := WriteStep(s, CastUnlock(t)); Lag(s') == Lag(s) && Tidy(On(s'), s'.threads[t].pc)
  {
    WriterIs(s, t);
    assert Tidy(On(s), s.threads[t].pc);
    hide Locks, AllTidy;
  }

  // ---------- the registry lock ----------

  lemma RegEcho(s: System, l: Registering)
    requires Locks(s) && Story(s) && Echo(s) && RegEnabled(s, l)
    ensures Echo(RegStep(s, l))
  {
    hide Locks, Story, Echo;
    if l.Acquire? { AcquireEcho(s, l.t); }
    else if s.threads[l.t].reg.act.Snapshot? { SnapshotEcho(s, l.t); }
    else if s.threads[l.t].reg.act.Change? { ChangeEcho(s, l.t); }
    else { AddHookEcho(s, l.t); }
  }

  lemma AcquireEcho(s: System, t: nat)
    requires Locks(s) && Echo(s) && RegEnabled(s, Acquire(t))
    ensures Echo(RegStep(s, Acquire(t)))
  {
    var s' := RegStep(s, Acquire(t));
    PlaceOf(s, t);
    assert Lag(s') == Lag(s);
    assert Tidy(On(s), s.threads[t].pc) && Greeted(s', t);
    hide Locks, HookedUp, LogTail, Bases, AllTidy, Greetings, Callers, Lag;
    TailKept(s, s');
    BasesKept(s, s');
    TidyMoved(s, s', t);
    GreetingsStill(s, s', t);
    CallersMoved(s, s', t);
  }

  /** Capturing the actions of a store settles whether its broadcast is still to come. */
  lemma SnapshotEcho(s: System, t: nat)
    requires Locks(s) && Story(s) && Echo(s) && RegEnabled(s, Work(t)) && s.threads[t].reg.act == Snapshot
    ensures Echo(RegStep(s, Work(t)))
  {
    hide Locks, Story, HookedUp, Bases, AllTidy, Greetings, Callers, Lag, Pick;
    var s' := RegStep(s, Work(t));
    SnapshotWriter(s, t);
    SnapshotPlace(s, t);
    SnapshotLag(s, t);
    TailKept(s, s');
    BasesKept(s, s');
    TidyMoved(s, s', t);
    NotSubscribing(s', t);
    GreetingsStill(s, s', t);
    CallersMoved(s, s', t);
  }

  lemma SnapshotWriter(s: System, t: nat)
    requires Locks(s) && t < |s.threads| && s.threads[t].reg.Holding? && s.threads[t].reg.act == Snapshot
    ensures WriterPc(s.threads[t].pc) && RegFits(s.threads[t]) && s.writer == Some(t)
      && Lag(s) == Behind(s.threads[t].pc)
  {
    PlaceOf(s, t);
    WriterIs(s, t);
    hide Locks;
  }

  lemma SnapshotLag(s: System, t: nat)
    requires RegEnabled(s, Work(t)) && s.threads[t].reg.act == Snapshot && s.writer == Some(t)
    ensures Lag(RegStep(s, Work(t))) == Behind(RegStep(s, Work(t)).threads[t].pc)
  {
    hide Pick;
  }

  lemma SnapshotPlace(s: System, t: nat)
    requires HooksOk(s) && RegEnabled(s, Work(t)) && s.threads[t].reg.act == Snapshot && RegFits(s.threads[t])
    requires WriterPc(s.threads[t].pc)
    ensures var pc, pc' := s.threads[t].pc, RegStep(s, Work(t)).threads[t].pc;
      && Tidy(On(s), pc') && SubOf(pc') == None && SubOf(pc) == None && !pc.Done? && Behind(pc') <= Behind(pc)
      && (Behind(pc') == Behind(pc) || !On(s))
  {
    hide HookedUp, Pick;
    match s.threads[t].pc
    case SnapActions(at) => SelectionCasts(s.hooks, On(s), s.commits[at].from, s.commits[at].to);
    case _ =>
  }

  lemma ChangeEcho(s: System, t: nat)
    requires Locks(s) && Echo(s) && RegEnabled(s, Work(t)) && s.threads[t].reg.act.Change?
    ensures Echo(RegStep(s, Work(t)))
  {
    hide Locks, HookedUp, LogTail, Bases, AllTidy, Greetings, Callers, Lag, Apply;
    var s' := RegStep(s, Work(t));
    ChangePlace(s, t);
    EditKeepsCast(s.hooks, s.threads[t].reg.act.edit, On(s));
    TailKept(s, s');
    BasesKept(s, s');
    TidyMoved(s, s', t);
    NotSubscribing(s', t);
    GreetingsStill(s, s', t);
    CallersMoved(s, s', t);
  }

  lemma ChangePlace(s: System, t: nat)
    requires Locks(s) && AllTidy(s) && RegEnabled(s, Work(t)) && s.threads[t].reg.act.Change?
    ensures var s' := RegStep(s, Work(t));
      && KeepsCast(s.threads[t].reg.act.edit) && !s.threads[t].pc.Done? && Lag(s') == Lag(s)
      && SubOf(s.threads[t].pc) == None && SubOf(s'.threads[t].pc) == None && Tidy(On(s'), s'.threads[t].pc)
  {
    PlaceOf(s, t);
    ChangeLag(s, t);
    assert Tidy(On(s), s.threads[t].pc);
    hide Locks, AllTidy, Lag, Apply;
  }

  lemma ChangeLag(s: System, t: nat)
    requires Locks(s) && RegEnabled(s, Work(t)) && s.threads[t].reg.act.Change? && RegFits(s.threads[t])
    ensures Lag(RegStep(s, Work(t))) == Lag(s)
  {
    hide Casts, Apply;
    if s.threads[t].pc == Start { StartFree(s, t); }
  }

  /** Setting up the broadcast hook; until then there is no log and no subscription. */
  lemma AddHookEcho(s: System, t: nat)
    requires Locks(s) && Echo(s) && RegEnabled(s, Work(t)) && s.threads[t].reg.act == AddHook
    ensures Echo(RegStep(s, Work(t)))
  {
    var s' := RegStep(s, Work(t));
    PlaceOf(s, t);
    assert s.threads[t].pc.InOnce?;
    assert s.once == InProgress(t);
    StartFree(s, t);
    hide Register, RegisterError;
    LagOther(s, s', t);
    hide Locks, HookedUp, LogTail, Bases, AllTidy, Greetings, Callers, Lag;
    AddKeepsCast(s.hooks);
    TailKept(s, s');
    BasesKept(s, s');
    TidyMoved(s, s', t);
    NotSubscribing(s', t);
    GreetingsStill(s, s', t);
    CallersMoved(s, s', t);
  }

  // ---------- subscribing ----------

  lemma SubEcho(s: System, l: Subscribing)
    requires Locks(s) && Story(s) && Echo(s) && SubEnabled(s, l)
    ensures Echo(SubStep(s, l))
  {
    hide Locks, Story, Echo;
    if AtOnce(l) || l.Abort? { GateEcho(s, l); }
    else if l.SubStore? { SubStoreEcho(s, l.t); }
    else { ServeEcho(s, l); }
  }

  /** Subscribers hold no store back: only the writer does. */
  lemma ReaderLag(s: System, t: nat)
    requires Locks(s) && t < |s.threads| && !WriterPc(s.threads[t].pc)
    ensures s.writer != Some(t)
    ensures ReaderPc(s.threads[t].pc) ==> s.writer == None && Lag(s) == 0
  {
  }

  lemma TidyAt(s: System, t: nat)
    requires AllTidy(s) && Greetings(s) && t < |s.threads|
    ensures Tidy(On(s), s.threads[t].pc) && Greeted(s, t)
  {
  }

  lemma GatePlace(s: System, l: Subscribing)
    requires Locks(s) && SubEnabled(s, l) && (AtOnce(l) || l.Abort?)
    requires Tidy(On(s), s.threads[l.t].pc) && Greeted(s, l.t)
    ensures var s' := SubStep(s, l);
      && !WriterPc(s.threads[l.t].pc) && !s.threads[l.t].pc.Done? && (On(s) <==> On(s')) && s'.writer == s.writer
      && Tidy(On(s'), s'.threads[l.t].pc) && Greeted(s', l.t)
      && (SubOf(s'.threads[l.t].pc) == SubOf(s.threads[l.t].pc) || SubOf(s'.threads[l.t].pc) == None)
  {
    hide Locks;
    PlaceOf(s, l.t);
  }

  lemma GateEcho(s: System, l: Subscribing)
    requires Locks(s) && Echo(s) && SubEnabled(s, l) && (AtOnce(l) || l.Abort?)
    ensures Echo(SubStep(s, l))
  {
    hide Locks, HookedUp, LogTail, Bases, AllTidy, Greetings, Callers, Lag;
    var s', t := SubStep(s, l), l.t;
    TidyAt(s, t);
    GatePlace(s, l);
    ReaderLag(s, t);
    LagOther(s, s', t);
    hide Greeted;
    TailKept(s, s');
    BasesKept(s, s');
    TidyMoved(s, s', t);
    GreetingsNow(s, s', t);
    CallersMoved(s, s', t);
  }

  /** One subscription's record may have changed, on behalf of the thread that serves it. */
  lemma GreetingsNow(s: System, s': System, t: nat)
    requires Greetings(s) && t < |s.threads| && |s'.threads| == |s.threads|
    requires forall u | 0 <= u < |s.threads| && u != t :: s'.threads[u] == s.threads[u]
    requires s'.commits == s.commits && s'.initial == s.initial && s'.delivery == s.delivery && s'.base == s.base
    requires |s'.mgr.subs| == |s.mgr.subs| && |s'.mgr.log| == |s.mgr.log|
    requires forall i | 0 <= i < |s.mgr.subs| && SubOf(s.threads[t].pc) != Some(i) :: s'.mgr.subs[i] == s.mgr.subs[i]
    requires Greeted(s', t) && (SubOf(s'.threads[t].pc) == SubOf(s.threads[t].pc) || SubOf(s'.threads[t].pc) == None)
    ensures Greetings(s')
  {
    hide Greeted;
    forall u | 0 <= u < |s'.threads| ensures Greeted(s', u) {
      if u != t { GreetedKept(s, s', u); }
    }
  }

  lemma SubStoreEffect(s: System, t: nat)
    requires SubEnabled(s, SubStore(t))
    ensures var m, m' := s.mgr, SubStep(s, SubStore(t)).mgr;
      m'.subs == m.subs + [B.Sub(s.threads[t].op.channel, s.delivery, true, true, |m.log|, false, false, false, [], [])]
      && m'.chans == m.chans && m'.log == m.log
  {
  }

  lemma BornBefore(s: System, t: nat)
    requires Locks(s) && Story(s) && t < |s.threads|
    ensures s.threads[t].born <= |s.commits|
  {
    Look(s, t);
  }

  lemma SubStoreEcho(s: System, t: nat)
    requires Locks(s) && Story(s) && Echo(s) && SubEnabled(s, SubStore(t))
    ensures Echo(SubStep(s, SubStore(t)))
  {
    hide Locks, Story, HookedUp, LogTail, AllTidy, Callers, Lag, Enrolled, Greetings, B.JoinEnabled, B.JoinStep;
    var s' := SubStep(s, SubStore(t));
    TidyAt(s, t);
    BornBefore(s, t);
    ReaderLag(s, t);
    SubStoreEffect(s, t);
    LagOther(s, s', t);
    hide Greeted;
    assert Skipped(s') == Skipped(s) == |s.commits| - |s.mgr.log|;
    TailKept(s, s');
    TidyMoved(s, s', t);
    CallersMoved(s, s', t);
    GreetingsGrown(s, s', t);
  }

  lemma GreetingsGrown(s: System, s': System, t: nat)
    requires Greetings(s) && t < |s.threads| && |s'.threads| == |s.threads| && |s.base| == |s.mgr.subs|
    requires forall u | 0 <= u < |s.threads| && u != t :: s'.threads[u] == s.threads[u]
    requires s'.commits == s.commits && s'.initial == s.initial && s'.delivery == s.delivery
    requires s'.base == s.base + [|s.commits|] && s'.mgr.log == s.mgr.log && s'.threads[t].born <= |s.commits|
    requires s'.threads[t].pc == Registered(|s.mgr.subs|) && s'.threads[t].op.Subscribe?
    requires s'.mgr.subs == s.mgr.subs
      + [B.Sub(s'.threads[t].op.channel, s.delivery, true, true, |s.mgr.log|, false, false, false, [], [])]
    ensures Greetings(s')
  {
    forall u | 0 <= u < |s'.threads| ensures Greeted(s', u) {
      if u != t {
        assert Greeted(s, u);
        GreetedKept(s, s', u);
      }
    }
    forall u | 0 <= u < |s.threads| && u != t && SubOf(s.threads[u].pc).Some?
      ensures SubOf(s.threads[u].pc).value < |s.mgr.subs|
    {
      assert Greeted(s, u);
    }
  }

  predicate Serves(l: Subscribing) { l.SubArm? || l.Greet? }

  /** Arming and greeting touch one subscription, their own. */
  lemma ServeEffect(s: System, l: Subscribing)
    requires SubEnabled(s, l) && Serves(l)
    ensures l.t < |s.threads|
    ensures var s', i := SubStep(s, l), s.threads[l.t].pc.s;
      && s' == s.(mgr := s'.mgr, threads := s'.threads) && |s'.threads| == |s.threads|
      && (forall u | 0 <= u < |s.threads| && u != l.t :: s'.threads[u] == s.threads[u])
      && s'.mgr == s.mgr.(subs := s'.mgr.subs, chans := s'.mgr.chans)
      && |s'.mgr.subs| == |s.mgr.subs| && |s'.mgr.chans| == |s.mgr.chans| && i < |s.mgr.subs|
      && (forall j | 0 <= j < |s.mgr.subs| && j != i :: s'.mgr.subs[j] == s.mgr.subs[j])
      && s'.mgr.subs[i] == (if l.SubArm? then s.mgr.subs[i].(armed := true)
                            else s.mgr.subs[i].(first := s.mgr.subs[i].first + [Current(s)]))
      && forall c | 0 <= c < |s.mgr.chans| ::
           s'.mgr.chans[c].owned == s.mgr.chans[c].owned && s'.mgr.chans[c].closed == s.mgr.chans[c].closed
  {
  }

  lemma ServePlace(s: System, l: Subscribing)
    requires SubEnabled(s, l) && Serves(l) && Greeted(s, l.t) && Tidy(On(s), s.threads[l.t].pc)
    ensures var s', t := SubStep(s, l), l.t;
      && t < |s'.threads| && Greeted(s', t)
      && SubOf(s'.threads[t].pc) == SubOf(s.threads[t].pc) == Some(s.threads[t].pc.s)
      && Tidy(On(s'), s'.threads[t].pc) && ReaderPc(s.threads[t].pc) && s'.threads[t].op == s.threads[t].op
  {
    ServeEffect(s, l);
  }

  lemma ServeEcho(s: System, l: Subscribing)
    requires Locks(s) && Echo(s) && SubEnabled(s, l) && Serves(l)
    ensures Echo(SubStep(s, l))
  {
    hide Locks, HookedUp, LogTail, Bases, AllTidy, Greetings, Callers, Lag, Greeted, SubStep, SubEnabled;
    var s', t := SubStep(s, l), l.t;
    ServeEffect(s, l);
    TidyAt(s, t);
    ServePlace(s, l);
    ReaderLag(s, t);
    LagOther(s, s', t);
    TailKept(s, s');
    BasesKept(s, s');
    TidyMoved(s, s', t);
    GreetingsNow(s, s', t);
    CallersMoved(s, s', t);
  }

  // ---------- the manager's own steps ----------

  lemma MgrEffect(s: System, l: B.Label)
    requires S.Safe(s.mgr) && MgrEnabled(s, l)
    ensures var m, m' := s.mgr, B.Step(s.mgr, l);
      && m'.log == m.log && SameBases(m, m') && |m.chans| <= |m'.chans|
      && (!m.mutex.Sending? ==> forall i | 0 <= i < |m.subs| :: m'.subs[i].sent == m.subs[i].sent)
      && (forall c | 0 <= c < |m.chans| :: m'.chans[c].owned == m.chans[c].owned)
      && (forall c | 0 <= c < |m.chans| && !m.chans[c].owned && l != B.Out(B.CallerClose(c)) ::
            m'.chans[c].closed == m.chans[c].closed)
  {
    hide S.Safe, B.LeaveStep, B.CastStep, B.LeaveEnabled, B.CastEnabled;
    match l
    case Leave(v) => LeaveEffect(s.mgr, v);
    case Cast(b) => CastEffect(s.mgr, b);
    case Out(o) =>
  }

  lemma LeaveEffect(m: B.State, v: B.Leaving)
    requires S.Safe(m) && B.LeaveEnabled(m, v)
    ensures var m' := B.LeaveStep(m, v);
      && m'.log == m.log && SameBases(m, m') && |m.chans| == |m'.chans|
      && (forall i | 0 <= i < |m.subs| :: m'.subs[i].sent == m.subs[i].sent)
      && (forall c | 0 <= c < |m.chans| :: m'.chans[c].owned == m.chans[c].owned)
      && (forall c | 0 <= c < |m.chans| && !m.chans[c].owned :: m'.chans[c].closed == m.chans[c].closed)
  {
  }

  lemma CastEffect(m: B.State, b: B.Casting)
    requires B.CastEnabled(m, b) && (b.Visit? || b.Send? || b.Depart? || b.Expire?)
    ensures var m' := B.CastStep(m, b);
      && m.mutex.Sending? && m'.log == m.log && SameBases(m, m') && |m.chans| == |m'.chans|
      && (forall c | 0 <= c < |m.chans| ::
            m'.chans[c].owned == m.chans[c].owned && m'.chans[c].closed == m.chans[c].closed)
  {
    hide B.Deliver;
    if b.Visit? {
      DeliverEffect(m.(mutex := B.Sending(m.mutex.unvisited - {b.s}, m.mutex.pending)), b.s);
    }
    if b.Send? {
      DeliverEffect(B.Served(m, b.s), b.s);
    }
  }

  lemma DeliverEffect(m: B.State, i: nat)
    requires B.SubOk(m, i) && m.log != []
    ensures var m' := B.Deliver(m, i);
      && m'.mutex == m.mutex && m'.log == m.log && SameBases(m, m') && |m.chans| == |m'.chans|
      && (forall c | 0 <= c < |m.chans| ::
            m'.chans[c].owned == m.chans[c].owned && m'.chans[c].closed == m.chans[c].closed)
  {
  }

  lemma MgrEcho(s: System, l: B.Label)
    requires S.Safe(s.mgr) && Locks(s) && Echo(s) && MgrEnabled(s, l)
    ensures Echo(MgrStep(s, l))
  {
    var s' := MgrStep(s, l);
    MgrEffect(s, l);
    assert Lag(s') == Lag(s);
    MgrGreetings(s, l);
    MgrCallers(s, l);
    hide S.Safe, Locks, HookedUp, LogTail, Bases, Greetings, Callers, Lag, B.Enabled, B.Step;
    TailKept(s, s');
    BasesKept(s, s');
  }

  lemma MgrGreetings(s: System, l: B.Label)
    requires S.Safe(s.mgr) && Locks(s) && Greetings(s) && MgrEnabled(s, l)
    ensures Greetings(MgrStep(s, l))
  {
    var s' := MgrStep(s, l);
    MgrEffect(s, l);
    if s.mgr.mutex.Sending? { NoReaders(s); }
    hide S.Safe, Locks, Greeted, B.Enabled, B.Step;
    forall u | 0 <= u < |s'.threads| ensures Greeted(s', u) {
      GreetedKept(s, s', u);
    }
  }

  lemma MgrCallers(s: System, l: B.Label)
    requires S.Safe(s.mgr) && Callers(s) && MgrEnabled(s, l)
    ensures Callers(MgrStep(s, l))
  {
    MgrEffect(s, l);
    hide S.Safe, B.Enabled, B.Step;
  }

  lemma StepEcho(s: System, l: Label)
    requires S.Safe(s.mgr) && Locks(s) && Story(s) && Echo(s) && Enabled(s, l)
    ensures Echo(Step(s, l))
  {
    hide S.Safe, Locks, Story, Echo;
    match l
    case Living(f) => LifeEcho(s, f);
    case Write(w) => WriteEcho(s, w);
    case Regs(r) => RegEcho(s, r);
    case Sub(b) => SubEcho(s, b);
    case Mgr(m) => MgrEcho(s, m);
  }
}
