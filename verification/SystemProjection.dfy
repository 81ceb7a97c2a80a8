/** Every run of the whole machine is, seen from its manager, a run of the broadcast
    protocol. */
module SystemProjection {
  import opened SystemProtocol
  import B = BroadcastProtocol
  import T = BroadcastTheorems
  import P = BroadcastPlaces

  /** The protocol's steps that one step of the machine takes. */
  function MgrLabels(s: System, l: Label): seq<B.Label>
    requires Enabled(s, l)
  {
    match l
    case Write(CastLock(t)) => [B.Cast(B.Lock(s.commits[s.threads[t].pc.at].to))]
    case Write(CastUnlock(t)) => [B.Cast(B.Unlock)]
    case Sub(SubStore(t)) =>
      [B.Join(B.Begin(B.External(s.threads[t].op.channel), s.delivery)), B.Join(B.Store(|s.mgr.subs|))]
    case Sub(SubArm(t)) => [B.Join(B.Arm(s.threads[t].pc.s))]
    case Sub(Greet(t)) => [B.Join(B.First(s.threads[t].pc.s, Current(s)))]
    case Mgr(m) => [m]
    case _ => []
  }

  lemma RunOne(m: B.State, l: B.Label)
    requires B.Enabled(m, l)
    ensures B.Run(m, [l]) && B.After(m, [l]) == B.Step(m, l)
  {
    assert [l][1..] == [];
    assert B.Run(B.Step(m, l), []);
  }

  lemma ProjectStep(s: System, l: Label)
    requires Enabled(s, l)
    ensures B.Run(s.mgr, MgrLabels(s, l)) && B.After(s.mgr, MgrLabels(s, l)) == Step(s, l).mgr
  {
    match l
    case Living(f) => LifeMgr(s, f);
    case Write(w) => WriteMgr(s, w);
    case Regs(r) => RegMgr(s, r);
    case Sub(b) => SubMgr(s, b);
    case Mgr(m) => RunOne(s.mgr, m);
  }

  lemma LifeMgr(s: System, l: Life)
    requires LifeEnabled(s, l)
    ensures LifeStep(s, l).mgr == s.mgr
  {
  }

  lemma RegMgr(s: System, l: Registering)
    requires RegEnabled(s, l)
    ensures RegStep(s, l).mgr == s.mgr
  {
  }

  lemma WriteMgr(s: System, l: Writing)
    requires WriteEnabled(s, l)
    ensures B.Run(s.mgr, MgrLabels(s, Write(l))) && B.After(s.mgr, MgrLabels(s, Write(l))) == WriteStep(s, l).mgr
  {
    hide B.CastEnabled, B.CastStep;
    match l
    case CastLock(t) => RunOne(s.mgr, B.Cast(B.Lock(s.commits[s.threads[t].pc.at].to)));
    case CastUnlock(t) => RunOne(s.mgr, B.Cast(B.Unlock));
    case _ => assert WriteStep(s, l).mgr == s.mgr;
  }

  lemma SubMgr(s: System, l: Subscribing)
    requires SubEnabled(s, l)
    ensures B.Run(s.mgr, MgrLabels(s, Sub(l))) && B.After(s.mgr, MgrLabels(s, Sub(l))) == SubStep(s, l).mgr
  {
    match l
    case SubStore(t) => EnrollMgr(s, s.threads[t].op.channel);
    case SubArm(t) => RunOne(s.mgr, B.Join(B.Arm(s.threads[t].pc.s)));
    case Greet(t) => RunOne(s.mgr, B.Join(B.First(s.threads[t].pc.s, Current(s))));
    case _ => assert SubStep(s, l).mgr == s.mgr;
  }

  lemma EnrollMgr(s: System, c: nat)
    requires s.mgr.mutex == B.Free && B.JoinEnabled(s.mgr, B.Begin(B.External(c), s.delivery))
    ensures var begin, store := B.Join(B.Begin(B.External(c), s.delivery)), B.Join(B.Store(|s.mgr.subs|));
      B.Run(s.mgr, [begin, store]) && B.After(s.mgr, [begin, store]) == Enrolled(s.mgr, c, s.delivery)
  {
    var begin, store := B.Join(B.Begin(B.External(c), s.delivery)), B.Join(B.Store(|s.mgr.subs|));
    RunOne(s.mgr, begin);
    RunOne(B.Step(s.mgr, begin), store);
    P.RunAppend(s.mgr, [begin], [store]);
    assert [begin] + [store] == [begin, store];
  }

  /** What a run of the machine does to its manager. */
  ghost function Project(s: System, ls: seq<Label>): seq<B.Label>
    requires Run(s, ls)
    decreases |ls|
  {
    if ls == [] then [] else MgrLabels(s, ls[0]) + Project(Step(s, ls[0]), ls[1..])
  }

  lemma {:induction false} ProjectRun(s: System, ls: seq<Label>)
    requires Run(s, ls)
    ensures B.Run(s.mgr, Project(s, ls)) && B.After(s.mgr, Project(s, ls)) == After(s, ls).mgr
    decreases |ls|
  {
    if ls != [] {
      ProjectStep(s, ls[0]);
      ProjectRun(Step(s, ls[0]), ls[1..]);
      hide Step, Enabled, MgrLabels;
      P.RunAppend(s.mgr, MgrLabels(s, ls[0]), Project(Step(s, ls[0]), ls[1..]));
    }
  }

  /** No step of the run stores or removes another subscription of `i`'s channel while `i` is
      stored. */
  ghost predicate Undisplaced(s: System, ls: seq<Label>, i: nat)
    requires Run(s, ls)
  {
    B.Run(s.mgr, Project(s, ls)) && P.Undisplaced(s.mgr, Project(s, ls), i)
  }

  /** In every reachable state the manager is in a reachable state of the protocol. */
  lemma ReachableMgr(s: System)
    requires Reachable(s)
    ensures T.Reachable(s.mgr)
  {
    var s0, ls :| Init(s0) && Run(s0, ls) && After(s0, ls) == s;
    ProjectRun(s0, ls);
  }
}
