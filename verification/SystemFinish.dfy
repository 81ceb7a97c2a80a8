/** Left to itself the program comes to rest: every step of its own lowers a measure, so any
    order of them ends, with every call returned or a send parked. */
module SystemFinish {
  import opened RegistrySpec
  import opened SystemProtocol
  import opened SystemLocks
  import opened SystemHistory
  import opened SystemStream
  import opened SystemTheorems
  import opened SystemProgress
  import B = BroadcastProtocol
  import S = BroadcastSafety
  import T = BroadcastTheorems

  // ---------- the measure ----------

  function PcRank(pc: Pc): nat {
    match pc
    case Start => 9
    case Checking => 8
    case SnapGuards(_, _) => 7
    case Guards(_, _, _, _) => 6
    case SnapActions(_) => 5
    case Actions(_, _) => 4
    case InCast(_, _) => 4
    case Exiting(_) => 1
    case InOnce => 8
    case AwaitRead => 7
    case Reading => 6
    case Registered(_) => 5
    case Greeting(_) => 4
    case ReadExit(_) => 1
    case Done(_) => 0
  }

  /** How far a call has to go, its use of the registry included. */
  function Phase(th: Thread): nat {
    3 * PcRank(th.pc) + (if th.reg.Wanting? then 2 else if th.reg.Holding? then 1 else 0)
  }

  /** How many hooks it has yet to run, the broadcast counting twice: its start and its end. */
  function Work(th: Thread): nat {
    match th.pc
    case Guards(_, _, rest, _) => 2 * |rest|
    case Actions(_, rest) => 2 * |rest|
    case InCast(_, rest) => 2 * |rest| + 1
    case _ => 0
  }

  function Total(f: Thread -> nat, ths: seq<Thread>): nat {
    if ths == [] then 0 else f(ths[0]) + Total(f, ths[1..])
  }

  /** What the holder of the manager's mutex has left to do. */
  function Grip(m: B.State): nat {
    match m.mutex
    case Closing(_) => 1
    case Sending(_, _) => T.Remaining(m)
    case _ => 0
  }

  ghost predicate Lower(s: System, s': System) {
    var p, w := Total(Phase, s.threads), Total(Work, s.threads);
    var p', w' := Total(Phase, s'.threads), Total(Work, s'.threads);
    p' < p || (p' == p && (w' < w || (w' == w && Grip(s'.mgr) < Grip(s.mgr))))
  }

  lemma {:induction false} TotalUpdate(f: Thread -> nat, ths: seq<Thread>, t: nat, x: Thread)
    requires t < |ths|
    ensures Total(f, ths[t := x]) + f(ths[t]) == Total(f, ths) + f(x)
  {
    if t == 0 {
      assert ths[t := x][1..] == ths[1..];
    } else {
      TotalUpdate(f, ths[1..], t - 1, x);
      assert ths[t := x][1..] == ths[1..][t - 1 := x];
    }
  }

  /** One thread came nearer its return. */
  lemma OneLower(s: System, s': System, t: nat)
    requires t < |s.threads| && |s'.threads| == |s.threads|
    requires forall u | 0 <= u < |s.threads| && u != t :: s'.threads[u] == s.threads[u]
    requires var x, x' := s.threads[t], s'.threads[t];
      Phase(x') < Phase(x) || (Phase(x') == Phase(x) && Work(x') < Work(x))
    ensures Lower(s, s')
  {
    assert s'.threads == s.threads[t := s'.threads[t]];
    TotalUpdate(Phase, s.threads, t, s'.threads[t]);
    TotalUpdate(Work, s.threads, t, s'.threads[t]);
  }

  // ---------- every step of the program's own lowers it ----------

  lemma WriteLower(s: System, l: Writing)
    requires WriteEnabled(s, l) && !l.HookEdit?
    ensures Lower(s, WriteStep(s, l))
  {
    hide B.CastEnabled, B.CastStep;
    OneLower(s, WriteStep(s, l), l.t);
  }

  lemma RegLower(s: System, l: Registering)
    requires Locks(s) && RegEnabled(s, l)
    ensures Lower(s, RegStep(s, l))
  {
    Placement(s, l.t);
    hide Locks, Pick, Apply, Register, RegisterError;
    OneLower(s, RegStep(s, l), l.t);
  }

  lemma SubLower(s: System, l: Subscribing)
    requires SubEnabled(s, l)
    ensures Lower(s, SubStep(s, l))
  {
    hide B.JoinEnabled, B.JoinStep, Enrolled;
    OneLower(s, SubStep(s, l), l.t);
  }

  lemma MgrLower(s: System, l: B.Label)
    requires S.Safe(s.mgr) && MgrEnabled(s, l) && Own(Mgr(l))
    ensures Lower(s, MgrStep(s, l))
  {
    if l.Cast? {
      T.CastAdvances(s.mgr, l.b);
    }
  }

  /** Every step of the program's own, whichever it is, lowers the measure: no run of them
      goes on for ever. */
  lemma OwnStepLowers(s: System, l: Label)
    requires Whole(s) && Own(l) && Enabled(s, l)
    ensures Lower(s, Step(s, l))
  {
    hide Whole;
    match l
    case Living(f) => ReadLower(s, f.t);
    case Write(w) => WriteLower(s, w);
    case Regs(r) => LocksOf(s); RegLower(s, r);
    case Sub(b) => SubLower(s, b);
    case Mgr(m) => SafeOf(s); MgrLower(s, m);
  }

  lemma ReadLower(s: System, t: nat)
    requires LifeEnabled(s, Read(t))
    ensures Lower(s, LifeStep(s, Read(t)))
  {
    OneLower(s, LifeStep(s, Read(t)), t);
  }

  lemma SafeOf(s: System)
    requires Whole(s)
    ensures S.Safe(s.mgr)
  {
    T.InvariantSafe(s.mgr);
    hide T.Invariant, Locks, Story, Echo;
  }

  /** The program has no step of its own left to take. */
  ghost predicate AtRest(s: System) { forall l | Own(l) :: !Enabled(s, l) }

  /** The chain leads from `t` to a thread parked on a send. */
  ghost predicate HeldUp(s: System, t: nat, path: seq<nat>) {
    path != [] && path[0] == t && WaitChain(s, path) && ParkedAt(s, path[|path| - 1])
  }

  /** Every call has returned, or is held up by a send on a full channel that nobody empties
      and whose subscription nobody has cancelled. */
  ghost predicate Settled(s: System) {
    forall t | 0 <= t < |s.threads| && !s.threads[t].pc.Done? :: exists path :: HeldUp(s, t, path)
  }

  lemma RestSettled(s: System)
    requires Whole(s) && AtRest(s)
    ensures Settled(s)
  {
    forall t | 0 <= t < |s.threads| && !s.threads[t].pc.Done? ensures exists path :: HeldUp(s, t, path) {
      var path, l := Unblocked(s, t);
      hide Whole, ParkedAt, WaitsFor, Enabled, Own;
      assert HeldUp(s, t, path);
    }
  }

  /** The program's own steps, in whatever order they are taken, lead to rest. */
  lemma {:induction false} ComesToRest(s: System) returns (ls: seq<Label>)
    requires Whole(s)
    ensures (forall l | l in ls :: Own(l)) && Run(s, ls)
    ensures AtRest(After(s, ls)) && Settled(After(s, ls))
    decreases Total(Phase, s.threads), Total(Work, s.threads), Grip(s.mgr)
  {
    hide Whole, Settled, Own, Enabled, Step;
    if l :| Own(l) && Enabled(s, l) {
      StepWhole(s, l);
      OwnStepLowers(s, l);
      var rest := ComesToRest(Step(s, l));
      ls := [l] + rest;
      assert ls[1..] == rest;
    } else {
      ls := [];
      RestSettled(s);
    }
  }

  /** From every reachable state the program's own steps lead to rest, and at rest every call
      has returned or waits, by a chain of threads, on a parked send. */
  lemma ReachableComesToRest(s: System) returns (ls: seq<Label>)
    requires Reachable(s)
    ensures (forall l | l in ls :: Own(l)) && Run(s, ls)
    ensures AtRest(After(s, ls)) && Settled(After(s, ls))
  {
    ReachableWhole(s);
    hide Whole, AtRest, Settled;
    ls := ComesToRest(s);
  }
}
