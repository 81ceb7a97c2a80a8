/** The history: every operation takes effect at its store, so the threads refine a machine
    whose operations are atomic. */
module SystemHistory {
  import opened Basics
  import opened TransitionTable
  import opened RegistrySpec
  import opened SystemProtocol
  import opened SystemLocks
  import B = BroadcastProtocol

  // ---------- the atomic machine ----------

  /** One atomic move: from the current state, along the relation or forced to a defined state. */
  ghost predicate Legal(s: System, from: string, c: Commit) {
    && c.from == from && if c.forced then c.to in s.table else Allowed(s.table, c.from, c.to)
  }

  /** The commit a thread has made and still reports. */
  function CommitOf(pc: Pc): Option<nat> {
    match pc
    case SnapActions(at) => Some(at)
    case Actions(at, _) => Some(at)
    case InCast(at, _) => Some(at)
    case Exiting(Moved(at)) => Some(at)
    case Done(Moved(at)) => Some(at)
    case _ => None
  }

  /** Commit `k` is what operation `op`, called when `born` operations had succeeded, asked for. */
  ghost predicate CommitFor(s: System, t: nat, k: nat)
    requires t < |s.threads|
  {
    var th := s.threads[t];
    && th.born <= k < |s.commits| && s.commits[k].thread == t && Moves(th.op) && s.commits[k].to == th.op.to
    && (s.commits[k].forced <==> th.op.SetState?)
    && (th.op.TransitionIf? ==> s.commits[k].from == th.op.expected)
  }

  /** A refusal names a moment during the call at which its reason held; a conditional one
      that gets past the comparison names a moment at which that held, and a failing guard
      one at which the move was allowed. */
  ghost predicate RefusalOk(s: System, th: Thread, why: Why, k: nat) {
    && th.born <= k <= |s.commits| && Moves(th.op)
    && (why == Mismatch ==> th.op.TransitionIf? && State(s, k) != th.op.expected)
    && (why == NotAllowed ==> !th.op.SetState? && !Allowed(s.table, State(s, k), th.op.to))
    && (why == GuardFailed ==> !th.op.SetState? && Allowed(s.table, State(s, k), th.op.to))
    && (why == Undefined ==> th.op.SetState? && th.op.to !in s.table)
    && (th.op.TransitionIf? && why != Mismatch ==> State(s, k) == th.op.expected)
  }

  /** What a thread about to store knows: nothing can have moved since its checks. */
  ghost predicate ReadyOk(s: System, th: Thread, from: string, to: string, forced: bool) {
    && Moves(th.op) && to == th.op.to && from == Current(s) && (forced <==> th.op.SetState?)
    && (if forced then to in s.table else Allowed(s.table, from, to))
    && (th.op.TransitionIf? ==> from == th.op.expected)
  }

  ghost predicate ThreadOk(s: System, t: nat)
    requires t < |s.threads|
  {
    var th := s.threads[t];
    && th.born <= |s.commits|
    && (CommitOf(th.pc).Some? ==> CommitFor(s, t, CommitOf(th.pc).value))
    && match th.pc
       case SnapGuards(from, to) => ReadyOk(s, th, from, to, false)
       case Guards(from, to, _, forced) => ReadyOk(s, th, from, to, forced)
       case SnapActions(at) => at == |s.commits| - 1
       case Actions(at, _) => at == |s.commits| - 1
       case InCast(at, _) => at == |s.commits| - 1
       case Exiting(Refused(why, k)) => RefusalOk(s, th, why, k)
       case Done(Refused(why, k)) => RefusalOk(s, th, why, k)
       case Done(Saw(k)) => th.op == GetState && th.born <= k <= |s.commits|
       case _ => true
  }

  ghost predicate LegalAt(s: System, k: nat)
    requires k < |s.commits|
  {
    Legal(s, State(s, k), s.commits[k])
  }

  /** Every commit was a legal move from the state before it, by a thread that holds it. */
  ghost predicate CommitsOk(s: System) {
    && (forall k | 0 <= k < |s.commits| :: LegalAt(s, k))
    && (forall k | 0 <= k < |s.commits| ::
          s.commits[k].thread < |s.threads| && CommitOf(s.threads[s.commits[k].thread].pc) == Some(k))
  }

  ghost predicate Story(s: System) {
    && WellFormed(s.table) && s.initial in s.table && CommitsOk(s)
    && forall t | 0 <= t < |s.threads| :: ThreadOk(s, t)
  }

  lemma SameLegal(s: System, s': System)
    requires s'.commits == s.commits && s'.table == s.table && s'.initial == s.initial && CommitsOk(s)
    ensures forall k | 0 <= k < |s'.commits| :: LegalAt(s', k)
  {
    forall k | 0 <= k < |s'.commits| ensures LegalAt(s', k) {
      assert LegalAt(s, k);
      LegalStays(s, s', k);
    }
  }

  /** No store: one thread moved to a place that fits the history, keeping its commit. */
  lemma MovedStory(s: System, s': System, t: nat)
    requires Story(s) && t < |s.threads| && |s'.threads| == |s.threads|
    requires s'.commits == s.commits && s'.table == s.table && s'.initial == s.initial
    requires forall u | 0 <= u < |s.threads| && u != t :: s'.threads[u] == s.threads[u]
    requires CommitOf(s'.threads[t].pc) == CommitOf(s.threads[t].pc) && ThreadOk(s', t)
    ensures Story(s')
  {
    hide WellFormed, LegalAt;
    SameLegal(s, s');
    forall u | 0 <= u < |s'.threads| ensures ThreadOk(s', u) {
      if u != t { assert ThreadOk(s, u); }
    }
  }

  lemma Look(s: System, t: nat)
    requires Locks(s) && Story(s) && t < |s.threads|
    ensures ThreadOk(s, t) && RegFits(s.threads[t]) && OpFits(s.threads[t])
  {
  }

  lemma LifeStory(s: System, l: Life)
    requires Locks(s) && Story(s) && LifeEnabled(s, l)
    ensures Story(LifeStep(s, l))
  {
    hide Locks, Story, ThreadOk;
    if l.Spawn? {
      SpawnStory(s, LifeStep(s, l));
    } else {
      MoveStory(s, l);
    }
  }

  lemma MoveStory(s: System, l: Life)
    requires Locks(s) && Story(s) && LifeEnabled(s, l) && !l.Spawn?
    ensures Story(LifeStep(s, l))
  {
    hide Locks, Story;
    Look(s, l.t);
    MovedStory(s, LifeStep(s, l), l.t);
  }

  lemma SpawnStory(s: System, s': System)
    requires Story(s) && s'.commits == s.commits && s'.table == s.table && s'.initial == s.initial
    requires |s'.threads| == |s.threads| + 1 && s'.threads[..|s.threads|] == s.threads
    requires s'.threads[|s.threads|].pc == Start && s'.threads[|s.threads|].born == |s.commits|
    ensures Story(s')
  {
    hide WellFormed, LegalAt;
    SameLegal(s, s');
    forall u | 0 <= u < |s.threads| ensures s'.threads[u] == s.threads[u] {
      assert s'.threads[..|s.threads|][u] == s.threads[u];
    }
    forall u | 0 <= u < |s'.threads| ensures ThreadOk(s', u) {
      if u < |s.threads| { assert ThreadOk(s, u); }
    }
  }

  lemma WriteStory(s: System, l: Writing)
    requires Locks(s) && Story(s) && WriteEnabled(s, l)
    ensures Story(WriteStep(s, l))
  {
    hide Locks, Story;
    match l
    case Store(t) => StoreStory(s, t);
    case Check(t, canceled) => CheckStory(s, t, canceled);
    case _ => OtherWriteStory(s, l);
  }

  lemma OtherWriteStory(s: System, l: Writing)
    requires Locks(s) && Story(s) && WriteEnabled(s, l) && !l.Store? && !l.Check?
    ensures Story(WriteStep(s, l))
  {
    hide Locks, Story, B.CastEnabled, B.CastStep;
    Look(s, l.t);
    MovedStory(s, WriteStep(s, l), l.t);
  }

  lemma CheckStory(s: System, t: nat, canceled: bool)
    requires Locks(s) && Story(s) && WriteEnabled(s, Check(t, canceled))
    ensures Story(WriteStep(s, Check(t, canceled)))
  {
    hide Locks, Story;
    Look(s, t);
    MovedStory(s, WriteStep(s, Check(t, canceled)), t);
  }

  /** Longer histories keep what was known of their positions. */
  lemma LongerHistory(s: System, s': System, u: nat)
    requires u < |s.threads| && u < |s'.threads| && s'.threads[u] == s.threads[u] && ThreadOk(s, u)
    requires s'.table == s.table && s'.initial == s.initial && s.commits <= s'.commits
    requires !WriterPc(s.threads[u].pc)
    ensures ThreadOk(s', u)
  {
    assert forall k | 0 <= k <= |s.commits| :: State(s', k) == State(s, k);
  }

  /** The store appends one legal move; everyone else's place in the history stands. */
  lemma StoreStory(s: System, t: nat)
    requires Locks(s) && Story(s) && WriteEnabled(s, Store(t))
    ensures Story(WriteStep(s, Store(t)))
  {
    hide Locks, Story, ThreadOk, LegalAt;
    Look(s, t);
    OnlyWriter(s, t);
    StoreSelf(s, t);
    GrownStory(s, WriteStep(s, Store(t)), t);
  }

  lemma OnlyWriter(s: System, t: nat)
    requires Locks(s) && t < |s.threads| && WriterPc(s.threads[t].pc)
    ensures forall u | 0 <= u < |s.threads| && u != t :: !WriterPc(s.threads[u].pc)
  {
  }

  lemma GrownStory(s: System, s': System, t: nat)
    requires Story(s) && t < |s.threads| && |s'.threads| == |s.threads| && s'.table == s.table
      && s'.initial == s.initial
    requires forall u | 0 <= u < |s.threads| && u != t :: s'.threads[u] == s.threads[u] && !WriterPc(s.threads[u].pc)
    requires |s'.commits| == |s.commits| + 1 && s.commits <= s'.commits && s'.commits[|s.commits|].thread == t
    requires CommitOf(s.threads[t].pc) == None && CommitOf(s'.threads[t].pc) == Some(|s.commits|)
    requires ThreadOk(s', t) && LegalAt(s', |s.commits|)
    ensures Story(s')
  {
    hide ThreadOk, WellFormed, CommitsOk, LegalAt;
    forall u | 0 <= u < |s'.threads| ensures ThreadOk(s', u) {
      if u != t { LongerHistory(s, s', u); }
    }
    GrownCommits(s, s', t);
  }

  lemma GrownCommits(s: System, s': System, t: nat)
    requires CommitsOk(s) && t < |s.threads| && |s'.threads| == |s.threads| && s'.table == s.table
      && s'.initial == s.initial
    requires forall u | 0 <= u < |s.threads| && u != t :: s'.threads[u] == s.threads[u]
    requires |s'.commits| == |s.commits| + 1 && s.commits <= s'.commits && s'.commits[|s.commits|].thread == t
    requires CommitOf(s.threads[t].pc) == None && CommitOf(s'.threads[t].pc) == Some(|s.commits|)
    requires LegalAt(s', |s.commits|)
    ensures CommitsOk(s')
  {
    hide LegalAt;
    forall k | 0 <= k < |s'.commits| ensures LegalAt(s', k) {
      if k < |s.commits| { LegalStays(s, s', k); }
    }
  }

  lemma LegalStays(s: System, s': System, k: nat)
    requires k < |s.commits| && s.commits <= s'.commits && s'.table == s.table && s'.initial == s.initial
    requires LegalAt(s, k)
    ensures LegalAt(s', k)
  {
  }

  lemma StoreSelf(s: System, t: nat)
    requires WriteEnabled(s, Store(t)) && ThreadOk(s, t) && OpFits(s.threads[t])
    ensures var s', n := WriteStep(s, Store(t)), |s.commits|;
      ThreadOk(s', t) && |s'.commits| == n + 1 && s.commits <= s'.commits && s'.commits[n].thread == t
      && Legal(s, Current(s), s'.commits[n]) && LegalAt(s', n)
  {
  }

  lemma RegStory(s: System, l: Registering)
    requires Locks(s) && Story(s) && RegEnabled(s, l)
    ensures Story(RegStep(s, l))
  {
    hide Locks, Story, Pick, RegisterError;
    Look(s, l.t);
    MovedStory(s, RegStep(s, l), l.t);
  }

  lemma SubStory(s: System, l: Subscribing)
    requires Locks(s) && Story(s) && SubEnabled(s, l)
    ensures Story(SubStep(s, l))
  {
    hide Locks, Story, B.JoinEnabled, B.JoinStep, Enrolled;
    Look(s, l.t);
    MovedStory(s, SubStep(s, l), l.t);
  }

  lemma MgrStory(s: System, l: B.Label)
    requires Story(s) && MgrEnabled(s, l)
    ensures Story(MgrStep(s, l))
  {
    hide WellFormed, LegalAt;
    var s' := MgrStep(s, l);
    SameLegal(s, s');
    forall u | 0 <= u < |s'.threads| ensures ThreadOk(s', u) { assert ThreadOk(s, u); }
  }

  lemma StepStory(s: System, l: Label)
    requires Locks(s) && Story(s) && Enabled(s, l)
    ensures Story(Step(s, l))
  {
    hide Locks, Story;
    match l
    case Living(f) => LifeStory(s, f);
    case Write(w) => WriteStory(s, w);
    case Regs(r) => RegStory(s, r);
    case Sub(b) => SubStory(s, b);
    case Mgr(m) => MgrStory(s, m);
  }

  /** Refinement: every step either leaves the history alone or is a store, which is one
      legal move of the atomic machine from the state it was in. */
  lemma StepRefines(s: System, l: Label)
    requires Locks(s) && Story(s) && Enabled(s, l)
    ensures var s' := Step(s, l);
      if l.Write? && l.w.Store? then
        |s'.commits| == |s.commits| + 1 && s'.commits[..|s.commits|] == s.commits
        && s'.commits[|s.commits|].thread == l.w.t && Legal(s, Current(s), s'.commits[|s.commits|])
      else s'.commits == s.commits
  {
    hide Locks, Story;
    if l.Write? && l.w.Store? {
      Look(s, l.w.t);
      StoreSelf(s, l.w.t);
    }
  }
}
