/** What callers of the machine can rely on: operations are atomic and ordered in real time,
    the state is always defined, and it moves only along the table unless forced. */
module SystemOperations {
  import opened Basics
  import opened TransitionTable
  import opened SystemProtocol
  import opened SystemLocks
  import opened SystemHistory
  import opened SystemStream
  import opened SystemTheorems
  import opened RegistrySpec
  import B = BroadcastProtocol
  import T = BroadcastTheorems

  // ---------- every run stays in the table ----------

  /** The machine's state is a defined state at every point of every history, and every
      unforced step of the history is along the relation. */
  lemma AlwaysDefined(s: System, k: nat)
    requires Reachable(s) && k <= |s.commits|
    ensures State(s, k) in s.table
    ensures k < |s.commits| && !s.commits[k].forced ==> Allowed(s.table, State(s, k), State(s, k + 1))
  {
    ReachableWhole(s);
    LegalMoves(s);
    hide Whole;
    if k > 0 { assert LegalAt(s, k - 1); }
    if k < |s.commits| { assert LegalAt(s, k); }
  }

  lemma LegalMoves(s: System)
    requires Whole(s)
    ensures WellFormed(s.table) && s.initial in s.table && forall k | 0 <= k < |s.commits| :: LegalAt(s, k)
  {
    hide Locks, Echo;
  }

  ghost predicate Closed(c: ConfigMap, ss: set<string>) {
    forall f, t | f in ss && Allowed(c, f, t) :: t in ss
  }

  /** Without SetState the machine stays inside the forward closure of its initial state:
      inside every closed set of states that holds it. */
  lemma {:induction false} StaysInClosure(s: System, ss: set<string>, k: nat)
    requires Reachable(s) && k <= |s.commits| && Closed(s.table, ss) && s.initial in ss
    requires forall j | 0 <= j < k :: !s.commits[j].forced
    ensures State(s, k) in ss
  {
    hide Reachable;
    if k > 0 {
      StaysInClosure(s, ss, k - 1);
      AlwaysDefined(s, k - 1);
    }
  }

  /** A terminal state is left only by SetState. */
  lemma TerminalStays(s: System, k: nat, n: nat)
    requires Reachable(s) && k <= n <= |s.commits| && (forall t :: !Allowed(s.table, State(s, k), t))
    requires forall j | k <= j < n :: !s.commits[j].forced
    ensures k == n
  {
    if k < n { AlwaysDefined(s, k); }
  }

  // ---------- operations are atomic ----------

  /** What one finished operation did, or why it did not. */
  ghost predicate Atomic(s: System, th: Thread, res: Result) {
    match res
    case Moved(k) =>
      && th.born <= k < |s.commits| && Moves(th.op) && State(s, k + 1) == th.op.to
      && (th.op.TransitionIf? ==> State(s, k) == th.op.expected)
      && (!th.op.SetState? ==> Allowed(s.table, State(s, k), th.op.to))
      && (th.op.SetState? ==> th.op.to in s.table)
    case Refused(why, k) =>
      && th.born <= k <= |s.commits| && Moves(th.op)
      && (why == Mismatch ==> th.op.TransitionIf? && State(s, k) != th.op.expected)
      && (why == NotAllowed ==> !th.op.SetState? && !Allowed(s.table, State(s, k), th.op.to))
      && (why == GuardFailed ==> !th.op.SetState? && Allowed(s.table, State(s, k), th.op.to))
      && (why == Undefined ==> th.op.SetState? && th.op.to !in s.table)
      && (th.op.TransitionIf? && why != Mismatch ==> State(s, k) == th.op.expected)
    case Saw(k) => th.op == GetState && th.born <= k <= |s.commits|
    case Edited => th.op.EditHooks?
    case Subscribed(i) => s.once == Ran(true) && OwnSub(s, th, i)
    // a Subscribe is refused for no other reason than these two
    case NotSubscribed(None) => th.op.Subscribe? && s.once == Ran(false)
    case NotSubscribed(Some(i)) => OwnSub(s, th, i) && s.mgr.subs[i].cancelled
  }

  /** Subscription `i` was stored on the caller's channel at a moment of the call, with the
      delivery the machine was given, and a cancellation will remove it. */
  predicate OwnSub(s: System, th: Thread, i: nat) {
    && i < |s.mgr.subs| == |s.base| && th.op == Subscribe(s.mgr.subs[i].ch) && s.mgr.subs[i].stored
    && th.born <= s.base[i] <= |s.commits| && s.mgr.subs[i].mode == s.delivery && s.mgr.subs[i].armed
  }

  /** No two Subscribe calls share a subscription. */
  lemma OwnSubsDiffer(s: System, t: nat, u: nat)
    requires Reachable(s) && t < |s.threads| && u < |s.threads| && t != u
    requires SubOf(s.threads[t].pc).Some? && SubOf(s.threads[u].pc).Some?
    ensures SubOf(s.threads[t].pc) != SubOf(s.threads[u].pc)
  {
    ReachableWhole(s);
    hide T.Invariant, Locks, Story, Greeted;
    if u < t { assert SubOf(s.threads[u].pc) != SubOf(s.threads[t].pc); }
  }

  /** Setting up the broadcast hook, once and for all, fails exactly for a registry that was
      given no table. */
  lemma SetUpExactly(s: System)
    requires Reachable(s) && s.once.Ran?
    ensures s.once == Ran(s.hooks.states.Some?)
  {
    ReachableWhole(s);
    hide T.Invariant, Locks, Story;
  }

  /** Each finished operation is one step of a machine that runs whole operations one at a
      time, or left it alone for a reason that held at a moment during the call. */
  lemma OperationsAtomic(s: System, t: nat)
    requires Reachable(s) && t < |s.threads| && s.threads[t].pc.Done?
    ensures Atomic(s, s.threads[t], s.threads[t].pc.res)
  {
    hide Reachable, Whole, WellFormed, Atomic, ThreadOk, OpFits, SubOk, LegalAt;
    ReachableWhole(s);
    LegalMoves(s);
    ThreadFacts(s, t);
    SubFacts(s, t);
    FactsAtomic(s, t);
  }

  /** What a returned Subscribe call leaves behind. */
  ghost predicate SubOk(s: System, t: nat)
    requires t < |s.threads|
  {
    match s.threads[t].pc
    case Done(Subscribed(i)) => s.once == Ran(true) && OwnSub(s, s.threads[t], i)
    case Done(NotSubscribed(None)) => s.once == Ran(false)
    case Done(NotSubscribed(Some(i))) => OwnSub(s, s.threads[t], i) && s.mgr.subs[i].cancelled
    case _ => true
  }

  lemma SubFacts(s: System, t: nat)
    requires Whole(s) && t < |s.threads|
    ensures SubOk(s, t)
  {
    hide Whole, LogTail, Skipped, State;
    CallerOf(s, t);
    SetUpFailed(s, t);
    if SubOf(s.threads[t].pc).Some? && SubOf(s.threads[t].pc).value < |s.mgr.subs| {
      BaseOf(s, SubOf(s.threads[t].pc).value);
    }
  }

  lemma SetUpFailed(s: System, t: nat)
    requires Whole(s) && t < |s.threads|
    ensures s.threads[t].pc == Done(NotSubscribed(None)) ==> s.once == Ran(false)
    ensures s.mgr.subs != [] ==> s.once == Ran(true)
  {
    hide T.Invariant, Story;
  }

  lemma FactsAtomic(s: System, t: nat)
    requires t < |s.threads| && s.threads[t].pc.Done? && ThreadOk(s, t) && OpFits(s.threads[t]) && SubOk(s, t)
    requires forall k | 0 <= k < |s.commits| :: LegalAt(s, k)
    ensures Atomic(s, s.threads[t], s.threads[t].pc.res)
  {
    match s.threads[t].pc.res
    case Moved(k) => assert LegalAt(s, k);
    case _ => hide LegalAt;
  }

  lemma ThreadFacts(s: System, t: nat)
    requires Whole(s) && t < |s.threads|
    ensures ThreadOk(s, t) && OpFits(s.threads[t])
  {
    hide T.Invariant, Echo;
    Look(s, t);
  }

  /** No two operations share a move of the history. */
  lemma DistinctMoves(s: System, t: nat, u: nat, k: nat)
    requires Reachable(s) && t < |s.threads| && u < |s.threads|
    requires CommitOf(s.threads[t].pc) == Some(k) && CommitOf(s.threads[u].pc) == Some(k)
    ensures t == u
  {
    ReachableWhole(s);
    hide T.Invariant, Echo;
    Look(s, t);
    Look(s, u);
  }

  /** Two successful TransitionIfCurrentState calls from `a` consume two occurrences of `a`. */
  lemma ConsumesItsOwn(s: System, t: nat, u: nat, j: nat, k: nat, a: string)
    requires Reachable(s) && t < |s.threads| && u < |s.threads| && t != u
    requires s.threads[t].pc == Done(Moved(j)) && s.threads[u].pc == Done(Moved(k))
    requires s.threads[t].op.TransitionIf? && s.threads[t].op.expected == a
    requires s.threads[u].op.TransitionIf? && s.threads[u].op.expected == a
    ensures j < |s.commits| && k < |s.commits| && j != k && State(s, j) == a && State(s, k) == a
  {
    hide Reachable;
    OperationsAtomic(s, t);
    OperationsAtomic(s, u);
    if j == k { DistinctMoves(s, t, u, k); }
  }

  /** And every move of the history is what some operation asked for. */
  lemma EveryMoveOwned(s: System, k: nat)
    requires Reachable(s) && k < |s.commits|
    ensures var t := s.commits[k].thread;
      && t < |s.threads| && CommitOf(s.threads[t].pc) == Some(k)
      && Moves(s.threads[t].op) && s.threads[t].op.to == State(s, k + 1)
  {
    ReachableWhole(s);
    hide T.Invariant, Echo;
    OwnerOf(s, k);
    Look(s, s.commits[k].thread);
    hide Locks, Story;
  }

  lemma OwnerOf(s: System, k: nat)
    requires Story(s) && k < |s.commits|
    ensures s.commits[k].thread < |s.threads| && CommitOf(s.threads[s.commits[k].thread].pc) == Some(k)
  {
  }

  // ---------- real time ----------

  /** What later states keep of earlier ones. */
  ghost predicate Later(s: System, s': System) {
    && s.commits <= s'.commits && s'.initial == s.initial && s'.table == s.table && s.base <= s'.base
    && |s.threads| <= |s'.threads|
    && (forall t | 0 <= t < |s.threads| && s.threads[t].pc.Done? :: s'.threads[t] == s.threads[t])
    && (forall t | |s.threads| <= t < |s'.threads| :: |s.commits| <= s'.threads[t].born)
    && (forall t | 0 <= t < |s.threads| ::
          s'.threads[t].op == s.threads[t].op && s'.threads[t].born == s.threads[t].born)
  }

  lemma StepLater(s: System, l: Label)
    requires Locks(s) && Enabled(s, l)
    ensures Later(s, Step(s, l))
  {
    match l
    case Living(f) => LifeLater(s, f);
    case Write(w) => WriteLater(s, w);
    case Regs(r) => RegLater(s, r);
    case Sub(b) => SubLater(s, b);
    case Mgr(m) =>
  }

  lemma LifeLater(s: System, l: Life)
    requires LifeEnabled(s, l)
    ensures Later(s, LifeStep(s, l))
  {
  }

  lemma WriteLater(s: System, l: Writing)
    requires WriteEnabled(s, l)
    ensures Later(s, WriteStep(s, l))
  {
    hide B.CastEnabled, B.CastStep;
  }

  lemma RegLater(s: System, l: Registering)
    requires Locks(s) && RegEnabled(s, l)
    ensures Later(s, RegStep(s, l))
  {
    PlaceNow(s, l.t);
    hide Locks, Apply, Register, RegisterError, Pick;
  }

  lemma PlaceNow(s: System, t: nat)
    requires Locks(s) && t < |s.threads|
    ensures RegFits(s.threads[t]) && OpFits(s.threads[t])
  {
  }

  lemma SubLater(s: System, l: Subscribing)
    requires SubEnabled(s, l)
    ensures Later(s, SubStep(s, l))
  {
    hide B.JoinEnabled, B.JoinStep, Enrolled;
  }

  lemma LaterTransitive(s: System, s1: System, s2: System)
    requires Later(s, s1) && Later(s1, s2)
    ensures Later(s, s2)
  {
  }

  lemma {:induction false} RunLater(s: System, ls: seq<Label>)
    requires Whole(s) && Run(s, ls)
    ensures Later(s, After(s, ls))
    decreases |ls|
  {
    if ls == [] {
    } else {
      StepWhole(s, ls[0]);
      StepLater(s, ls[0]);
      RunLater(Step(s, ls[0]), ls[1..]);
      LaterTransitive(s, Step(s, ls[0]), After(s, ls));
    }
  }

  /** The stretch of the history an operation occupies: what it saw first and what it left. */
  function Began(s: System, res: Result): int {
    match res
    case Moved(k) => k
    case Refused(_, k) => k
    case Saw(k) => k
    case Subscribed(i) => if i < |s.base| then s.base[i] else 0
    case _ => 0
  }

  function Ended(s: System, res: Result): int {
    if res.Moved? then res.at + 1 else Began(s, res)
  }

  predicate Placeable(res: Result) { res.Moved? || res.Refused? || res.Saw? || res.Subscribed? }

  lemma WithinCall(s: System, t: nat)
    requires Whole(s) && t < |s.threads| && s.threads[t].pc.Done? && Placeable(s.threads[t].pc.res)
    ensures s.threads[t].born <= Began(s, s.threads[t].pc.res) <= Ended(s, s.threads[t].pc.res) <= |s.commits|
    ensures s.threads[t].pc.res.Subscribed? ==> s.threads[t].pc.res.s < |s.base|
  {
    Look(s, t);
    CallerOf(s, t);
    hide T.Invariant, Locks, Story;
  }

  /** Linearizability: an operation that was called after another had returned comes after
      it in the history. */
  lemma RealTimeOrder(s: System, ls: seq<Label>, t: nat, u: nat)
    requires Reachable(s) && Run(s, ls)
    requires t < |s.threads| <= u < |After(s, ls).threads|
    requires s.threads[t].pc.Done? && Placeable(s.threads[t].pc.res)
    requires After(s, ls).threads[u].pc.Done? && Placeable(After(s, ls).threads[u].pc.res)
    ensures var s' := After(s, ls);
      && s'.threads[t] == s.threads[t]
      && Ended(s', s.threads[t].pc.res) <= Began(s', s'.threads[u].pc.res)
  {
    hide Reachable, Whole, Run, After;
    ReachableWhole(s);
    RunWhole(s, ls);
    RunLater(s, ls);
    var s' := After(s, ls);
    assert s.threads[t].pc.Done? ==> s'.threads[t] == s.threads[t];
    WithinCall(s, t);
    WithinCall(s', u);
    assert |s.commits| <= s'.threads[u].born;
    EndedStays(s, s', s.threads[t].pc.res);
  }

  lemma EndedStays(s: System, s': System, res: Result)
    requires s.base <= s'.base && (res.Subscribed? ==> res.s < |s.base|)
    ensures Ended(s', res) == Ended(s, res)
  {
  }
}
