/** What an observer who writes down the steps of one thread sees: which guards and actions
    were really called, in which order and to which end, against the hooks registered at the
    moment they were captured. The diary looks at the labels of a run, not at what the
    machine remembers. */
module SystemDiary {
  import opened Basics
  import opened RegistrySpec
  import opened RegistryLaws
  import opened SystemProtocol
  import opened SystemLocks
  import opened SystemHistory
  import opened SystemStream
  import opened SystemTheorems
  import B = BroadcastProtocol
  import T = BroadcastTheorems

  /** How many guards, stores and actions there had been by then. */
  datatype Mark = Mark(guards: nat, stores: nat, actions: nat)

  /** The registry as it was when hooks were captured, and for which move. */
  datatype Ask = Ask(hooks: Hooks, from: string, to: string, mark: Mark)

  datatype Call = Call(guard: HookEntry, passed: bool)

  datatype Stored = Stored(at: nat, mark: Mark)

  datatype Diary = Diary(
    asked: Option<Ask>, guards: seq<Call>, stores: seq<Stored>, ran: Option<Ask>, actions: seq<HookEntry>,
    canceled: bool, seen: Option<string>, wanted: seq<Edit>, edits: seq<Edit>)

  const BLANK := Diary(None, [], [], None, [], false, None, [], [])

  function Tally(d: Diary): Mark { Mark(|d.guards|, |d.stores|, |d.actions|) }

  /** Whose step it is. */
  function Actor(l: Label): Option<nat> {
    match l
    case Living(Read(t)) => Some(t)
    case Living(GiveUp(t)) => Some(t)
    case Write(w) => Some(w.t)
    case Regs(r) => Some(r.t)
    case Sub(b) => Some(b.t)
    case _ => None
  }

  /** What the observer of thread `t` adds to the diary at one step. */
  function Note(s: System, l: Label, t: nat, d: Diary): Diary
    requires Enabled(s, l)
  {
    match l
    case Living(Spawn(op)) => if |s.threads| == t && op.EditHooks? then d.(wanted := [op.edit]) else d
    case Living(Read(u)) => if u == t then d.(seen := Some(Current(s))) else d
    case Living(GiveUp(u)) => if u == t then d.(canceled := true) else d
    case Write(w) => if w.t == t then NoteWrite(s, w, d) else d
    case Regs(Work(u)) => if u == t then NoteWork(s, u, d) else d
    case _ => d
  }

  function NoteWrite(s: System, w: Writing, d: Diary): Diary
    requires WriteEnabled(s, w)
  {
    match w
    case Check(t, canceled) => d.(canceled := canceled)
    case Guard(t, passes) => d.(guards := d.guards + [Call(s.threads[t].pc.rest[0], passes)])
    case HookEdit(t, e) => d.(wanted := d.wanted + [e])
    case Store(t) => d.(stores := d.stores + [Stored(|s.commits|, Tally(d))])
    case Act(t) => d.(actions := d.actions + [s.threads[t].pc.rest[0]])
    case CastLock(t) => d.(actions := d.actions + [s.threads[t].pc.rest[0]])
    case _ => d
  }

  function NoteWork(s: System, t: nat, d: Diary): Diary
    requires RegEnabled(s, Work(t))
  {
    match s.threads[t].reg.act
    case Change(e) => d.(edits := d.edits + [e])
    case AddHook => d
    case Snapshot =>
      match s.threads[t].pc
      case SnapGuards(from, to) => d.(asked := Some(Ask(s.hooks, from, to, Tally(d))))
      case SnapActions(at) => d.(ran := Some(Ask(s.hooks, s.commits[at].from, s.commits[at].to, Tally(d))))
      case _ => d
  }

  ghost function Observed(s: System, ls: seq<Label>, t: nat, d: Diary): Diary
    requires Run(s, ls)
    decreases |ls|
  {
    if ls == [] then d else Observed(Step(s, ls[0]), ls[1..], t, Note(s, ls[0], t, d))
  }

  // ---------- what the diary says at each point of the code ----------

  function Called(cs: seq<Call>): seq<HookEntry> { seq(|cs|, i requires 0 <= i < |cs| => cs[i].guard) }

  predicate AllPassed(cs: seq<Call>) { forall i :: 0 <= i < |cs| ==> cs[i].passed }

  predicate NoGuards(d: Diary) { d.asked == None && d.guards == [] }

  predicate NoActions(d: Diary) { d.ran == None && d.actions == [] }

  function Chosen(a: Ask, t: HookType): seq<HookEntry> { Pick(a.hooks.log, Running(t, a.from, a.to)) }

  /** Captured for this move; all called so far passed, and `rest` is still to come. */
  ghost predicate Passing(d: Diary, from: string, to: string, rest: seq<HookEntry>) {
    && d.asked.Some? && d.asked.value.from == from && d.asked.value.to == to && Consistent(d.asked.value.hooks)
    && d.asked.value.mark == Mark(0, 0, 0)
    && AllPassed(d.guards) && Called(d.guards) + rest == Chosen(d.asked.value, Pre)
  }

  /** Commit `at` was stored after all its guards had passed, or was forced without any. */
  ghost predicate Cleared(s: System, d: Diary, at: nat) {
    && at < |s.commits| && d.stores == [Stored(at, Mark(|d.guards|, 0, 0))]
    && if s.commits[at].forced then NoGuards(d) else Passing(d, s.commits[at].from, s.commits[at].to, [])
  }

  ghost predicate Acting(s: System, d: Diary, at: nat, rest: seq<HookEntry>) {
    && at < |s.commits| && d.ran.Some? && Consistent(d.ran.value.hooks)
    && d.ran.value.from == s.commits[at].from && d.ran.value.to == s.commits[at].to
    && d.ran.value.mark == Mark(|d.guards|, 1, 0)
    && d.actions + rest == Chosen(d.ran.value, Post)
  }

  /** All passed but the last, which did not. */
  ghost predicate Stopped(s: System, d: Diary, to: string, k: nat) {
    && k <= |s.commits| && d.asked.Some? && Consistent(d.asked.value.hooks) && d.asked.value.mark == Mark(0, 0, 0)
    && d.asked.value.from == State(s, k) && d.asked.value.to == to
    && d.guards != [] && AllPassed(d.guards[..|d.guards| - 1]) && !d.guards[|d.guards| - 1].passed
    && Called(d.guards) <= Chosen(d.asked.value, Pre)
  }

  ghost predicate EndOk(s: System, th: Thread, d: Diary, res: Result) {
    match res
    case Moved(at) => Cleared(s, d, at) && Acting(s, d, at, []) && !d.canceled
    case Refused(why, k) =>
      && NoActions(d) && d.stores == [] && (why == Canceled ==> d.canceled)
      && (d.canceled ==> why == Canceled || why == Mismatch)
      && if why == GuardFailed then Moves(th.op) && Stopped(s, d, th.op.to, k) else NoGuards(d)
    case Saw(k) =>
      && NoGuards(d) && NoActions(d) && d.stores == [] && !d.canceled
      && k <= |s.commits| && d.seen == Some(State(s, k))
    case _ => NoGuards(d) && NoActions(d) && d.stores == [] && !d.canceled
  }

  ghost predicate PcOk(s: System, th: Thread, d: Diary) {
    match th.pc
    case Guards(from, to, rest, forced) =>
      && NoActions(d) && d.stores == [] && !d.canceled && if forced then NoGuards(d) else Passing(d, from, to, rest)
    case SnapActions(at) => NoActions(d) && !d.canceled && Cleared(s, d, at)
    case Actions(at, rest) => Cleared(s, d, at) && !d.canceled && Acting(s, d, at, rest)
    case InCast(at, rest) => Cleared(s, d, at) && !d.canceled && Acting(s, d, at, rest)
    case Exiting(res) => EndOk(s, th, d, res)
    case Done(res) => EndOk(s, th, d, res)
    case _ => NoGuards(d) && NoActions(d) && d.stores == [] && !d.canceled
  }

  /** Every edit asked for was made, or is being made. */
  predicate EditsOk(th: Thread, d: Diary) {
    d.wanted == if th.reg != Idle && th.reg.act.Change? then d.edits + [th.reg.act.edit] else d.edits
  }

  ghost predicate DiaryOk(s: System, t: nat, d: Diary) {
    if t < |s.threads| then PcOk(s, s.threads[t], d) && EditsOk(s.threads[t], d) else d == BLANK
  }

  // ---------- every step keeps it ----------

  /** Somebody else's step: longer histories say the same of old moves. */
  lemma OthersStep(s: System, s': System, t: nat, d: Diary)
    requires t < |s.threads| && t < |s'.threads| && s'.threads[t] == s.threads[t] && DiaryOk(s, t, d)
    requires s.commits <= s'.commits && s'.initial == s.initial
    ensures DiaryOk(s', t, d)
  {
    assert forall k | 0 <= k <= |s.commits| :: State(s', k) == State(s, k);
    hide Consistent, Chosen, AllPassed, Called;
  }

  lemma StepDiary(s: System, l: Label, t: nat, d: Diary)
    requires Whole(s) && Enabled(s, l) && DiaryOk(s, t, d)
    ensures DiaryOk(Step(s, l), t, Note(s, l, t, d))
  {
    hide Whole, DiaryOk;
    if Actor(l) == Some(t) {
      OwnDiary(s, l, t, d);
    } else if l.Living? && l.f.Spawn? && t == |s.threads| {
      SpawnDiary(s, l.f.op, d);
    } else {
      OtherDiary(s, l, t, d);
    }
  }

  lemma SpawnDiary(s: System, op: Op, d: Diary)
    requires LifeEnabled(s, Spawn(op)) && DiaryOk(s, |s.threads|, d)
    ensures DiaryOk(LifeStep(s, Spawn(op)), |s.threads|, Note(s, Living(Spawn(op)), |s.threads|, d))
  {
  }

  lemma OtherDiary(s: System, l: Label, t: nat, d: Diary)
    requires Enabled(s, l) && DiaryOk(s, t, d) && Actor(l) != Some(t) && !(l.Living? && l.f.Spawn? && t == |s.threads|)
    ensures DiaryOk(Step(s, l), t, Note(s, l, t, d))
  {
    OtherThreads(s, l, t);
    hide Step, Enabled;
    if t < |s.threads| {
      OthersStep(s, Step(s, l), t, d);
    }
  }

  lemma OtherThreads(s: System, l: Label, t: nat)
    requires Enabled(s, l) && Actor(l) != Some(t) && !(l.Living? && l.f.Spawn? && t == |s.threads|)
    ensures var s' := Step(s, l);
      && s.commits <= s'.commits && s'.initial == s.initial && |s.threads| <= |s'.threads|
      && (t < |s.threads| ==> s'.threads[t] == s.threads[t]) && (t >= |s.threads| ==> t >= |s'.threads|)
  {
    hide WriteStep, RegStep, SubStep, WriteEnabled, RegEnabled, SubEnabled, B.Step, B.Enabled;
    match l
    case Living(f) =>
    case Write(w) => WriteThreads(s, w, t);
    case Regs(r) => RegThreads(s, r, t);
    case Sub(b) => SubThreads(s, b, t);
    case Mgr(m) =>
  }

  lemma WriteThreads(s: System, l: Writing, t: nat)
    requires WriteEnabled(s, l) && l.t != t
    ensures var s' := WriteStep(s, l);
      && s.commits <= s'.commits && s'.initial == s.initial && |s'.threads| == |s.threads|
      && (t < |s.threads| ==> s'.threads[t] == s.threads[t])
  {
    hide B.CastEnabled, B.CastStep;
  }

  lemma RegThreads(s: System, l: Registering, t: nat)
    requires RegEnabled(s, l) && l.t != t
    ensures var s' := RegStep(s, l);
      && s.commits <= s'.commits && s'.initial == s.initial && |s'.threads| == |s.threads|
      && (t < |s.threads| ==> s'.threads[t] == s.threads[t])
  {
    hide Apply, Register, RegisterError, Pick;
  }

  lemma SubThreads(s: System, l: Subscribing, t: nat)
    requires SubEnabled(s, l) && l.t != t
    ensures var s' := SubStep(s, l);
      && s.commits <= s'.commits && s'.initial == s.initial && |s'.threads| == |s.threads|
      && (t < |s.threads| ==> s'.threads[t] == s.threads[t])
  {
    hide B.JoinEnabled, B.JoinStep, Enrolled;
  }

  lemma OwnDiary(s: System, l: Label, t: nat, d: Diary)
    requires Whole(s) && Enabled(s, l) && DiaryOk(s, t, d) && Actor(l) == Some(t)
    ensures DiaryOk(Step(s, l), t, Note(s, l, t, d))
  {
    hide Whole, DiaryOk;
    match l
    case Living(f) => LifeDiary(s, f, d);
    case Write(w) => WriteDiary(s, w, d);
    case Regs(r) => RegDiary(s, r, d);
    case Sub(b) => SubDiary(s, b, d);
  }

  lemma LifeDiary(s: System, l: Life, d: Diary)
    requires LifeEnabled(s, l) && !l.Spawn? && DiaryOk(s, l.t, d)
    ensures DiaryOk(LifeStep(s, l), l.t, Note(s, Living(l), l.t, d))
  {
  }

  /** The invariant's facts about one thread. */
  lemma Facts(s: System, t: nat)
    requires Whole(s) && t < |s.threads|
    ensures ThreadOk(s, t) && RegFits(s.threads[t]) && OpFits(s.threads[t]) && Consistent(s.hooks)
  {
    hide T.Invariant;
    Look(s, t);
    hide Locks, Story;
  }

  lemma WriteDiary(s: System, l: Writing, d: Diary)
    requires Whole(s) && WriteEnabled(s, l) && DiaryOk(s, l.t, d)
    ensures DiaryOk(WriteStep(s, l), l.t, NoteWrite(s, l, d))
  {
    Facts(s, l.t);
    hide Whole;
    if l.Store? { StoreDiary(s, l.t, d); }
    else if l.Guard? { GuardDiary(s, l.t, l.passes, d); }
    else if l.Act? || l.CastLock? { ActDiary(s, l, d); }
    else { PlainDiary(s, l, d); }
  }

  lemma PlainDiary(s: System, l: Writing, d: Diary)
    requires WriteEnabled(s, l) && !l.Store? && !l.Guard? && !l.Act? && !l.CastLock? && DiaryOk(s, l.t, d)
    requires RegFits(s.threads[l.t]) && OpFits(s.threads[l.t])
    ensures DiaryOk(WriteStep(s, l), l.t, NoteWrite(s, l, d))
  {
    hide Consistent, Chosen, AllPassed, Called;
  }

  lemma StoreDiary(s: System, t: nat, d: Diary)
    requires WriteEnabled(s, Store(t)) && DiaryOk(s, t, d)
    ensures DiaryOk(WriteStep(s, Store(t)), t, NoteWrite(s, Store(t), d))
  {
    hide Consistent, Chosen, AllPassed, Called;
  }

  lemma GuardDiary(s: System, t: nat, passes: bool, d: Diary)
    requires WriteEnabled(s, Guard(t, passes)) && DiaryOk(s, t, d) && ThreadOk(s, t) && OpFits(s.threads[t])
    ensures DiaryOk(WriteStep(s, Guard(t, passes)), t, NoteWrite(s, Guard(t, passes), d))
  {
    var pc := s.threads[t].pc;
    CalledNext(d.guards, Call(pc.rest[0], passes), pc.rest);
    hide Consistent, Chosen;
  }

  lemma CalledNext(cs: seq<Call>, c: Call, rest: seq<HookEntry>)
    requires rest != [] && rest[0] == c.guard
    ensures Called(cs + [c]) + rest[1..] == Called(cs) + rest
    ensures Called(cs + [c]) <= Called(cs) + rest && (cs + [c])[..|cs|] == cs
    ensures AllPassed(cs) && c.passed ==> AllPassed(cs + [c])
  {
    assert rest == [rest[0]] + rest[1..];
    assert Called(cs + [c]) == Called(cs) + [c.guard];
  }

  lemma ActDiary(s: System, l: Writing, d: Diary)
    requires WriteEnabled(s, l) && (l.Act? || l.CastLock?) && DiaryOk(s, l.t, d)
    ensures DiaryOk(WriteStep(s, l), l.t, NoteWrite(s, l, d))
  {
    var rest := s.threads[l.t].pc.rest;
    assert d.actions + [rest[0]] + rest[1..] == d.actions + rest;
    hide Consistent, Chosen, AllPassed, Called;
  }

  lemma RegDiary(s: System, l: Registering, d: Diary)
    requires Whole(s) && RegEnabled(s, l) && DiaryOk(s, l.t, d)
    ensures DiaryOk(RegStep(s, l), l.t, Note(s, Regs(l), l.t, d))
  {
    hide Whole, ThreadOk, DiaryOk, RegStep, OpFits, RegFits;
    Facts(s, l.t);
    if l.Work? && s.threads[l.t].reg.act.Snapshot? { SnapDiary(s, l.t, d); } else { UseDiary(s, l, d); }
  }

  lemma SnapDiary(s: System, t: nat, d: Diary)
    requires RegEnabled(s, Work(t)) && DiaryOk(s, t, d) && s.threads[t].reg.act == Snapshot
    requires RegFits(s.threads[t]) && OpFits(s.threads[t]) && Consistent(s.hooks)
    ensures DiaryOk(RegStep(s, Work(t)), t, NoteWork(s, t, d))
  {
    hide Consistent, Pick;
  }

  lemma UseDiary(s: System, l: Registering, d: Diary)
    requires RegEnabled(s, l) && DiaryOk(s, l.t, d) && !(l.Work? && s.threads[l.t].reg.act == Snapshot)
    requires RegFits(s.threads[l.t]) && OpFits(s.threads[l.t])
    ensures DiaryOk(RegStep(s, l), l.t, Note(s, Regs(l), l.t, d))
  {
    hide Consistent, Chosen, AllPassed, Called, Apply, Register, RegisterError;
  }

  lemma SubDiary(s: System, l: Subscribing, d: Diary)
    requires Whole(s) && SubEnabled(s, l) && DiaryOk(s, l.t, d)
    ensures DiaryOk(SubStep(s, l), l.t, d)
  {
    assert OpFits(s.threads[l.t]) by { Facts(s, l.t); }
    PlaceDiary(s, l, d);
  }

  lemma PlaceDiary(s: System, l: Subscribing, d: Diary)
    requires SubEnabled(s, l) && DiaryOk(s, l.t, d) && OpFits(s.threads[l.t])
    ensures DiaryOk(SubStep(s, l), l.t, d)
  {
    hide B.JoinEnabled, B.JoinStep, Enrolled, State, Cleared, Acting, Stopped;
  }

  lemma {:induction false} RunDiary(s: System, ls: seq<Label>, t: nat, d: Diary)
    requires Whole(s) && Run(s, ls) && DiaryOk(s, t, d)
    ensures DiaryOk(After(s, ls), t, Observed(s, ls, t, d))
    decreases |ls|
  {
    if ls != [] {
      hide Whole, DiaryOk, Step, Enabled, Note;
      StepWhole(s, ls[0]);
      StepDiary(s, ls[0], t, d);
      RunDiary(Step(s, ls[0]), ls[1..], t, Note(s, ls[0], t, d));
    }
  }

  // ---------- what a finished call really did ----------

  /** The guards of a move, up to and including the first that failed. */
  ghost predicate Halted(d: Diary, from: string, to: string) {
    && d.asked.Some? && d.asked.value.from == from && d.asked.value.to == to && d.asked.value.mark == Mark(0, 0, 0)
    && d.guards != []
    && AllPassed(d.guards[..|d.guards| - 1]) && !d.guards[|d.guards| - 1].passed
    && exists sel :: ByName(d.asked.value.hooks, Pre, from, to, sel) && Called(d.guards) <= sel
  }

  /** No hook was called, no state stored and no context cancelled. */
  predicate Unused(d: Diary) {
    d.asked == None && d.guards == [] && d.stores == [] && d.ran == None && d.actions == [] && !d.canceled
  }

  /** A move is one store. Before it, and after their capture, exactly the guards then
      registered for the move had been called, in order, and all had passed (none for a
      forced move); after it, and after their capture, exactly the actions then registered for
      it were called, in order. A refused call stored nothing, ran no action, and no guard
      unless one failed. A read saw the state current at its step. */
  ghost predicate Account(s: System, th: Thread, d: Diary, res: Result) {
    match res
    case Moved(k) =>
      && k < |s.commits| && !d.canceled && d.stores == [Stored(k, Mark(|d.guards|, 0, 0))]
      && d.ran.Some? && d.ran.value.mark == Mark(|d.guards|, 1, 0)
      && ByName(d.ran.value.hooks, Post, State(s, k), State(s, k + 1), d.actions)
      && if th.op.SetState? then d.asked == None && d.guards == []
         else
           && d.asked.Some? && d.asked.value.mark == Mark(0, 0, 0) && AllPassed(d.guards)
           && ByName(d.asked.value.hooks, Pre, State(s, k), State(s, k + 1), Called(d.guards))
    case Refused(why, k) =>
      && k <= |s.commits| && Moves(th.op) && d.stores == [] && d.ran == None && d.actions == []
      && (why == Canceled ==> d.canceled) && (d.canceled ==> why == Canceled || why == Mismatch)
      && if why == GuardFailed then Halted(d, State(s, k), th.op.to) else d.asked == None && d.guards == []
    case Saw(k) => Unused(d) && k <= |s.commits| && d.seen == Some(State(s, k))
    case _ => Unused(d)
  }

  lemma DoneAccount(s: System, t: nat, d: Diary)
    requires Whole(s) && t < |s.threads| && s.threads[t].pc.Done? && DiaryOk(s, t, d)
    ensures Account(s, s.threads[t], d, s.threads[t].pc.res)
  {
    Facts(s, t);
    match s.threads[t].pc.res
    case Moved(k) => MovedFrom(s, k); hide Whole; MovedAccount(s, t, k, d);
    case Refused(why, k) => hide Whole; if why == GuardFailed { StoppedAccount(s, t, k, d); }
    case _ => hide Whole;
  }

  lemma MovedFrom(s: System, k: nat)
    requires Whole(s) && k < |s.commits|
    ensures s.commits[k].from == State(s, k)
  {
    hide T.Invariant, Locks, Echo;
    assert LegalAt(s, k);
  }

  lemma MovedAccount(s: System, t: nat, k: nat, d: Diary)
    requires t < |s.threads| && s.threads[t].pc == Done(Moved(k)) && DiaryOk(s, t, d) && ThreadOk(s, t)
    requires k < |s.commits| && s.commits[k].from == State(s, k)
    ensures Account(s, s.threads[t], d, Moved(k))
  {
    var from, to := State(s, k), State(s, k + 1);
    SelectionMeaning(d.ran.value.hooks, Post, from, to);
    assert d.actions + [] == d.actions && Called(d.guards) + [] == Called(d.guards);
    if !s.commits[k].forced { SelectionMeaning(d.asked.value.hooks, Pre, from, to); }
    hide Consistent, ByName, AllPassed, Called, Pick;
  }

  lemma StoppedAccount(s: System, t: nat, k: nat, d: Diary)
    requires t < |s.threads| && s.threads[t].pc == Done(Refused(GuardFailed, k)) && DiaryOk(s, t, d) && ThreadOk(s, t)
    ensures Account(s, s.threads[t], d, Refused(GuardFailed, k))
  {
    SelectionMeaning(d.asked.value.hooks, Pre, State(s, k), s.threads[t].op.to);
    hide Consistent, ByName, AllPassed, Called, Pick;
  }

  /** Over every run, what a thread's finished call reports is what its steps did. */
  lemma CallsExactly(s0: System, ls: seq<Label>, t: nat)
    requires Init(s0) && Run(s0, ls) && t < |After(s0, ls).threads| && After(s0, ls).threads[t].pc.Done?
    ensures var s := After(s0, ls);
      Account(s, s.threads[t], Observed(s0, ls, t, BLANK), s.threads[t].pc.res)
  {
    InitWhole(s0);
    RunWhole(s0, ls);
    RunDiary(s0, ls, t, BLANK);
    hide Whole, DiaryOk, Account;
    DoneAccount(After(s0, ls), t, Observed(s0, ls, t, BLANK));
  }

  /** A call reports a failed guard exactly if one failed. */
  lemma GuardFailedExactly(s0: System, ls: seq<Label>, t: nat)
    requires Init(s0) && Run(s0, ls) && t < |After(s0, ls).threads| && After(s0, ls).threads[t].pc.Done?
    ensures var res := After(s0, ls).threads[t].pc.res;
      (res.Refused? && res.why == GuardFailed) <==> exists c :: c in Observed(s0, ls, t, BLANK).guards && !c.passed
  {
    CallsExactly(s0, ls, t);
    var d := Observed(s0, ls, t, BLANK);
    hide Observed, ByName, Run, After;
    if d.guards != [] { assert d.guards[|d.guards| - 1] in d.guards; }
  }

  // ---------- edits ----------

  /** The edits a thread asked for, itself or from inside its hooks, have all been made, each
      once and in order, when it returns. */
  lemma EditsMade(s0: System, ls: seq<Label>, t: nat)
    requires Init(s0) && Run(s0, ls) && t < |After(s0, ls).threads| && After(s0, ls).threads[t].pc.Done?
    ensures var d := Observed(s0, ls, t, BLANK); d.edits == d.wanted
    ensures After(s0, ls).threads[t].op.EditHooks? ==>
      Observed(s0, ls, t, BLANK).wanted == [After(s0, ls).threads[t].op.edit]
  {
    InitWhole(s0);
    RunWhole(s0, ls);
    RunDiary(s0, ls, t, BLANK);
    Facts(After(s0, ls), t);
    hide Whole, Init;
    RunAsked(s0, ls, t, BLANK);
    hide Observed, Run, After;
  }

  /** A thread that edits the registry asks for its one edit; others only from their hooks. */
  ghost predicate Asking(s: System, t: nat, d: Diary) {
    t < |s.threads| && s.threads[t].op.EditHooks? ==> d.wanted == [s.threads[t].op.edit]
  }

  lemma StepAsked(s: System, l: Label, t: nat, d: Diary)
    requires Whole(s) && Enabled(s, l) && Asking(s, t, d) && DiaryOk(s, t, d)
    ensures Asking(Step(s, l), t, Note(s, l, t, d))
  {
    hide Whole, ThreadOk, PcOk, RegFits;
    if l.Living? && l.f.Spawn? && t == |s.threads| {
    } else {
      ThreadOps(s, l, t);
      if l.Write? && l.w.HookEdit? { Facts(s, l.w.t); }
      hide Step, DiaryOk, NoteWork;
    }
  }

  lemma ThreadOps(s: System, l: Label, t: nat)
    requires Enabled(s, l) && !(l.Living? && l.f.Spawn? && t == |s.threads|)
    ensures (t < |s.threads|) == (t < |Step(s, l).threads|)
    ensures t < |s.threads| ==> Step(s, l).threads[t].op == s.threads[t].op
  {
    if Actor(l) == Some(t) {
      OpKept(s, l);
    } else {
      OtherThreads(s, l, t);
      hide Step;
    }
  }

  lemma OpKept(s: System, l: Label)
    requires Enabled(s, l) && Actor(l).Some?
    ensures var t := Actor(l).value;
      t < |s.threads| && t < |Step(s, l).threads| && Step(s, l).threads[t].op == s.threads[t].op
  {
    hide B.CastEnabled, B.CastStep, B.JoinEnabled, B.JoinStep, Enrolled, Apply, Register, RegisterError, Pick;
  }

  lemma {:induction false} RunAsked(s: System, ls: seq<Label>, t: nat, d: Diary)
    requires Whole(s) && Run(s, ls) && Asking(s, t, d) && DiaryOk(s, t, d)
    ensures Asking(After(s, ls), t, Observed(s, ls, t, d))
    decreases |ls|
  {
    if ls != [] {
      hide Whole, DiaryOk, Step, Enabled, Note, Asking;
      StepWhole(s, ls[0]);
      StepDiary(s, ls[0], t, d);
      StepAsked(s, ls[0], t, d);
      RunAsked(Step(s, ls[0]), ls[1..], t, Note(s, ls[0], t, d));
    }
  }

  /** The edits of a run, in the order in which their threads held the registry's lock. */
  ghost function EditsOf(s: System, ls: seq<Label>): seq<Edit>
    requires Run(s, ls)
    decreases |ls|
  {
    if ls == [] then [] else EditOf(s, ls[0]) + EditsOf(Step(s, ls[0]), ls[1..])
  }

  function EditOf(s: System, l: Label): seq<Edit>
    requires Enabled(s, l)
  {
    match l
    case Regs(Work(t)) =>
      (match s.threads[t].reg.act
       case Change(e) => [e]
       case AddHook => [DoRegister(CAST_HOOK)]
       case Snapshot => [])
    case _ => []
  }

  /** The registry is what those edits, one at a time, made of it. */
  lemma {:induction false} RegistryOverRun(s: System, ls: seq<Label>)
    requires Run(s, ls)
    ensures After(s, ls).hooks == ApplyAll(s.hooks, EditsOf(s, ls))
    decreases |ls|
  {
    if ls != [] {
      StepEdits(s, ls[0]);
      RegistryOverRun(Step(s, ls[0]), ls[1..]);
      hide Step, Enabled, EditOf, Apply;
      ApplyAllAppend(s.hooks, EditOf(s, ls[0]), EditsOf(Step(s, ls[0]), ls[1..]));
    }
  }

  lemma StepEdits(s: System, l: Label)
    requires Enabled(s, l)
    ensures Step(s, l).hooks == ApplyAll(s.hooks, EditOf(s, l))
  {
    hide B.CastEnabled, B.CastStep, B.JoinEnabled, B.JoinStep, Enrolled, Register, RegisterError, Pick;
    if l.Regs? && l.r.Work? { WorkEdits(s, l.r.t); }
  }

  lemma WorkEdits(s: System, t: nat)
    requires RegEnabled(s, Work(t))
    ensures RegStep(s, Work(t)).hooks == ApplyAll(s.hooks, EditOf(s, Regs(Work(t))))
  {
    ApplyOne(s.hooks);
    hide Register, RegisterError, Pick;
  }

  lemma ApplyOne(h: Hooks)
    ensures forall e :: ApplyAll(h, [e]) == Apply(h, e)
  {
    forall e ensures ApplyAll(h, [e]) == Apply(h, e) { assert [e][1..] == []; }
  }
}
