/** What the machine broadcasts: while the write lock is free the broadcast log is the tail
    of the history, and each subscription knows where its own tail begins. */
module SystemStream {
  import opened Basics
  import opened RegistrySpec
  import opened SystemProtocol
  import opened SystemLocks
  import B = BroadcastProtocol

  // ---------- the broadcast hook in the registry ----------

  predicate On(s: System) { s.once == Ran(true) }

  predicate CastEntry(e: HookEntry) {
    IsCast(e) && e.fromStates == [WILDCARD] && e.toStates == [WILDCARD] && e.hookType == Post
  }

  /** Once set up, the broadcast hook is registered exactly once; before, not at all. */
  ghost predicate HookedUp(h: Hooks, on: bool) {
    && Consistent(h)
    && if on then
         && CAST_NAME in h.byName && CastEntry(h.byName[CAST_NAME])
         && forall e | e in h.log && IsCast(e) :: e == h.byName[CAST_NAME]
       else
         CAST_NAME !in h.byName && forall e | e in h.log :: !IsCast(e)
  }

  ghost predicate HooksOk(s: System) { HookedUp(s.hooks, On(s)) && SetUpOk(s) }

  /** The set-up fails exactly for a registry that was given no table. */
  predicate SetUpOk(s: System) { s.once.Ran? ==> (s.once.ok <==> s.hooks.states.Some?) }

  lemma EditKeepsCast(h: Hooks, e: Edit, on: bool)
    requires HookedUp(h, on) && KeepsCast(e)
    ensures HookedUp(Apply(h, e), on) && Apply(h, e).states == h.states
  {
    EditConsistent(h, e);
    hide Consistent;
    if e.DoRemove? && e.name in h.byName { WithoutMembers(h.log, h.byName[e.name]); }
    if e.DoRegister? { RegisterEntries(h, e.cfg); }
  }

  lemma RegisterEntries(h: Hooks, cfg: HookConfig)
    requires cfg.callback != Some(CAST) && cfg.name != CAST_NAME
    ensures forall e | e in Register(h, cfg).log && IsCast(e) :: e in h.log
    ensures CAST_NAME in Register(h, cfg).byName <==> CAST_NAME in h.byName
    ensures CAST_NAME in h.byName ==> Register(h, cfg).byName[CAST_NAME] == h.byName[CAST_NAME]
  {
  }

  lemma AddKeepsCast(h: Hooks)
    requires HookedUp(h, false)
    ensures HookedUp(Register(h, CAST_HOOK), RegisterError(h, CAST_HOOK).None?)
    ensures Register(h, CAST_HOOK).states == h.states
    ensures RegisterError(h, CAST_HOOK).None? <==> h.states.Some?
  {
    RegisterConsistent(h, CAST_HOOK);
    hide Consistent;
  }

  function Casts(xs: seq<HookEntry>): nat {
    if xs == [] then 0 else (if IsCast(xs[0]) then 1 else 0) + Casts(xs[1..])
  }

  lemma {:induction false} CastsNone(xs: seq<HookEntry>)
    requires forall i :: 0 <= i < |xs| ==> !IsCast(xs[i])
    ensures Casts(xs) == 0
  {
    if xs != [] { CastsNone(xs[1..]); }
  }

  lemma {:induction false} CastsOnce(xs: seq<HookEntry>, k: nat)
    requires k < |xs| && IsCast(xs[k]) && forall i :: 0 <= i < |xs| && i != k ==> !IsCast(xs[i])
    ensures Casts(xs) == 1
  {
    if k == 0 { CastsNone(xs[1..]); } else { CastsOnce(xs[1..], k - 1); }
  }

  /** Every captured action list holds the broadcast hook exactly once, or not at all. */
  lemma SelectionCasts(h: Hooks, on: bool, from: string, to: string)
    requires HookedUp(h, on)
    ensures Casts(Pick(h.log, Running(Post, from, to))) == if on then 1 else 0
  {
    var q := Running(Post, from, to);
    var sel := Pick(h.log, q);
    PickMembers(h.log, q);
    PickInOrder(h.log, q);
    if on {
      var e := h.byName[CAST_NAME];
      assert e in h.log && Wants(q, e);
      var k :| 0 <= k < |sel| && sel[k] == e;
      forall i | 0 <= i < |sel| && i != k ensures !IsCast(sel[i]) {
        assert sel[i] in sel;
        assert i < k ==> sel[i].registrationSeq < sel[k].registrationSeq;
        assert k < i ==> sel[k].registrationSeq < sel[i].registrationSeq;
      }
      CastsOnce(sel, k);
    } else {
      forall i | 0 <= i < |sel| ensures !IsCast(sel[i]) { assert sel[i] in sel; }
      CastsNone(sel);
    }
  }

  // ---------- the log is the tail of the history ----------

  /** Stores whose broadcast is still to come. */
  function Behind(pc: Pc): nat {
    match pc
    case SnapActions(_) => 1
    case Actions(_, rest) => Casts(rest)
    case InCast(_, rest) => Casts(rest)
    case _ => 0
  }

  function Lag(s: System): nat {
    if s.writer.Some? && s.writer.value < |s.threads| then Behind(s.threads[s.writer.value].pc) else 0
  }

  /** How many operations succeeded before the first one that was broadcast. */
  function Skipped(s: System): int { |s.commits| - Lag(s) - |s.mgr.log| }

  predicate Tidy(on: bool, pc: Pc) {
    match pc
    case Actions(_, rest) => Casts(rest) == 0 || (Casts(rest) == 1 && on)
    case InCast(_, rest) => Casts(rest) == 0 && on
    case AwaitRead => on
    case _ => ReaderPc(pc) ==> on
  }

  ghost predicate LogTail(s: System) {
    && (On(s) || s.mgr.log == []) && 0 <= Skipped(s)
    && forall k | 0 <= k < |s.mgr.log| :: s.mgr.log[k] == s.commits[Skipped(s) + k].to
  }

  /** Each subscription was stored when `base` operations had succeeded and `storedAt`
      broadcasts had begun: the same point of the history. */
  ghost predicate Bases(s: System) {
    && |s.base| == |s.mgr.subs| && (s.mgr.subs != [] ==> On(s))
    && forall i | 0 <= i < |s.base| :: s.mgr.subs[i].stored && s.base[i] == Skipped(s) + s.mgr.subs[i].storedAt
  }

  // ---------- greetings ----------

  function SubOf(pc: Pc): Option<nat> {
    match pc
    case Registered(i) => Some(i)
    case Greeting(i) => Some(i)
    case ReadExit(Subscribed(i)) => Some(i)
    case Done(Subscribed(i)) => Some(i)
    case ReadExit(NotSubscribed(own)) => own
    case Done(NotSubscribed(own)) => own
    case _ => None
  }

  /** Until it is greeted, a subscription has been sent nothing and the history has not
      moved since it was stored; its greeting is the state at that point. */
  ghost predicate Greeted(s: System, t: nat)
    requires t < |s.threads|
  {
    var th := s.threads[t];
    SubOf(th.pc).Some? ==>
      var i := SubOf(th.pc).value;
      && i < |s.mgr.subs| && i < |s.base| && th.op == Subscribe(s.mgr.subs[i].ch) && s.mgr.subs[i].external
      && (th.pc.Registered? <==> !s.mgr.subs[i].armed)
      && th.born <= s.base[i] <= |s.commits| && s.mgr.subs[i].mode == s.delivery
      && if th.pc.Registered? || th.pc.Greeting? then
           && s.base[i] == |s.commits| && s.mgr.subs[i].storedAt == |s.mgr.log|
           && s.mgr.subs[i].first == [] && s.mgr.subs[i].sent == []
         else if th.pc.res.NotSubscribed? then s.mgr.subs[i].first == [] && s.mgr.subs[i].cancelled
         else s.mgr.subs[i].first == [State(s, s.base[i])]
  }

  ghost predicate Greetings(s: System) {
    && (forall t | 0 <= t < |s.threads| :: Greeted(s, t))
    && (forall t, u | 0 <= t < u < |s.threads| && SubOf(s.threads[t].pc).Some? ::
          SubOf(s.threads[t].pc) != SubOf(s.threads[u].pc))
  }

  /** The channel of a Subscribe call in progress is the caller's, and open. */
  ghost predicate Callers(s: System) {
    forall t | 0 <= t < |s.threads| && s.threads[t].op.Subscribe? && !s.threads[t].pc.Done? ::
      var c := s.threads[t].op.channel;
      c < |s.mgr.chans| && !s.mgr.chans[c].owned && s.mgr.chans[c].closed == B.Open
  }

  ghost predicate AllTidy(s: System) {
    forall t | 0 <= t < |s.threads| :: Tidy(On(s), s.threads[t].pc)
  }

  ghost predicate Echo(s: System) {
    HooksOk(s) && LogTail(s) && Bases(s) && AllTidy(s) && Greetings(s) && Callers(s)
  }

  // ---------- frames ----------

  lemma TidyMoved(s: System, s': System, t: nat)
    requires AllTidy(s) && t < |s.threads| && |s'.threads| == |s.threads| && (On(s) ==> On(s'))
    requires forall u | 0 <= u < |s.threads| && u != t :: s'.threads[u] == s.threads[u]
    requires Tidy(On(s'), s'.threads[t].pc)
    ensures AllTidy(s')
  {
    forall u | 0 <= u < |s'.threads| ensures Tidy(On(s'), s'.threads[u].pc) {
      if u != t { assert Tidy(On(s), s.threads[u].pc); }
    }
  }

  lemma TailKept(s: System, s': System)
    requires LogTail(s) && (On(s) ==> On(s')) && s'.mgr.log == s.mgr.log && s.commits <= s'.commits
    requires Skipped(s') == Skipped(s) || (s.mgr.log == [] && Skipped(s') >= 0)
    ensures LogTail(s')
  {
  }

  /** Nothing about any subscription's registration changed. */
  ghost predicate SameBases(m: B.State, m': B.State) {
    && |m'.subs| == |m.subs|
    && forall i | 0 <= i < |m.subs| ::
         && m'.subs[i].ch == m.subs[i].ch && m'.subs[i].mode == m.subs[i].mode
         && m'.subs[i].external == m.subs[i].external && m'.subs[i].armed == m.subs[i].armed
         && m'.subs[i].stored == m.subs[i].stored && m'.subs[i].storedAt == m.subs[i].storedAt
         && m'.subs[i].first == m.subs[i].first && (m.subs[i].cancelled ==> m'.subs[i].cancelled)
  }

  lemma BasesKept(s: System, s': System)
    requires Bases(s) && s'.base == s.base && |s'.mgr.subs| == |s.mgr.subs| && (On(s) ==> On(s'))
    requires forall i | 0 <= i < |s.mgr.subs| ::
      s'.mgr.subs[i].stored == s.mgr.subs[i].stored && s'.mgr.subs[i].storedAt == s.mgr.subs[i].storedAt
    requires Skipped(s') == Skipped(s) || !On(s)
    ensures Bases(s')
  {
  }

  /** One thread's greeting stands while its subscription's record does. */
  lemma GreetedKept(s: System, s': System, u: nat)
    requires u < |s.threads| && u < |s'.threads| && s'.threads[u] == s.threads[u] && Greeted(s, u)
    requires s.commits <= s'.commits && s'.initial == s.initial && s'.delivery == s.delivery
      && s.base <= s'.base && |s.mgr.subs| <= |s'.mgr.subs|
    requires SubOf(s.threads[u].pc).Some? && SubOf(s.threads[u].pc).value < |s.mgr.subs| ==>
      var x, x' := s.mgr.subs[SubOf(s.threads[u].pc).value], s'.mgr.subs[SubOf(s.threads[u].pc).value];
      && x'.ch == x.ch && x'.mode == x.mode && x'.external == x.external && x'.first == x.first
      && x'.armed == x.armed && (x.cancelled ==> x'.cancelled)
      && (ReaderPc(s.threads[u].pc) ==>
            && x'.storedAt == x.storedAt && x'.sent == x.sent
            && |s'.mgr.log| == |s.mgr.log| && |s'.commits| == |s.commits|)
    ensures Greeted(s', u)
  {
    assert forall k | 0 <= k <= |s.commits| :: State(s', k) == State(s, k);
  }

  /** With no reader about, only finished subscriptions are left to keep. */
  lemma GreetingsKept(s: System, s': System, t: nat)
    requires Greetings(s) && t < |s.threads| && |s'.threads| == |s.threads|
    requires forall u | 0 <= u < |s.threads| && u != t :: s'.threads[u] == s.threads[u]
    requires forall u | 0 <= u < |s.threads| && u != t :: !ReaderPc(s.threads[u].pc)
    requires s.commits <= s'.commits && s'.initial == s.initial && s'.delivery == s.delivery
      && s'.base == s.base && SameBases(s.mgr, s'.mgr)
    requires SubOf(s.threads[t].pc) == None && SubOf(s'.threads[t].pc) == None
    ensures Greetings(s')
  {
    hide Greeted;
    forall u | 0 <= u < |s'.threads| ensures Greeted(s', u) {
      if u != t { GreetedKept(s, s', u); } else { NotSubscribing(s', t); }
    }
  }

  lemma NotSubscribing(s: System, t: nat)
    requires t < |s.threads| && SubOf(s.threads[t].pc) == None
    ensures Greeted(s, t)
  {
  }

  /** Readers may be about, but nothing they rely on changed. */
  lemma GreetingsStill(s: System, s': System, t: nat)
    requires Greetings(s) && t < |s.threads| && |s'.threads| == |s.threads|
    requires forall u | 0 <= u < |s.threads| && u != t :: s'.threads[u] == s.threads[u]
    requires s'.commits == s.commits && s'.initial == s.initial && s'.delivery == s.delivery
      && s'.base == s.base && s'.mgr == s.mgr
    requires SubOf(s'.threads[t].pc) == SubOf(s.threads[t].pc) && Greeted(s', t)
    ensures Greetings(s')
  {
    hide Greeted;
    forall u | 0 <= u < |s'.threads| ensures Greeted(s', u) {
      if u != t { GreetedKept(s, s', u); }
    }
  }

  lemma CallersMoved(s: System, s': System, t: nat)
    requires Callers(s) && t < |s.threads| && |s'.threads| == |s.threads|
    requires forall u | 0 <= u < |s.threads| && u != t :: s'.threads[u] == s.threads[u]
    requires s'.threads[t].op == s.threads[t].op && !s.threads[t].pc.Done?
    requires |s.mgr.chans| <= |s'.mgr.chans| && forall c | 0 <= c < |s.mgr.chans| ::
      s'.mgr.chans[c].owned == s.mgr.chans[c].owned && s'.mgr.chans[c].closed == s.mgr.chans[c].closed
    ensures Callers(s')
  {
  }

  lemma LagOther(s: System, s': System, t: nat)
    requires Locks(s) && t < |s.threads| && |s'.threads| == |s.threads| && s'.writer == s.writer && s.writer != Some(t)
    requires forall u | 0 <= u < |s.threads| && u != t :: s'.threads[u] == s.threads[u]
    ensures Lag(s') == Lag(s)
  {
  }

  lemma NoReaders(s: System)
    requires Locks(s) && (s.writer.Some? || s.readers == {})
    ensures forall u | 0 <= u < |s.threads| :: !ReaderPc(s.threads[u].pc)
  {
  }

  lemma WriterIs(s: System, t: nat)
    requires Locks(s) && t < |s.threads| && WriterPc(s.threads[t].pc)
    ensures s.writer == Some(t) && Lag(s) == Behind(s.threads[t].pc)
  {
  }

  // ---------- calls and reads ----------

  lemma LifeEcho(s: System, l: Life)
    requires Locks(s) && Echo(s) && LifeEnabled(s, l)
    ensures Echo(LifeStep(s, l))
  {
    hide Locks, HooksOk, LogTail, Bases, AllTidy, Greetings, Callers;
    if l.Spawn? { SpawnEcho(s, l.op); } else { MoveEcho(s, l); }
  }

  lemma MoveEcho(s: System, l: Life)
    requires Locks(s) && Echo(s) && LifeEnabled(s, l) && !l.Spawn?
    ensures Echo(LifeStep(s, l))
  {
    hide Locks, HookedUp, LogTail, Bases, AllTidy, Greetings, Callers, Lag;
    var s' := LifeStep(s, l);
    StartFree(s, l.t);
    LagOther(s, s', l.t);
    TailKept(s, s');
    BasesKept(s, s');
    TidyMoved(s, s', l.t);
    GreetingsStill(s, s', l.t);
    CallersMoved(s, s', l.t);
  }

  lemma StartFree(s: System, t: nat)
    requires Locks(s) && t < |s.threads| && !WriterPc(s.threads[t].pc)
    ensures s.writer != Some(t)
  {
  }

  lemma SpawnEcho(s: System, op: Op)
    requires Locks(s) && Echo(s) && LifeEnabled(s, Spawn(op))
    ensures Echo(LifeStep(s, Spawn(op)))
  {
    var s' := LifeStep(s, Spawn(op));
    assert forall u | 0 <= u < |s.threads| :: s'.threads[u] == s.threads[u];
    assert Lag(s') == Lag(s);
    SpawnGreetings(s, op);
    hide Locks, HookedUp, LogTail, Bases, Greetings;
    TailKept(s, s');
    BasesKept(s, s');
  }

  lemma SpawnGreetings(s: System, op: Op)
    requires Greetings(s) && LifeEnabled(s, Spawn(op))
    ensures Greetings(LifeStep(s, Spawn(op)))
  {
    hide Greeted, State;
    var s' := LifeStep(s, Spawn(op));
    forall u | 0 <= u < |s'.threads| ensures Greeted(s', u) {
      if u < |s.threads| { GreetedKept(s, s', u); } else { NotSubscribing(s', u); }
    }
  }
}
