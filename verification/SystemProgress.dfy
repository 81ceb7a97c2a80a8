/** Progress: waiting for locks never goes round in a circle, and left to itself the program
    finishes every call unless a send is parked on a channel nobody empties. */
module SystemProgress {
  import opened Basics
  import opened SystemProtocol
  import opened SystemLocks
  import opened SystemHistory
  import opened SystemStream
  import opened SystemTheorems
  import B = BroadcastProtocol
  import S = BroadcastSafety
  import T = BroadcastTheorems

  // ---------- who waits for whom ----------

  predicate WantsWriteLock(th: Thread) { th.reg == Idle && th.pc == Start && Moves(th.op) }

  predicate WantsMutex(th: Thread) {
    th.pc == Reading || (th.reg == Idle && th.pc.Actions? && th.pc.rest != [] && IsCast(th.pc.rest[0]))
  }

  /** `t` cannot go on before `u` lets go of the machine's lock (or, queueing for it as a
      writer, keeps new readers out), of the setup Once, of the registry's lock or of the
      manager's mutex. */
  predicate WaitsFor(s: System, t: nat, u: nat)
    requires t < |s.threads| && u < |s.threads|
  {
    var th := s.threads[t];
    || (WantsWriteLock(th) && (s.writer == Some(u) || u in s.readers))
    || (th.pc == AwaitRead && (s.writer == Some(u) || (s.readers != {} && WantsWriteLock(s.threads[u]))))
    || (th.pc == Start && th.op.Subscribe? && s.once == InProgress(u))
    || (th.reg.Wanting? && s.regLock == Some(u))
    || (WantsMutex(th) && s.mgr.mutex.Sending? && s.writer == Some(u))
  }

  function Rank(th: Thread): nat {
    if th.reg.Holding? then 0
    else if WriterPc(th.pc) || ReaderPc(th.pc) || th.pc.InOnce? then 1
    else if th.pc == Start then 2
    else 3
  }

  lemma WaitsDescend(s: System, t: nat, u: nat)
    requires Locks(s) && t < |s.threads| && u < |s.threads| && WaitsFor(s, t, u)
    ensures Rank(s.threads[u]) < Rank(s.threads[t])
  {
    Placement(s, t);
    Placement(s, u);
    assert s.mgr.mutex.Sending? <==> s.writer.Some? && s.threads[s.writer.value].pc.InCast?;
    hide Locks;
  }

  lemma Placement(s: System, t: nat)
    requires Locks(s) && t < |s.threads|
    ensures Placed(s, t) && (t in s.readers ==> s.writer == None)
  {
  }

  ghost predicate WaitChain(s: System, path: seq<nat>) {
    && (forall i :: 0 <= i < |path| ==> path[i] < |s.threads|)
    && (forall i :: 0 < i < |path| ==> WaitsFor(s, path[i - 1], path[i]))
  }

  /** No chain of waiting threads ever closes. */
  lemma {:induction false} NoWaitCycle(s: System, path: seq<nat>)
    requires Reachable(s) && WaitChain(s, path) && |path| >= 2
    ensures path[0] != path[|path| - 1]
  {
    ReachableWhole(s);
    LocksOf(s);
    hide Whole, Locks;
    ChainDescends(s, path);
  }

  lemma {:induction false} ChainDescends(s: System, path: seq<nat>)
    requires Locks(s) && WaitChain(s, path) && |path| >= 2
    ensures Rank(s.threads[path[|path| - 1]]) < Rank(s.threads[path[0]])
  {
    hide Locks;
    var front := path[..|path| - 1];
    assert WaitsFor(s, path[|front| - 1], path[|front|]);
    WaitsDescend(s, path[|front| - 1], path[|front|]);
    hide WaitsFor, Rank;
    if |front| >= 2 {
      assert WaitChain(s, front);
      ChainDescends(s, front);
    }
  }

  // ---------- the program's own steps ----------

  /** Steps the program takes by itself once hooks return: not calls, cancellations,
      consumers' receives, or what a hook chooses to do before it returns. */
  predicate Own(l: Label) {
    match l
    case Living(f) => f.Read?
    case Write(w) => !w.HookEdit?
    case Regs(_) => true
    case Sub(_) => true
    case Mgr(m) => m.Cast? || m == B.Leave(B.Close)
  }

  ghost predicate CastParked(m: B.State) {
    && m.mutex.Sending? && m.mutex.unvisited == {} && m.mutex.pending != {}
    && forall p | p in m.mutex.pending :: T.Blocked(m, p)
  }

  /** Thread `t` is sending on a full channel whose subscription nobody has cancelled: the
      greeting of its own subscription, or a broadcast with nothing else left to do. */
  ghost predicate ParkedAt(s: System, t: nat)
    requires t < |s.threads|
  {
    match s.threads[t].pc
    case InCast(_, _) => CastParked(s.mgr)
    case Greeting(i) =>
      B.SubOk(s.mgr, i) && !s.mgr.subs[i].cancelled && !B.Ready(s.mgr.chans[s.mgr.subs[i].ch])
    case _ => false
  }

  /** The step is the thread's own, or is taken for it by whoever holds the manager's mutex. */
  predicate StepFor(s: System, l: Label, t: nat)
    requires t < |s.threads|
  {
    match l
    case Living(f) => f.Read? && f.t == t
    case Write(w) => w.t == t
    case Regs(r) => r.t == t
    case Sub(b) => b.t == t
    case Mgr(m) => if m.Cast? then s.threads[t].pc.InCast? else WantsMutex(s.threads[t])
  }

  ghost predicate Moving(s: System, l: Label, t: nat)
    requires t < |s.threads|
  {
    ParkedAt(s, t) || (Own(l) && Enabled(s, l) && StepFor(s, l, t))
  }

  /** A call that has not returned waits, by a chain of threads, for one that can go on or is
      parked on a send itself. */
  lemma {:induction false} Unblocked(s: System, t: nat) returns (path: seq<nat>, l: Label)
    requires Whole(s) && t < |s.threads| && !s.threads[t].pc.Done?
    ensures path != [] && path[0] == t && WaitChain(s, path) && Moving(s, l, path[|path| - 1])
    decreases Rank(s.threads[t])
  {
    hide Whole, Moving, WaitsFor, Rank;
    var u;
    l, u := Next(s, t);
    path := [t];
    if u.Some? {
      assert Locks(s) by { LocksOf(s); }
      WaitsDescend(s, t, u.value);
      var rest;
      rest, l := Unblocked(s, u.value);
      path := [t] + rest;
    }
  }

  lemma LocksOf(s: System)
    requires Whole(s)
    ensures Locks(s)
  {
  }

  lemma Next(s: System, t: nat) returns (l: Label, u: Option<nat>)
    requires Whole(s) && t < |s.threads| && !s.threads[t].pc.Done?
    ensures u == None ==> Moving(s, l, t)
    ensures u.Some? ==> u.value < |s.threads| && WaitsFor(s, t, u.value) && !s.threads[u.value].pc.Done?
  {
    hide Whole, Moving, WaitsFor;
    var th := s.threads[t];
    if th.reg != Idle { l, u := NextReg(s, t); }
    else if th.pc == Start || th.pc == AwaitRead { l, u := NextGate(s, t); }
    else if th.pc.InCast? { l := NextCast(s, t); u := None; }
    else if th.pc.Actions? { l := NextAction(s, t); u := None; }
    else if ReaderPc(th.pc) { l := NextReader(s, t); u := None; }
    else { l := NextWriter(s, t); u := None; }
  }

  lemma NextReg(s: System, t: nat) returns (l: Label, u: Option<nat>)
    requires Whole(s) && t < |s.threads| && s.threads[t].reg != Idle
    ensures u == None ==> Moving(s, l, t)
    ensures u.Some? ==> u.value < |s.threads| && WaitsFor(s, t, u.value) && !s.threads[u.value].pc.Done?
  {
    WorkReady(s, t);
    hide Whole;
    l, u := Regs(Work(t)), None;
    if s.threads[t].reg.Wanting? {
      if s.regLock == None { l := Regs(Acquire(t)); } else {
        u := s.regLock;
        RegHolder(s, u.value);
      }
    }
  }

  lemma WorkReady(s: System, t: nat)
    requires Whole(s) && t < |s.threads|
    ensures s.threads[t].pc.SnapActions? ==> s.threads[t].pc.at < |s.commits|
  {
    hide T.Invariant, Echo;
    Look(s, t);
    hide Locks, Story;
  }

  lemma RegHolder(s: System, u: nat)
    requires Whole(s) && s.regLock == Some(u)
    ensures u < |s.threads| && s.threads[u].reg.Holding? && !s.threads[u].pc.Done?
  {
    hide T.Invariant, Echo, Story;
    Placement(s, u);
  }

  lemma NextGate(s: System, t: nat) returns (l: Label, u: Option<nat>)
    requires Whole(s) && t < |s.threads| && s.threads[t].reg == Idle
    requires s.threads[t].pc == Start || s.threads[t].pc == AwaitRead
    ensures u == None ==> Moving(s, l, t)
    ensures u.Some? ==> u.value < |s.threads| && WaitsFor(s, t, u.value) && !s.threads[u.value].pc.Done?
  {
    hide T.Invariant, Story, Echo;
    Placement(s, t);
    var th := s.threads[t];
    l, u := Sub(RLock(t)), None;
    if th.pc == AwaitRead || Moves(th.op) {
      if th.pc == Start { l := Write(WLock(t)); }
      if s.writer.Some? { u := s.writer; }
      else if th.pc == Start && s.readers != {} { var r :| r in s.readers; u := Some(r); }
    } else if th.op == GetState { l := Living(Read(t)); }
    else if s.once == Fresh { l := Sub(OnceEnter(t)); }
    else if s.once.Ran? { l := Sub(OncePass(t)); }
    else { u := Some(s.once.t); }
    if u.Some? { Placement(s, u.value); }
    hide Locks;
  }

  lemma NextWriter(s: System, t: nat) returns (l: Label)
    requires Whole(s) && t < |s.threads| && s.threads[t].reg == Idle && !s.threads[t].pc.Done?
    requires s.threads[t].pc != Start && !s.threads[t].pc.AwaitRead? && !s.threads[t].pc.InCast?
      && !s.threads[t].pc.Actions? && !ReaderPc(s.threads[t].pc)
    ensures Moving(s, l, t)
  {
    hide T.Invariant, Story, Echo;
    Placement(s, t);
    hide Locks;
    var pc := s.threads[t].pc;
    l := if pc.Checking? then Write(Check(t, false))
         else if pc.Exiting? then Write(WUnlock(t))
         else if pc.Guards? && pc.rest == [] then Write(Store(t))
         else Write(Guard(t, true));
  }

  lemma NextAction(s: System, t: nat) returns (l: Label)
    requires Whole(s) && t < |s.threads| && s.threads[t].reg == Idle && s.threads[t].pc.Actions?
    ensures Moving(s, l, t)
  {
    Look(s, t);
    var rest := s.threads[t].pc.rest;
    if rest == [] { l := Write(ActsDone(t)); }
    else if !IsCast(rest[0]) { l := Write(Act(t)); }
    else {
      assert s.writer == Some(t) && !s.mgr.mutex.Sending? && !s.mgr.mutex.Draining?;
      l := if s.mgr.mutex == B.Free then Write(CastLock(t)) else Mgr(B.Leave(B.Close));
      if s.mgr.mutex.Closing? { CloseReady(s); }
    }
    hide Whole, Moving, ThreadOk, RegFits;
    Goes(s, l, t);
  }

  lemma CloseReady(s: System)
    requires Whole(s) && s.mgr.mutex.Closing?
    ensures Enabled(s, Mgr(B.Leave(B.Close)))
  {
    hide Locks, Story, Echo, T.Invariant;
    T.InvariantSafe(s.mgr);
    ClosingReady(s.mgr);
  }

  lemma ClosingReady(m: B.State)
    requires S.Safe(m) && m.mutex.Closing?
    ensures B.LeaveEnabled(m, B.Close)
  {
    hide S.Shape, S.Table, S.Closure;
  }

  /** A broadcast under way has a step or is parked. */
  lemma CastTurn(m: B.State) returns (b: B.Casting)
    requires S.Safe(m) && m.mutex.Sending?
    ensures CastParked(m) || (!b.Lock? && B.CastEnabled(m, b))
  {
    hide S.Safe, T.Blocked;
    T.StuckExactly(m);
    b := B.Unlock;
    if c :| B.CastEnabled(m, c) { b := c; }
  }

  lemma NextCast(s: System, t: nat) returns (l: Label)
    requires Whole(s) && t < |s.threads| && s.threads[t].reg == Idle && s.threads[t].pc.InCast?
    ensures Moving(s, l, t)
  {
    hide Whole, S.Safe, CastParked, B.CastEnabled;
    Casting(s, t);
    var b := CastTurn(s.mgr);
    if b.Unlock? { l := Write(CastUnlock(t)); } else { l := Mgr(B.Cast(b)); }
  }

  lemma Casting(s: System, t: nat)
    requires Whole(s) && t < |s.threads| && s.threads[t].pc.InCast?
    ensures S.Safe(s.mgr) && s.mgr.mutex.Sending?
  {
    T.InvariantSafe(s.mgr);
    assert s.writer == Some(t);
    hide T.Invariant, S.Safe, Story, Echo;
  }

  lemma NextReader(s: System, t: nat) returns (l: Label)
    requires Whole(s) && t < |s.threads| && s.threads[t].reg == Idle && ReaderPc(s.threads[t].pc)
    ensures Moving(s, l, t)
  {
    var pc := s.threads[t].pc;
    hide Whole, Moving;
    if pc.ReadExit? { l := Sub(RUnlock(t)); Goes(s, l, t); }
    else if pc.Reading? { l := NextStore(s, t); }
    else { l := NextGreeting(s, t); }
  }

  lemma NextStore(s: System, t: nat) returns (l: Label)
    requires Whole(s) && t < |s.threads| && s.threads[t].reg == Idle && s.threads[t].pc.Reading?
    ensures Moving(s, l, t)
  {
    assert s.writer == None && !s.mgr.mutex.Sending? && !s.mgr.mutex.Draining?;
    Look(s, t);
    ChannelOpen(s, t);
    l := if s.mgr.mutex == B.Free then Sub(SubStore(t)) else Mgr(B.Leave(B.Close));
    if s.mgr.mutex.Closing? { CloseReady(s); }
    hide Whole, ThreadOk, Moving;
    Goes(s, l, t);
  }

  lemma ChannelOpen(s: System, t: nat)
    requires Whole(s) && t < |s.threads| && s.threads[t].op.Subscribe? && !s.threads[t].pc.Done?
    ensures var c := s.threads[t].op.channel;
      c < |s.mgr.chans| && !s.mgr.chans[c].owned && s.mgr.chans[c].closed == B.Open
  {
    hide T.Invariant, Locks, Story;
  }

  /** A subscription being served is ready for its next step. */
  lemma Serving(s: System, t: nat)
    requires Whole(s) && t < |s.threads| && (s.threads[t].pc.Registered? || s.threads[t].pc.Greeting?)
    ensures var i := s.threads[t].pc.s;
      && B.SubOk(s.mgr, i) && s.mgr.subs[i].external && s.mgr.subs[i].stored
      && (s.mgr.subs[i].armed <==> s.threads[t].pc.Greeting?)
      && s.mgr.subs[i].first == [] && s.mgr.subs[i].sent == [] && s.mgr.chans[s.mgr.subs[i].ch].closed == B.Open
  {
    assert OpFits(s.threads[t]) by { Placement(s, t); }
    CallerOf(s, t);
    hide Whole, State;
    ChannelOpen(s, t);
    BaseOf(s, s.threads[t].pc.s);
  }

  lemma NextGreeting(s: System, t: nat) returns (l: Label)
    requires Whole(s) && t < |s.threads| && s.threads[t].reg == Idle
    requires s.threads[t].pc.Registered? || s.threads[t].pc.Greeting?
    ensures Moving(s, l, t)
  {
    Serving(s, t);
    hide Whole, Moving;
    if s.threads[t].pc.Registered? {
      l := Sub(SubArm(t));
      Goes(s, l, t);
    } else {
      l := GreetOrPark(s, t);
    }
  }

  lemma Goes(s: System, l: Label, t: nat)
    requires t < |s.threads| && Own(l) && Enabled(s, l) && StepFor(s, l, t)
    ensures Moving(s, l, t)
  {
  }

  lemma GreetOrPark(s: System, t: nat) returns (l: Label)
    requires At(s, t) && s.threads[t].pc.Greeting?
    requires var m, i := s.mgr, s.threads[t].pc.s;
      && B.SubOk(m, i) && m.subs[i].external && m.subs[i].first == [] && m.subs[i].sent == []
      && m.chans[m.subs[i].ch].closed == B.Open
    ensures Moving(s, l, t)
  {
    hide CastParked;
    l := Sub(Abort(t));
    if !s.mgr.subs[s.threads[t].pc.s].cancelled {
      if B.Ready(s.mgr.chans[s.mgr.subs[s.threads[t].pc.s].ch]) {
        l := Sub(Greet(t));
      } else {
        assert ParkedAt(s, t);
      }
    }
  }

  /** Deadlock freedom, call by call: whoever has not returned waits, if for anybody, by a
      chain of threads for one with an enabled step of the program's own, or for one parked
      on a full channel whose subscription nobody has cancelled. */
  lemma DeadlockFree(s: System, t: nat) returns (path: seq<nat>, l: Label)
    requires Reachable(s) && t < |s.threads| && !s.threads[t].pc.Done?
    ensures path != [] && path[0] == t && WaitChain(s, path)
    ensures var u := path[|path| - 1]; ParkedAt(s, u) || (Own(l) && Enabled(s, l) && StepFor(s, l, u))
  {
    ReachableWhole(s);
    hide Whole;
    path, l := Unblocked(s, t);
  }
}
