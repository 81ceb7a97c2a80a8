/** How things turn out for one subscription: exactly whom an UnsubscribeAll ends, what one
    step of a broadcast sends, and that an ended subscription is sent nothing more. */
module BroadcastOutcomes {
  import opened BroadcastProtocol
  import opened BroadcastSafety
  import opened BroadcastDelivery
  import opened BroadcastTheorems
  import opened BroadcastPlaces

  // ---------- whom a sweep ends ----------

  /** Its own context, or the first pass of some UnsubscribeAll, cancels `i`. */
  predicate Cancels(l: Label, i: nat) { l == Leave(Cancel(i)) || (l.Tear? && l.t.Signal? && l.t.s == i) }

  /** The sweep has cancelled `i` or still has it to visit. */
  predicate Caught(m: State, i: nat) {
    i < |m.subs| && (m.subs[i].cancelled || (m.mutex.Draining? && i in m.mutex.todo))
  }

  predicate Missed(m: State, i: nat) { Gone(m, i) && !m.subs[i].cancelled }

  lemma StaysCaught(m: State, l: Label, i: nat)
    requires Safe(m) && Enabled(m, l) && Caught(m, i)
    ensures Caught(Step(m, l), i)
  {
    StepGrown(m, l);
    if !m.subs[i].cancelled { SweepKeeps(m, l, i); }
    hide Safe, Enabled, Step;
  }

  /** Only the sweep's own visit takes an entry off its list, and that cancels it. */
  lemma SweepKeeps(m: State, l: Label, i: nat)
    requires Safe(m) && Enabled(m, l) && m.mutex.Draining? && i in m.mutex.todo && i < |m.subs|
    ensures l != Tear(SweepCancel(i)) ==> Step(m, l).mutex.Draining? && i in Step(m, l).mutex.todo
    ensures l == Tear(SweepCancel(i)) ==> i < |Step(m, l).subs| && Step(m, l).subs[i].cancelled
  {
    hide Safe, Deliver;
  }

  lemma StaysMissed(m: State, l: Label, i: nat)
    requires Safe(m) && Enabled(m, l) && Missed(m, i) && !Cancels(l, i)
    ensures Missed(Step(m, l), i)
  {
    StaysGone(m, l, i);
    NotSwept(m, l, i);
  }

  lemma NotSwept(m: State, l: Label, i: nat)
    requires Safe(m) && Enabled(m, l) && Missed(m, i) && !Cancels(l, i)
    ensures i < |Step(m, l).subs| && !Step(m, l).subs[i].cancelled
  {
    hide Shape, Table, Closure, Deliver;
    match l
    case Cast(b) => CastCancels(m, b, i);
    case _ =>
  }

  lemma CastCancels(m: State, b: Casting, i: nat)
    requires CastEnabled(m, b) && i < |m.subs|
    ensures i < |CastStep(m, b).subs| && CastStep(m, b).subs[i].cancelled == m.subs[i].cancelled
  {
  }

  lemma {:induction false} RunCaught(m: State, ls: seq<Label>, i: nat)
    requires Invariant(m) && Run(m, ls) && Caught(m, i)
    ensures Caught(After(m, ls), i)
    decreases |ls|
  {
    if ls != [] {
      assert Safe(m) by { InvariantSafe(m); }
      hide Invariant, Safe, Caught;
      StepInvariant(m, ls[0]);
      StaysCaught(m, ls[0], i);
      RunCaught(Step(m, ls[0]), ls[1..], i);
    }
  }

  lemma {:induction false} RunMissed(m: State, ls: seq<Label>, i: nat)
    requires Invariant(m) && Run(m, ls) && Missed(m, i) && forall l | l in ls :: !Cancels(l, i)
    ensures Missed(After(m, ls), i)
    decreases |ls|
  {
    if ls != [] {
      assert Safe(m) by { InvariantSafe(m); }
      hide Invariant, Safe, Missed, Cancels;
      StepInvariant(m, ls[0]);
      StaysMissed(m, ls[0], i);
      RunMissed(Step(m, ls[0]), ls[1..], i);
    }
  }

  /** Of the subscriptions stored before its sweep takes the mutex, UnsubscribeAll ends
      exactly those that are in the table at that moment; the others stay uncancelled unless
      something else cancels them. */
  lemma SweepExactly(m0: State, u: nat, ls: seq<Label>, i: nat)
    requires Reachable(m0) && TearEnabled(m0, SweepLock(u)) && i < |m0.subs| && m0.subs[i].stored
    requires Run(Step(m0, Tear(SweepLock(u))), ls) && forall l | l in ls :: !Cancels(l, i)
    requires TearEnabled(After(Step(m0, Tear(SweepLock(u))), ls), SweepUnlock)
    ensures var m := After(Step(m0, Tear(SweepLock(u))), ls);
      i < |m.subs| && (m.subs[i].cancelled <==> m0.subs[i].cancelled || Listed(m0, i))
  {
    hide Invariant, Reachable, Listed, Cancels, TearStep;
    ReachableInvariant(m0);
    var m1 := Step(m0, Tear(SweepLock(u)));
    StepInvariant(m0, Tear(SweepLock(u)));
    SweepStarts(m0, u, i);
    if Caught(m1, i) { RunCaught(m1, ls, i); } else { RunMissed(m1, ls, i); }
  }

  lemma SweepStarts(m: State, u: nat, i: nat)
    requires Invariant(m) && TearEnabled(m, SweepLock(u)) && i < |m.subs| && m.subs[i].stored
    ensures var m1 := TearStep(m, SweepLock(u));
      (Caught(m1, i) <==> m.subs[i].cancelled || Listed(m, i)) && (Missed(m1, i) <==> !Caught(m1, i))
  {
    InvariantSafe(m);
    hide Invariant;
    assert i in Stored(m) <==> Listed(m, i) by { StoredListed(m, i); }
  }

  lemma StoredListed(m: State, i: nat)
    requires Safe(m)
    ensures i in Stored(m) <==> Listed(m, i)
  {
  }

  // ---------- what a subscriber is sent ----------

  /** Nothing more is sent to a subscription that is out of the table: not after its callback
      has run, nor after it was displaced. */
  lemma {:induction false} SilentOnceGone(m: State, ls: seq<Label>, i: nat)
    requires Invariant(m) && Run(m, ls) && Gone(m, i)
    ensures Gone(After(m, ls), i) && After(m, ls).subs[i].sent == m.subs[i].sent
    decreases |ls|
  {
    if ls != [] {
      assert Safe(m) by { InvariantSafe(m); }
      StepInvariant(m, ls[0]);
      hide Invariant, Safe, Listed;
      StaysGone(m, ls[0], i);
      StepSilent(m, ls[0], i);
      hide Step, Enabled;
      SilentOnceGone(Step(m, ls[0]), ls[1..], i);
    }
  }

  lemma StepSilent(m: State, l: Label, i: nat)
    requires Safe(m) && Enabled(m, l) && Gone(m, i)
    ensures i < |Step(m, l).subs| && Step(m, l).subs[i].sent == m.subs[i].sent
  {
    GoneWaits(m, i);
    hide Safe, Listed, CastStep, CastEnabled, JoinStep, LeaveStep, TearStep, OutStep, Waiting;
    if l.Cast? { CastRecords(m, l.b, i); } else { OtherRecords(m, l, i); }
  }

  /** Only a broadcast's own steps touch records, the log, or whom it waits on. */
  lemma OtherRecords(m: State, l: Label, i: nat)
    requires Enabled(m, l) && !l.Cast? && i < |m.subs|
    ensures i < |Step(m, l).subs| && Step(m, l).subs[i].sent == m.subs[i].sent
    ensures Step(m, l).log == m.log && Waiting(Step(m, l)) == Waiting(m)
  {
    hide JoinStep, LeaveStep, TearStep, JoinEnabled, LeaveEnabled, TearEnabled;
    match l
    case Join(j) => JoinRecords(m, j, i);
    case Leave(v) => LeaveRecords(m, v, i);
    case Tear(t) => TearRecords(m, t, i);
    case Out(o) =>
  }

  lemma JoinRecords(m: State, l: Joining, i: nat)
    requires JoinEnabled(m, l) && i < |m.subs|
    ensures var m' := JoinStep(m, l);
      i < |m'.subs| && m'.subs[i].sent == m.subs[i].sent && m'.log == m.log && Waiting(m') == Waiting(m)
  {
  }

  lemma LeaveRecords(m: State, l: Leaving, i: nat)
    requires LeaveEnabled(m, l) && i < |m.subs|
    ensures var m' := LeaveStep(m, l);
      i < |m'.subs| && m'.subs[i].sent == m.subs[i].sent && m'.log == m.log && Waiting(m') == Waiting(m)
  {
  }

  lemma TearRecords(m: State, l: Tearing, i: nat)
    requires TearEnabled(m, l) && i < |m.subs|
    ensures var m' := TearStep(m, l);
      i < |m'.subs| && m'.subs[i].sent == m.subs[i].sent && m'.log == m.log && Waiting(m') == Waiting(m)
  {
  }

  lemma GoneWaits(m: State, i: nat)
    requires Safe(m) && Gone(m, i)
    ensures i !in Waiting(m)
  {
  }

  /** A broadcast's step adds its number to the record it serves, or to none. */
  lemma CastRecords(m: State, b: Casting, i: nat)
    requires CastEnabled(m, b) && i < |m.subs|
    ensures var m' := CastStep(m, b);
      && i < |m'.subs| && m.log <= m'.log
      && (m'.subs[i].sent == m.subs[i].sent
          || (i in Waiting(m) && m.log != [] && m'.subs[i].sent == m.subs[i].sent + [|m.log| - 1]))
  {
  }

  /** Broadcast `k` is done with subscription `i`. */
  predicate Settled(m: State, i: nat, k: nat) {
    i < |m.subs| && k < |m.log| && (|m.log| == k + 1 ==> i !in Waiting(m))
  }

  lemma StepSettled(m: State, l: Label, i: nat, k: nat)
    requires Enabled(m, l) && Settled(m, i, k)
    ensures Settled(Step(m, l), i, k) && (k in Step(m, l).subs[i].sent <==> k in m.subs[i].sent)
  {
    hide CastStep, CastEnabled, JoinStep, LeaveStep, TearStep, OutStep, Waiting;
    if l.Cast? { CastSettled(m, l.b, i, k); } else { OtherRecords(m, l, i); }
  }

  lemma CastSettled(m: State, b: Casting, i: nat, k: nat)
    requires CastEnabled(m, b) && Settled(m, i, k)
    ensures Settled(CastStep(m, b), i, k) && (k in CastStep(m, b).subs[i].sent <==> k in m.subs[i].sent)
  {
    CastRecords(m, b, i);
    CastWaits(m, b);
    hide CastEnabled, CastStep, Waiting;
  }

  lemma CastWaits(m: State, b: Casting)
    requires CastEnabled(m, b)
    ensures var m' := CastStep(m, b); |m'.log| > |m.log| || Waiting(m') <= Waiting(m)
  {
  }

  lemma {:induction false} RunSettled(m: State, ls: seq<Label>, i: nat, k: nat)
    requires Run(m, ls) && Settled(m, i, k)
    ensures Settled(After(m, ls), i, k) && (k in After(m, ls).subs[i].sent <==> k in m.subs[i].sent)
    decreases |ls|
  {
    if ls != [] {
      StepSettled(m, ls[0], i, k);
      hide Enabled, Step;
      RunSettled(Step(m, ls[0]), ls[1..], i, k);
    }
  }

  /** The step with which a broadcast is done with subscription `i`: the visit itself for
      best effort, otherwise its sender's last step. */
  predicate Settles(m: State, b: Casting, i: nat) {
    match b
    case Visit(s) => s == i && i < |m.subs| && m.subs[i].mode == BestEffort
    case Send(s) => s == i
    case Depart(s) => s == i
    case Expire(s) => s == i
    case _ => false
  }

  /** Which subscriber misses which broadcast: a best-effort one exactly if its channel is
      not ready when visited, a blocking one exactly if its sender departs or times out. The
      record says so for ever after. */
  lemma ServedExactly(m: State, b: Casting, i: nat, ls: seq<Label>)
    requires Reachable(m) && CastEnabled(m, b) && Settles(m, b, i) && Run(CastStep(m, b), ls)
    ensures SubOk(m, i) && m.log != [] && i < |After(CastStep(m, b), ls).subs|
    ensures |m.log| - 1 in After(CastStep(m, b), ls).subs[i].sent
      <==> b.Send? || (b.Visit? && Ready(m.chans[m.subs[i].ch]))
  {
    ReachableInvariant(m);
    ServedNow(m, b, i);
    hide Invariant, Reachable, CastStep;
    RunSettled(CastStep(m, b), ls, i, |m.log| - 1);
  }

  lemma ServedNow(m: State, b: Casting, i: nat)
    requires Invariant(m) && CastEnabled(m, b) && Settles(m, b, i)
    ensures SubOk(m, i) && m.log != [] && Settled(CastStep(m, b), i, |m.log| - 1)
    ensures |m.log| - 1 in CastStep(m, b).subs[i].sent <==> b.Send? || (b.Visit? && Ready(m.chans[m.subs[i].ch]))
  {
    WaitingServed(m, i);
    hide Invariant;
    if b.Send? { DeliverRecords(Served(m, i), i); }
    if b.Visit? { DeliverRecords(m.(mutex := Sending(m.mutex.unvisited - {i}, m.mutex.pending)), i); }
    hide Deliver;
  }

  lemma WaitingServed(m: State, i: nat)
    requires Invariant(m) && m.mutex.Sending? && i in Waiting(m)
    ensures SubOk(m, i) && m.log != [] && m.chans[m.subs[i].ch].closed == Open
    ensures |m.log| - 1 !in m.subs[i].sent && !(i in m.mutex.unvisited && i in m.mutex.pending)
  {
    assert Listed(m, i) && Unserved(m.subs[i], |m.log|);
    ListedOpen(m, i);
  }

  lemma DeliverRecords(m: State, i: nat)
    requires SubOk(m, i) && m.log != []
    ensures var m' := Deliver(m, i);
      m'.mutex == m.mutex && m'.log == m.log && |m'.subs| == |m.subs| && |m.log| - 1 in m'.subs[i].sent
  {
    var m' := Deliver(m, i);
    assert m'.subs[i].sent[|m'.subs[i].sent| - 1] == |m.log| - 1;
  }
}
