/** Exactly when a subscription keeps its place in the table, over whole runs: entries go by
    channel, so storing or removing another subscription of the same channel displaces it. */
module BroadcastPlaces {
  import opened BroadcastProtocol
  import opened BroadcastSafety
  import opened BroadcastDelivery
  import opened BroadcastTheorems

  // ---------- one step ----------

  /** While `i` is stored, another subscription of its channel is stored or removed. */
  predicate Displaces(m: State, l: Label, i: nat) {
    && i < |m.subs| && m.subs[i].stored
    && match l
       case Join(Store(s)) => s < |m.subs| && s != i && m.subs[s].ch == m.subs[i].ch
       case Leave(Remove(s)) => s < |m.subs| && s != i && m.subs[s].ch == m.subs[i].ch
       case _ => false
  }

  /** Stored, and out of the table. */
  predicate Gone(m: State, i: nat) { i < |m.subs| && m.subs[i].stored && !Listed(m, i) }

  /** A live subscription loses its place in the table exactly when it is displaced. */
  lemma LosesPlaceExactly(m: State, l: Label, i: nat)
    requires Safe(m) && Enabled(m, l) && Listed(m, i) && !m.subs[i].cancelled
    ensures !Listed(Step(m, l), i) <==> Displaces(m, l, i)
  {
    ListedStored(m, i);
    hide Safe, Listed, JoinStep, LeaveStep, CastStep, TearStep, OutStep;
    match l
    case Join(j) => JoinPlace(m, j, i);
    case Leave(v) => LeavePlace(m, v, i);
    case Cast(b) => CastPlace(m, b, i);
    case Tear(t) => TearPlace(m, t, i);
    case Out(o) => OutPlace(m, o, i);
  }

  lemma ListedStored(m: State, i: nat)
    requires Safe(m) && Listed(m, i)
    ensures m.subs[i].stored
  {
  }

  lemma OutPlace(m: State, l: Outside, i: nat)
    requires OutEnabled(m, l) && Listed(m, i)
    ensures Listed(OutStep(m, l), i)
  {
  }

  lemma JoinPlace(m: State, l: Joining, i: nat)
    requires Safe(m) && JoinEnabled(m, l) && Listed(m, i)
    ensures !Listed(JoinStep(m, l), i) <==> l.Store? && m.subs[l.s].ch == m.subs[i].ch
  {
  }

  lemma LeavePlace(m: State, l: Leaving, i: nat)
    requires Safe(m) && LeaveEnabled(m, l) && Listed(m, i) && !m.subs[i].cancelled
    ensures !Listed(LeaveStep(m, l), i) <==> l.Remove? && m.subs[l.s].ch == m.subs[i].ch
  {
  }

  lemma CastPlace(m: State, l: Casting, i: nat)
    requires CastEnabled(m, l) && Listed(m, i)
    ensures Listed(CastStep(m, l), i)
  {
    hide Deliver;
    if l.Visit? { DeliverPlace(m.(mutex := Sending(m.mutex.unvisited - {l.s}, m.mutex.pending)), l.s, i); }
    if l.Send? { DeliverPlace(Served(m, l.s), l.s, i); }
  }

  lemma DeliverPlace(m: State, s: nat, i: nat)
    requires SubOk(m, s) && m.log != [] && Listed(m, i)
    ensures Listed(Deliver(m, s), i)
  {
  }

  lemma TearPlace(m: State, l: Tearing, i: nat)
    requires Safe(m) && TearEnabled(m, l) && Listed(m, i) && !m.subs[i].cancelled
    ensures Listed(TearStep(m, l), i)
  {
  }

  /** Once out of the table, out for good. */
  lemma StaysGone(m: State, l: Label, i: nat)
    requires Safe(m) && Enabled(m, l) && Gone(m, i)
    ensures Gone(Step(m, l), i)
  {
    StepExtends(m, l);
    TableShrinks(m, l);
    hide Safe, Enabled, Step;
  }

  /** No step but its own store puts a subscription into the table. */
  lemma TableShrinks(m: State, l: Label)
    requires Safe(m) && Enabled(m, l)
    ensures forall c | c in Step(m, l).table ::
      (c in m.table && m.table[c] == Step(m, l).table[c]) || l == Join(Store(Step(m, l).table[c]))
    ensures l.Join? && l.j.Store? ==> l.j.s < |m.subs| && !m.subs[l.j.s].stored
  {
    hide Safe, Deliver;
    match l
    case Cast(b) => CastTable(m, b);
    case _ =>
  }

  lemma CastTable(m: State, b: Casting)
    requires CastEnabled(m, b)
    ensures CastStep(m, b).table == m.table
  {
  }

  /** A subscription is out of the table exactly if it was, or has just been displaced. */
  lemma GoneExactly(m: State, l: Label, i: nat)
    requires Safe(m) && Enabled(m, l) && (i < |Step(m, l).subs| ==> !Step(m, l).subs[i].cancelled)
    ensures Gone(Step(m, l), i) <==> Gone(m, i) || Displaces(m, l, i)
  {
    StepExtends(m, l);
    if Gone(m, i) {
      StaysGone(m, l, i);
    } else if i < |m.subs| && m.subs[i].stored {
      LosesPlaceExactly(m, l, i);
      hide Safe, Step, Enabled;
    } else if i < |m.subs| {
      StoredNow(m, l, i);
      hide Safe, Step, Enabled;
    } else {
      hide Safe, Step, Enabled;
    }
  }

  lemma StoredNow(m: State, l: Label, i: nat)
    requires Safe(m) && Enabled(m, l) && i < |m.subs| && !m.subs[i].stored && i < |Step(m, l).subs|
    ensures Step(m, l).subs[i].stored <==> l == Join(Store(i))
    ensures Step(m, l).subs[i].stored ==> Listed(Step(m, l), i)
  {
    hide Safe, Deliver;
    match l
    case Join(j) => JoinStored(m, j, i);
    case Cast(b) => CastStored(m, b, i);
    case _ => hide Listed;
  }

  lemma JoinStored(m: State, j: Joining, i: nat)
    requires JoinEnabled(m, j) && i < |m.subs| && !m.subs[i].stored && i < |JoinStep(m, j).subs|
    ensures JoinStep(m, j).subs[i].stored <==> j == Store(i)
    ensures JoinStep(m, j).subs[i].stored ==> Listed(JoinStep(m, j), i)
  {
  }

  lemma CastStored(m: State, b: Casting, i: nat)
    requires CastEnabled(m, b) && i < |m.subs|
    ensures i < |CastStep(m, b).subs| && CastStep(m, b).subs[i].stored == m.subs[i].stored
  {
  }

  // ---------- whole runs ----------

  /** Nothing recorded is lost. */
  ghost predicate Grown(m: State, m': State) {
    && |m.subs| <= |m'.subs| && |m.chans| <= |m'.chans| && m.log <= m'.log
    && (forall i | 0 <= i < |m.subs| ::
          && m'.subs[i].ch == m.subs[i].ch && m'.subs[i].mode == m.subs[i].mode
          && m'.subs[i].external == m.subs[i].external
          && (m.subs[i].stored ==> m'.subs[i].stored && m'.subs[i].storedAt == m.subs[i].storedAt)
          && (m.subs[i].armed ==> m'.subs[i].armed) && (m.subs[i].cancelled ==> m'.subs[i].cancelled))
    && forall c | 0 <= c < |m.chans| ::
         m'.chans[c].owned == m.chans[c].owned && m'.chans[c].capacity == m.chans[c].capacity
  }

  lemma StepGrown(m: State, l: Label)
    requires Safe(m) && Enabled(m, l)
    ensures Grown(m, Step(m, l))
  {
    StepExtends(m, l);
    StepChans(m, l);
    hide Safe, Enabled, Step;
  }

  /** A channel stays whose it is and as large as it is. */
  lemma StepChans(m: State, l: Label)
    requires Enabled(m, l)
    ensures SameOwners(m, Step(m, l))
  {
    hide JoinStep, LeaveStep, CastStep, TearStep, OutStep, JoinEnabled, LeaveEnabled, CastEnabled, TearEnabled;
    match l
    case Join(j) => JoinChans(m, j);
    case Leave(v) => LeaveChans(m, v);
    case Cast(b) => CastChans(m, b);
    case Tear(t) => TearChans(m, t);
    case Out(o) => OutChans(m, o);
  }

  ghost predicate SameOwners(m: State, m': State) {
    && |m.chans| <= |m'.chans|
    && forall c | 0 <= c < |m.chans| ::
         m'.chans[c].owned == m.chans[c].owned && m'.chans[c].capacity == m.chans[c].capacity
  }

  lemma JoinChans(m: State, l: Joining)
    requires JoinEnabled(m, l)
    ensures SameOwners(m, JoinStep(m, l))
  {
  }

  lemma LeaveChans(m: State, l: Leaving)
    requires LeaveEnabled(m, l)
    ensures SameOwners(m, LeaveStep(m, l))
  {
  }

  lemma TearChans(m: State, l: Tearing)
    requires TearEnabled(m, l)
    ensures SameOwners(m, TearStep(m, l))
  {
  }

  lemma OutChans(m: State, l: Outside)
    requires OutEnabled(m, l)
    ensures SameOwners(m, OutStep(m, l))
  {
  }

  lemma CastChans(m: State, b: Casting)
    requires CastEnabled(m, b)
    ensures SameOwners(m, CastStep(m, b))
  {
  }

  lemma GrownTransitive(m: State, m1: State, m2: State)
    requires Grown(m, m1) && Grown(m1, m2)
    ensures Grown(m, m2)
  {
  }

  lemma {:induction false} RunGrown(m: State, ls: seq<Label>)
    requires Invariant(m) && Run(m, ls)
    ensures Grown(m, After(m, ls))
    decreases |ls|
  {
    if ls == [] {
      hide Invariant;
    } else {
      assert Safe(m) by { InvariantSafe(m); }
      hide Invariant, Safe, Grown;
      StepInvariant(m, ls[0]);
      StepGrown(m, ls[0]);
      RunGrown(Step(m, ls[0]), ls[1..]);
      GrownTransitive(m, Step(m, ls[0]), After(m, ls));
    }
  }

  /** No step of the run displaces `i`. */
  ghost predicate Undisplaced(m: State, ls: seq<Label>, i: nat)
    requires Run(m, ls)
    decreases |ls|
  {
    ls == [] || (!Displaces(m, ls[0], i) && Undisplaced(Step(m, ls[0]), ls[1..], i))
  }

  /** One run after another. */
  lemma {:induction false} RunAppend(m: State, xs: seq<Label>, ys: seq<Label>)
    requires Run(m, xs) && Run(After(m, xs), ys)
    ensures Run(m, xs + ys) && After(m, xs + ys) == After(After(m, xs), ys)
    decreases |xs|
  {
    if xs == [] {
      assert xs + ys == ys;
    } else {
      RunAppend(Step(m, xs[0]), xs[1..], ys);
      assert (xs + ys)[1..] == xs[1..] + ys;
    }
  }

  /** Over any run: a subscription stored and uncancelled at its end is in the table then
      exactly if it was not out of it before and no step displaced it. */
  lemma {:induction false} PlaceAlong(m: State, ls: seq<Label>, i: nat)
    requires Invariant(m) && Run(m, ls)
    requires i < |After(m, ls).subs| && After(m, ls).subs[i].stored && !After(m, ls).subs[i].cancelled
    ensures Listed(After(m, ls), i) <==> !Gone(m, i) && Undisplaced(m, ls, i)
    decreases |ls|
  {
    if ls == [] {
      hide Invariant;
    } else {
      var m1 := Step(m, ls[0]);
      assert Safe(m) by { InvariantSafe(m); }
      hide Invariant, Safe, Gone, Displaces, Listed;
      StepInvariant(m, ls[0]);
      RunGrown(m1, ls[1..]);
      assert i < |m1.subs| ==> !m1.subs[i].cancelled;
      GoneExactly(m, ls[0], i);
      PlaceAlong(m1, ls[1..], i);
    }
  }

  /** From the start: a stored, uncancelled subscription is in the table exactly if it was
      never displaced. */
  lemma PlaceExactly(ls: seq<Label>, i: nat)
    requires Run(Initial, ls) && i < |After(Initial, ls).subs|
    requires After(Initial, ls).subs[i].stored && !After(Initial, ls).subs[i].cancelled
    ensures Listed(After(Initial, ls), i) <==> Undisplaced(Initial, ls, i)
  {
    PlaceAlong(Initial, ls, i);
  }

  /** With the mutex free and neither its arming nor its callback outstanding, a stored
      subscription is in the table exactly if it is not cancelled and was never displaced. */
  lemma TableExact(ls: seq<Label>, i: nat)
    requires Run(Initial, ls) && After(Initial, ls).mutex == Free && i < |After(Initial, ls).subs|
    requires var x := After(Initial, ls).subs[i]; x.stored && x.armed && (x.cancelled ==> x.fired)
    ensures Listed(After(Initial, ls), i) <==> !After(Initial, ls).subs[i].cancelled && Undisplaced(Initial, ls, i)
  {
    var m := After(Initial, ls);
    if m.subs[i].cancelled {
      FiredGone(m, i);
    } else {
      PlaceExactly(ls, i);
    }
  }

  lemma FiredGone(m: State, i: nat)
    requires Reachable(m) && i < |m.subs| && m.subs[i].fired
    ensures m.subs[i].stored && !Listed(m, i)
  {
    ReachableInvariant(m);
  }

  /** A guaranteed subscription, neither cancelled nor displaced, has been sent every
      broadcast since its store, whatever its channel was used for before. */
  lemma UndisplacedDelivery(ls: seq<Label>, i: nat)
    requires Run(Initial, ls) && !After(Initial, ls).mutex.Sending? && i < |After(Initial, ls).subs|
    requires var x := After(Initial, ls).subs[i]; x.stored && x.mode == Guaranteed && !x.cancelled
    requires Undisplaced(Initial, ls, i)
    ensures var m := After(Initial, ls);
      && m.subs[i].storedAt <= |m.log|
      && m.subs[i].sent == seq(|m.log| - m.subs[i].storedAt, k requires k >= 0 => m.subs[i].storedAt + k)
  {
    PlaceExactly(ls, i);
    GuaranteedDelivery(After(Initial, ls), i);
  }

  /** A subscription alone on its channel is never displaced. */
  lemma {:induction false} AloneUndisplaced(m: State, ls: seq<Label>, i: nat)
    requires Invariant(m) && Run(m, ls) && i < |After(m, ls).subs| && Alone(After(m, ls), i)
    ensures Undisplaced(m, ls, i)
    decreases |ls|
  {
    if ls != [] {
      RunGrown(m, ls);
      assert !Displaces(m, ls[0], i) by { AloneNow(m, After(m, ls), ls[0], i); }
      hide Invariant, Displaces, Alone, Grown;
      StepInvariant(m, ls[0]);
      AloneUndisplaced(Step(m, ls[0]), ls[1..], i);
    }
  }

  lemma AloneNow(m: State, m': State, l: Label, i: nat)
    requires Grown(m, m') && i < |m'.subs| && Alone(m', i) && Enabled(m, l)
    ensures !Displaces(m, l, i)
  {
    hide Enabled;
    forall j | 0 <= j < |m.subs| && j != i && i < |m.subs| ensures m.subs[j].ch != m.subs[i].ch {
      assert m'.subs[j].ch != m'.subs[i].ch;
    }
  }

  /** Every other subscription there has been on `i`'s channel by `m'` is one whose callback
      had run by `m`. */
  ghost predicate SoleUser(m: State, m': State, i: nat)
    requires i < |m.subs|
  {
    forall j | 0 <= j < |m'.subs| && j != i && m'.subs[j].ch == m.subs[i].ch :: j < |m.subs| && m.subs[j].fired
  }

  /** A channel may be used again: once the callbacks of its earlier subscriptions have run, a
      later one keeps its place until it is cancelled, if no further one is begun. */
  lemma Resubscribed(m: State, ls: seq<Label>, i: nat)
    requires Reachable(m) && Run(m, ls) && Listed(m, i) && SoleUser(m, After(m, ls), i)
    ensures i < |After(m, ls).subs| && (!After(m, ls).subs[i].cancelled ==> Listed(After(m, ls), i))
  {
    ReachableInvariant(m);
    assert m.subs[i].stored by { InvariantSafe(m); ListedStored(m, i); }
    RunGrown(m, ls);
    hide Invariant, Reachable, SoleUser;
    SoleUndisplaced(m, ls, i);
    if !After(m, ls).subs[i].cancelled { PlaceAlong(m, ls, i); }
  }

  lemma {:induction false} SoleUndisplaced(m: State, ls: seq<Label>, i: nat)
    requires Invariant(m) && Run(m, ls) && i < |m.subs| && SoleUser(m, After(m, ls), i)
    ensures Undisplaced(m, ls, i)
    decreases |ls|
  {
    if ls != [] {
      assert Safe(m) by { InvariantSafe(m); }
      RunGrown(m, ls);
      hide Invariant;
      SoleStep(m, ls[0], After(m, ls), i);
      hide Safe, Displaces, SoleUser;
      StepInvariant(m, ls[0]);
      SoleUndisplaced(Step(m, ls[0]), ls[1..], i);
    }
  }

  lemma SoleStep(m: State, l: Label, m': State, i: nat)
    requires Safe(m) && Enabled(m, l) && i < |m.subs| && Grown(m, m') && SoleUser(m, m', i)
    ensures !Displaces(m, l, i) && i < |Step(m, l).subs| && SoleUser(Step(m, l), m', i)
  {
    StepExtends(m, l);
    hide Step;
    assert forall j | 0 <= j < |m.subs| && m.subs[j].fired :: m.subs[j].stored;
  }

  // ---------- one channel registered twice ----------

  lemma RunSnoc(m: State, ls: seq<Label>, l: Label)
    requires Run(m, ls) && Enabled(After(m, ls), l)
    ensures Run(m, ls + [l]) && After(m, ls + [l]) == Step(After(m, ls), l)
  {
    var m1 := After(m, ls);
    assert Run(Step(m1, l), []) && [l][1..] == [];
    assert Run(m1, [l]);
    RunAppend(m, ls, [l]);
  }

  lemma ReachStep(m: State, l: Label) returns (m': State)
    requires Reachable(m) && Enabled(m, l)
    ensures m' == Step(m, l) && Reachable(m')
  {
    var ls :| Run(Initial, ls) && After(Initial, ls) == m;
    RunSnoc(Initial, ls, l);
    m' := Step(m, l);
  }

  const TWIN := Sub(0, BestEffort, true, true, 0, true, false, false, [], [])

  lemma StoredOnce() returns (m: State)
    ensures Reachable(m) && m == State([TWIN], [Chan(false, 1, [], 0, 0, Open)], map[0 := 0], Free, [], [], false)
  {
    assert Run(Initial, []) && After(Initial, []) == Initial;
    m := ReachStep(Initial, Out(MakeChan(1)));
    m := ReachStep(m, Join(Begin(External(0), BestEffort)));
    m := ReachStep(m, Join(Store(0)));
    m := ReachStep(m, Join(Arm(0)));
  }

  /** Two subscriptions stored on one caller's channel: the second replaces the first. */
  lemma StoredTwice() returns (m: State)
    ensures Reachable(m) && m.mutex == Free && m.subs == [TWIN, TWIN] && m.chans == [Chan(false, 1, [], 0, 0, Open)]
    ensures m.table == map[0 := 1] && m.teardowns == []
  {
    m := StoredOnce();
    hide Reachable;
    m := ReachStep(m, Join(Begin(External(0), BestEffort)));
    m := ReachStep(m, Join(Store(1)));
    m := ReachStep(m, Join(Arm(1)));
  }

  /** Removal goes by channel key, so the first subscription's late callback takes the live
      second one out of the table. */
  lemma LateCallbackDropsSuccessor() returns (m: State)
    ensures Reachable(m) && m.mutex == Free && |m.subs| == 2
    ensures m.subs[1].stored && !m.subs[1].cancelled && !Listed(m, 1)
  {
    m := StoredTwice();
    m := ReachStep(m, Leave(Cancel(0)));
    m := ReachStep(m, Leave(Remove(0)));
  }

  /** And UnsubscribeAll, which meets only what is in the table, leaves the replaced one
      uncancelled. */
  lemma UnsubscribeAllMissesReplaced() returns (m: State)
    ensures Reachable(m) && m.mutex == Free && m.teardowns == [TornDown] && |m.subs| == 2
    ensures m.subs[0].stored && !m.subs[0].cancelled
  {
    m := StoredTwice();
    hide Reachable;
    m := ReachStep(m, Tear(TearBegin));
    m := ReachStep(m, Tear(Signal(0, 1)));
    m := ReachStep(m, Tear(SignalEnd(0)));
    m := ReachStep(m, Tear(SweepLock(0)));
    assert 0 in m.table && m.table[0] == 1;
    m := SweptAlone(m);
  }

  /** The sweep of the only entry there is. */
  lemma SweptAlone(m: State) returns (m': State)
    requires Reachable(m) && m.mutex == Draining(0, {1}, Next) && |m.teardowns| == 1 && |m.chans| == 1
    requires |m.subs| == 2 && m.subs[0] == TWIN && m.subs[1].ch == 0 && m.subs[1].external && m.table == map[0 := 1]
    ensures Reachable(m') && m'.mutex == Free && m'.teardowns == [TornDown]
    ensures |m'.subs| == 2 && m'.subs[0] == TWIN && m'.table == map[]
  {
    hide Reachable;
    m' := ReachStep(m, Tear(SweepCancel(1)));
    m' := ReachStep(m', Tear(SweepDelete));
    assert m'.mutex.todo == {};
    m' := ReachStep(m', Tear(SweepUnlock));
  }
}
