/** Every broadcast serves everyone in the table exactly once, and a subscriber misses one
    exactly at a step that says why. */
module BroadcastServing {
  import opened BroadcastProtocol
  import opened BroadcastSafety
  import opened BroadcastDelivery
  import opened BroadcastStreams
  import opened BroadcastTheorems
  import opened BroadcastPlaces
  import opened BroadcastOutcomes

  // ---------- every subscriber is served once ----------

  /** How often the run's steps settle subscription `i`. */
  ghost function Settlings(m: State, ls: seq<Label>, i: nat): nat
    requires Run(m, ls)
    decreases |ls|
  {
    if ls == [] then 0
    else
      (if ls[0].Cast? && Settles(m, ls[0].b, i) then 1 else 0) + Settlings(Step(m, ls[0]), ls[1..], i)
  }

  /** While a broadcast lasts, whoever it waits on is settled by exactly the step that ends
      the waiting, and nobody else is. */
  lemma StepSettles(m: State, l: Label, i: nat)
    requires Invariant(m) && m.mutex.Sending? && Enabled(m, l) && l != Cast(Unlock)
    ensures Step(m, l).mutex.Sending? && Step(m, l).log == m.log
    ensures l.Cast? && Settles(m, l.b, i) <==> i in Waiting(m) && i !in Waiting(Step(m, l))
    ensures i !in Waiting(m) ==> i !in Waiting(Step(m, l))
  {
    hide OutStep, LeaveStep, JoinStep, TearStep;
    InvariantSafe(m);
    OthersWait(m, l);
    if l.Cast? {
      if i in Waiting(m) { WaitingServed(m, i); }
      hide Invariant, Safe;
      CastSettles(m, l.b, i);
    } else {
      hide Invariant, Safe, Step;
    }
  }

  lemma OthersWait(m: State, l: Label)
    requires Safe(m) && m.mutex.Sending? && Enabled(m, l)
    ensures !l.Cast? ==> Step(m, l).mutex == m.mutex && Step(m, l).log == m.log
  {
    BroadcastAdvances(m, l);
    hide Safe, Step;
  }

  lemma CastSettles(m: State, b: Casting, i: nat)
    requires m.mutex.Sending? && CastEnabled(m, b) && b != Unlock && m.mutex.unvisited !! m.mutex.pending
    ensures var m' := CastStep(m, b);
      && m'.mutex.Sending? && m'.log == m.log
      && (Settles(m, b, i) <==> i in Waiting(m) && i !in Waiting(m'))
      && (i !in Waiting(m) ==> i !in Waiting(m'))
  {
    if b.Visit? { DeliverTurn(m.(mutex := Sending(m.mutex.unvisited - {b.s}, m.mutex.pending)), b.s); }
    if b.Send? { DeliverTurn(Served(m, b.s), b.s); }
    hide Deliver;
  }

  lemma DeliverTurn(m: State, i: nat)
    requires SubOk(m, i) && m.log != []
    ensures Deliver(m, i).mutex == m.mutex && Deliver(m, i).log == m.log
  {
  }

  lemma {:induction false} SettledOnce(m: State, ls: seq<Label>, i: nat)
    requires Invariant(m) && m.mutex.Sending? && Run(m, ls) && Cast(Unlock) !in ls
    ensures After(m, ls).mutex.Sending? && After(m, ls).log == m.log
    ensures Settlings(m, ls, i) == if i in Waiting(m) && i !in Waiting(After(m, ls)) then 1 else 0
    ensures i !in Waiting(m) ==> i !in Waiting(After(m, ls))
    decreases |ls|
  {
    if ls != [] {
      hide Invariant, Waiting, Settles, Enabled, Step;
      assert ls[0] in ls;
      StepSettles(m, ls[0], i);
      StepInvariant(m, ls[0]);
      SettledOnce(Step(m, ls[0]), ls[1..], i);
    }
  }

  /** From the lock to the unlock of one broadcast, each subscription in the table at the lock
      is settled exactly once, and no other one is. */
  lemma ServedOnce(m: State, v: string, ls: seq<Label>, i: nat)
    requires Reachable(m) && CastEnabled(m, Lock(v)) && Run(CastStep(m, Lock(v)), ls) && Cast(Unlock) !in ls
    requires CastEnabled(After(CastStep(m, Lock(v)), ls), Unlock)
    ensures Settlings(CastStep(m, Lock(v)), ls, i) == if Listed(m, i) then 1 else 0
  {
    ReachableInvariant(m);
    var m1 := CastStep(m, Lock(v));
    assert i in Waiting(m1) <==> Listed(m, i) by { InvariantSafe(m); hide Invariant; StoredListed(m, i); }
    hide Invariant, Reachable, Listed;
    assert m1 == Step(m, Cast(Lock(v)));
    StepInvariant(m, Cast(Lock(v)));
    SettledOnce(m1, ls, i);
  }

  // ---------- exactly who misses what ----------

  /** Broadcast `k` is done with `i` at this step without having reached it: `i` was cancelled
      and its sender left, or timed out, or it takes what it can and its channel was full. */
  predicate MissesNow(m: State, l: Label, i: nat, k: nat) {
    && |m.log| == k + 1 && i < |m.subs| && l.Cast?
    && match l.b
       case Visit(s) => s == i && m.subs[i].mode == BestEffort && SubOk(m, i) && !Ready(m.chans[m.subs[i].ch])
       case Depart(s) => s == i && m.subs[i].cancelled
       case Expire(s) => s == i && m.subs[i].mode == Timed
       case _ => false
  }

  ghost predicate Misses(m: State, ls: seq<Label>, i: nat, k: nat)
    requires Run(m, ls)
    decreases |ls|
  {
    ls != [] && (MissesNow(m, ls[0], i, k) || Misses(Step(m, ls[0]), ls[1..], i, k))
  }

  /** Broadcast `k` has not been settled for `i` yet: it has not begun, or waits on `i`. */
  predicate Unsettled(m: State, i: nat, k: nat) {
    |m.log| <= k || (|m.log| == k + 1 && i in Waiting(m))
  }

  /** A step settles broadcast `k` for a subscription in the table, reaching it or missing it,
      or leaves it open. */
  lemma StepUnsettled(m: State, l: Label, i: nat, k: nat)
    requires Invariant(m) && Enabled(m, l) && Unsettled(m, i, k) && Listed(m, i)
    ensures i < |Step(m, l).subs|
    ensures if Unsettled(Step(m, l), i, k) then !MissesNow(m, l, i, k)
            else Settled(Step(m, l), i, k) && (k in Step(m, l).subs[i].sent <==> !MissesNow(m, l, i, k))
  {
    InvariantSafe(m);
    if l.Cast? {
      CastUnsettled(m, l.b, i, k);
    } else {
      hide Invariant, Safe;
      OtherRecords(m, l, i);
      hide Step, Enabled;
    }
  }

  lemma CastUnsettled(m: State, b: Casting, i: nat, k: nat)
    requires Invariant(m) && CastEnabled(m, b) && Unsettled(m, i, k) && Listed(m, i)
    ensures var m' := CastStep(m, b);
      && i < |m'.subs|
      && if Unsettled(m', i, k) then !MissesNow(m, Cast(b), i, k)
         else Settled(m', i, k) && (k in m'.subs[i].sent <==> !MissesNow(m, Cast(b), i, k))
  {
    if b.Lock? {
      InvariantSafe(m);
      hide Invariant;
      StoredListed(m, i);
      hide Safe;
    } else if |m.log| == k + 1 && i in Waiting(m) {
      assert m.mutex.unvisited !! m.mutex.pending by { InvariantSafe(m); }
      if Settles(m, b, i) { ServedNow(m, b, i); }
      WaitingServed(m, i);
      hide Invariant;
      NotUnlocking(m, b, i);
      CastSettles(m, b, i);
      hide CastStep;
    } else {
      hide Invariant;
      CastWaits(m, b);
      CastRecords(m, b, i);
      CastLog(m, b);
      hide CastStep, CastEnabled;
    }
  }

  lemma CastLog(m: State, b: Casting)
    requires CastEnabled(m, b) && !b.Lock?
    ensures CastStep(m, b).log == m.log
  {
  }

  lemma NotUnlocking(m: State, b: Casting, i: nat)
    requires CastEnabled(m, b) && i in Waiting(m)
    ensures b != Unlock
  {
  }

  /** Over any run: once broadcast `k` is done with a subscription that was stored before it
      and is in the table at the end, the subscription has been sent it exactly if no step of
      the run was a miss. */
  lemma {:induction false} MissAlong(m: State, ls: seq<Label>, i: nat, k: nat)
    requires Invariant(m) && Run(m, ls) && Unsettled(m, i, k)
    requires var m' := After(m, ls); i < |m'.subs| && Listed(m', i) && m'.subs[i].storedAt <= k && Settled(m', i, k)
    ensures k in After(m, ls).subs[i].sent <==> !Misses(m, ls, i, k)
    decreases |ls|
  {
    if ls != [] {
      var m1, l := Step(m, ls[0]), ls[0];
      StepInvariant(m, l);
      FirstTurn(m, l, ls[1..], i, k);
      hide Invariant, Listed, MissesNow, Enabled, Step;
      if Unsettled(m1, i, k) {
        MissAlong(m1, ls[1..], i, k);
      } else {
        RunSettled(m1, ls[1..], i, k);
        SettledMissless(m1, ls[1..], i, k);
      }
    }
  }

  /** The first step of such a run. */
  lemma FirstTurn(m: State, l: Label, ls: seq<Label>, i: nat, k: nat)
    requires Invariant(m) && Enabled(m, l) && Invariant(Step(m, l)) && Run(Step(m, l), ls) && Unsettled(m, i, k)
    requires var m' := After(Step(m, l), ls); i < |m'.subs| && Listed(m', i) && m'.subs[i].storedAt <= k
    ensures if Unsettled(Step(m, l), i, k) then !MissesNow(m, l, i, k)
            else Settled(Step(m, l), i, k) && (k in Step(m, l).subs[i].sent <==> !MissesNow(m, l, i, k))
  {
    var m1 := Step(m, l);
    ListedBefore(m, l, ls, i);
    assert After(m1, ls).subs[i].stored by { RunInvariant(m1, ls); StoredAtEnd(After(m1, ls), i); }
    if i < |m.subs| && m.subs[i].stored {
      hide Invariant, Listed;
      StepUnsettled(m, l, i, k);
    } else {
      InvariantSafe(m);
      UnstoredWaits(m, i);
      hide Invariant, Safe, Listed, MissesNow;
      NotYetStored(m, l, i, k);
      UnstoredTurn(m, l, ls, i, k);
      hide Step, Enabled;
    }
  }

  lemma StoredAtEnd(m: State, i: nat)
    requires Invariant(m) && Listed(m, i)
    ensures m.subs[i].stored
  {
    InvariantSafe(m);
    hide Invariant;
    ListedStored(m, i);
  }

  /** What is in the table at the end was there ever since it was stored. */
  lemma ListedBefore(m: State, l: Label, ls: seq<Label>, i: nat)
    requires Invariant(m) && Enabled(m, l) && Invariant(Step(m, l)) && Run(Step(m, l), ls)
    requires Listed(After(Step(m, l), ls), i)
    ensures i < |m.subs| && m.subs[i].stored ==> Listed(m, i)
  {
    if Gone(m, i) {
      InvariantSafe(m);
      hide Invariant, Listed;
      StaysGone(m, l, i);
      SilentOnceGone(Step(m, l), ls, i);
    }
  }

  lemma UnstoredWaits(m: State, i: nat)
    requires Safe(m) && !(i < |m.subs| && m.subs[i].stored)
    ensures i !in Waiting(m)
  {
  }

  lemma NotYetStored(m: State, l: Label, i: nat, k: nat)
    requires i !in Waiting(m) && Enabled(m, l)
    ensures !MissesNow(m, l, i, k)
  {
  }

  /** A subscription stored later is stored after the broadcasts begun so far. */
  lemma UnstoredTurn(m: State, l: Label, ls: seq<Label>, i: nat, k: nat)
    requires Safe(m) && Enabled(m, l) && Invariant(Step(m, l)) && Run(Step(m, l), ls) && |m.log| <= k
    requires !(i < |m.subs| && m.subs[i].stored)
    requires var m' := After(Step(m, l), ls); i < |m'.subs| && m'.subs[i].stored && m'.subs[i].storedAt <= k
    ensures |Step(m, l).log| <= k
  {
    var m1 := Step(m, l);
    if i < |m1.subs| && m1.subs[i].stored {
      StoredAtNow(m, l, i);
      hide Step, Safe, Invariant, Run, After;
    } else {
      hide Step, Safe;
      StoredFrom(m1, ls, i);
    }
  }

  lemma {:induction false} StoredFrom(m: State, ls: seq<Label>, i: nat)
    requires Invariant(m) && Run(m, ls) && i < |After(m, ls).subs| && After(m, ls).subs[i].stored
    requires !(i < |m.subs| && m.subs[i].stored)
    ensures |m.log| <= After(m, ls).subs[i].storedAt
    decreases |ls|
  {
    if ls != [] {
      var m1 := Step(m, ls[0]);
      InvariantSafe(m);
      StepInvariant(m, ls[0]);
      StepGrown(m, ls[0]);
      RunGrown(m1, ls[1..]);
      hide Invariant;
      if i < |m1.subs| && m1.subs[i].stored {
        StoredAtNow(m, ls[0], i);
      } else {
        hide Safe, Step, Enabled;
        StoredFrom(m1, ls[1..], i);
      }
    }
  }

  lemma StoredAtNow(m: State, l: Label, i: nat)
    requires Safe(m) && Enabled(m, l) && !(i < |m.subs| && m.subs[i].stored)
    requires i < |Step(m, l).subs| && Step(m, l).subs[i].stored
    ensures Step(m, l).subs[i].storedAt == |m.log| == |Step(m, l).log|
  {
    StepExtends(m, l);
    if i < |m.subs| { StoredNow(m, l, i); }
    hide Safe;
  }

  /** Once settled, nothing more is missed. */
  lemma {:induction false} SettledMissless(m: State, ls: seq<Label>, i: nat, k: nat)
    requires Run(m, ls) && Settled(m, i, k)
    ensures !Misses(m, ls, i, k)
    decreases |ls|
  {
    if ls != [] {
      StepSettled(m, ls[0], i, k);
      hide Step;
      SettledMissless(Step(m, ls[0]), ls[1..], i, k);
    }
  }

  /** From the start: a subscription in the table has been sent a broadcast begun since its
      store, and done with it, exactly if it never missed it. */
  lemma MissExactly(ls: seq<Label>, i: nat, k: nat)
    requires Run(Initial, ls)
    requires var m := After(Initial, ls); i < |m.subs| && Listed(m, i) && m.subs[i].storedAt <= k && Settled(m, i, k)
    ensures k in After(Initial, ls).subs[i].sent <==> !Misses(Initial, ls, i, k)
  {
    MissAlong(Initial, ls, i, k);
  }

  /** Consumers let blocked senders go: after a receive, or with a receiver waiting, the
      channel takes another value. */
  lemma ConsumerReleases(m: State, l: Outside)
    requires Reachable(m) && OutEnabled(m, l) && (l.Receive? || l.Park?)
    ensures l.c < |OutStep(m, l).chans| && Ready(OutStep(m, l).chans[l.c])
    ensures l.Receive? ==> OutStep(m, l).chans[l.c].taken == m.chans[l.c].taken + 1
  {
    ReachableInvariant(m);
    FitsAt(m, l.c);
    hide Invariant;
  }

  lemma FitsAt(m: State, c: nat)
    requires Invariant(m) && c < |m.chans|
    ensures Fits(m.chans[c])
  {
    hide Safe, Ordered, Live, Complete, Streams, Passes;
  }
}
