/** What the broadcast protocol guarantees in every reachable state, and how a broadcast
    and an UnsubscribeAll come to an end. */
module BroadcastTheorems {
  import opened Basics
  import opened BroadcastProtocol
  import opened BroadcastSafety
  import opened BroadcastDelivery
  import opened BroadcastStreams

  // ---------- the first pass of UnsubscribeAll ----------

  /** Broadcast number `k` is the one holding the mutex. */
  predicate Held(m: State, k: nat) { m.mutex.Sending? && |m.log| == k + 1 }

  ghost predicate AllCancelled(m: State, ss: set<nat>) {
    forall s | s in ss :: s < |m.subs| && m.subs[s].cancelled
  }

  /** A pass signals only; while the broadcast it began behind still holds the mutex, it has
      every entry of the table to meet, and once over it has met them all. */
  ghost predicate PassOk(m: State, t: Teardown) {
    match t
    case FirstPass(present, seen, behind) =>
      && AllCancelled(m, seen)
      && (behind.Some? ==> behind.value < |m.log| && (Held(m, behind.value) ==> Stored(m) <= present))
    case Contending(behind) =>
      behind.Some? ==> behind.value < |m.log| && (Held(m, behind.value) ==> AllCancelled(m, Stored(m)))
    case _ => true
  }

  ghost predicate Passes(m: State) {
    forall u | 0 <= u < |m.teardowns| :: PassOk(m, m.teardowns[u])
  }

  lemma PassesKept(m: State, m': State)
    requires Passes(m) && Extends(m, m')
    requires forall k: nat | k < |m.log| && Held(m', k) :: Held(m, k) && m'.table == m.table
    requires |m'.teardowns| == |m.teardowns| && forall u | 0 <= u < |m.teardowns| ::
      m'.teardowns[u] == m.teardowns[u] || PassOk(m', m'.teardowns[u])
    ensures Passes(m')
  {
    forall u | 0 <= u < |m'.teardowns| ensures PassOk(m', m'.teardowns[u]) {
      assert PassOk(m, m.teardowns[u]);
    }
  }

  lemma StepPasses(m: State, l: Label)
    requires Safe(m) && Passes(m) && Enabled(m, l)
    ensures Passes(Step(m, l))
  {
    hide Safe, Passes;
    StepExtends(m, l);
    match l
    case Join(j) => JoinPasses(m, j);
    case Leave(v) => LeavePasses(m, v);
    case Cast(b) => CastPasses(m, b);
    case Tear(t) => TearPasses(m, t);
    case Out(o) => PassesKept(m, OutStep(m, o));
  }

  lemma JoinPasses(m: State, l: Joining)
    requires Safe(m) && Passes(m) && JoinEnabled(m, l) && Extends(m, JoinStep(m, l))
    ensures Passes(JoinStep(m, l))
  {
    PassesKept(m, JoinStep(m, l));
  }

  lemma LeavePasses(m: State, l: Leaving)
    requires Safe(m) && Passes(m) && LeaveEnabled(m, l) && Extends(m, LeaveStep(m, l))
    ensures Passes(LeaveStep(m, l))
  {
    PassesKept(m, LeaveStep(m, l));
  }

  lemma CastPasses(m: State, l: Casting)
    requires Safe(m) && Passes(m) && CastEnabled(m, l) && Extends(m, CastStep(m, l))
    ensures Passes(CastStep(m, l))
  {
    CastExtends(m, l);
    PassesKept(m, CastStep(m, l));
  }

  lemma TearPasses(m: State, l: Tearing)
    requires Safe(m) && Passes(m) && TearEnabled(m, l) && Extends(m, TearStep(m, l))
    ensures Passes(TearStep(m, l))
  {
    match l
    case TearBegin => BeginPasses(m);
    case Signal(u, s) => SignalPasses(m, u, s);
    case SignalEnd(u) => SignalEndPasses(m, u);
    case _ => PassesKept(m, TearStep(m, l));
  }

  lemma BeginPasses(m: State)
    requires Safe(m) && Passes(m)
    ensures Passes(TearStep(m, TearBegin))
  {
    var m' := TearStep(m, TearBegin);
    forall u | 0 <= u < |m'.teardowns| ensures PassOk(m', m'.teardowns[u]) {
      if u < |m.teardowns| { assert m'.teardowns[u] == m.teardowns[u] && PassOk(m, m.teardowns[u]); }
    }
  }

  lemma SignalPasses(m: State, u: nat, s: nat)
    requires Safe(m) && Passes(m) && TearEnabled(m, Signal(u, s)) && Extends(m, TearStep(m, Signal(u, s)))
    ensures Passes(TearStep(m, Signal(u, s)))
  {
    assert PassOk(m, m.teardowns[u]);
    PassesKept(m, TearStep(m, Signal(u, s)));
  }

  lemma SignalEndPasses(m: State, u: nat)
    requires Safe(m) && Passes(m) && TearEnabled(m, SignalEnd(u)) && Extends(m, TearStep(m, SignalEnd(u)))
    ensures Passes(TearStep(m, SignalEnd(u)))
  {
    assert PassOk(m, m.teardowns[u]);
    var t := m.teardowns[u];
    assert t.present * Stored(m) <= t.seen;
    assert Stored(m) <= t.present ==> Stored(m) <= t.seen;
    PassesKept(m, TearStep(m, SignalEnd(u)));
  }

  // ---------- reachable states ----------

  ghost predicate Invariant(m: State) {
    Safe(m) && Ordered(m) && Live(m) && Complete(m) && Streams(m) && Passes(m) && Buffered(m)
  }

  lemma StepInvariant(m: State, l: Label)
    requires Invariant(m) && Enabled(m, l)
    ensures Invariant(Step(m, l))
  {
    hide Safe, Ordered, Live, Complete, Streams, Passes, Buffered;
    StepSafe(m, l);
    StepOrdered(m, l);
    StepLive(m, l);
    StepComplete(m, l);
    StepStreams(m, l);
    StepPasses(m, l);
    StepBuffered(m, l);
  }

  lemma {:induction false} RunInvariant(m: State, ls: seq<Label>)
    requires Invariant(m) && Run(m, ls)
    ensures Invariant(After(m, ls))
    decreases |ls|
  {
    hide Invariant;
    if ls != [] {
      StepInvariant(m, ls[0]);
      RunInvariant(Step(m, ls[0]), ls[1..]);
    }
  }

  ghost predicate Reachable(m: State) {
    exists ls :: Run(Initial, ls) && After(Initial, ls) == m
  }

  /** Every reachable state of every interleaving satisfies the invariant. */
  lemma ReachableInvariant(m: State)
    requires Reachable(m)
    ensures Invariant(m)
  {
    var ls :| Run(Initial, ls) && After(Initial, ls) == m;
    RunInvariant(Initial, ls);
  }

  /** No send on, and no second close of, a closed channel ever happens; callers' channels
      are never closed by the manager; and with no removal under way an owned, stored
      channel is closed exactly when it is out of the table. */
  lemma ChannelSafety(m: State)
    requires Reachable(m)
    ensures !m.panicked && forall i | 0 <= i < |m.subs| :: m.subs[i].ch < |m.chans|
    ensures forall c | 0 <= c < |m.chans| && !m.chans[c].owned :: m.chans[c].closed != ByManager
    ensures forall i | 0 <= i < |m.subs| && !m.subs[i].external && !m.subs[i].stored ::
      m.chans[m.subs[i].ch].closed == Open
    ensures !m.mutex.Closing? && !m.mutex.Draining? ==>
      forall i | 0 <= i < |m.subs| && !m.subs[i].external && m.subs[i].stored ::
        m.chans[m.subs[i].ch].closed == ByManager <==> m.subs[i].ch !in m.table
  {
    ReachableInvariant(m);
  }

  /** Every value on a channel was sent on behalf of one of its subscriptions, and of what
      was sent to each of them, in order, the consumers have received a first part. What they
      have not received yet fits the channel's buffer. */
  lemma ReceivedInOrder(m: State, c: nat) returns (tags: seq<nat>)
    requires Reachable(m) && c < |m.chans|
    ensures Weave(m, c, tags)
    ensures m.chans[c].taken <= |tags| <= m.chans[c].taken + m.chans[c].capacity
    ensures var ch := m.chans[c];
      forall i | 0 <= i < |m.subs| && m.subs[i].ch == c ::
        Strand(ch.flow[..ch.taken], tags[..ch.taken], i) <= Told(m, i)
  {
    ReachableInvariant(m);
    ChannelWoven(m, c);
    hide Invariant, Strand, Told;
    var ch := m.chans[c];
    tags :| Weave(m, c, tags);
    forall i | 0 <= i < |m.subs| && m.subs[i].ch == c
      ensures Strand(ch.flow[..ch.taken], tags[..ch.taken], i) <= Told(m, i)
    {
      StrandFront(ch.flow, tags, i, ch.taken);
    }
  }

  lemma ChannelWoven(m: State, c: nat)
    requires Invariant(m) && c < |m.chans|
    ensures Woven(m, c) && Fits(m.chans[c])
  {
    hide Safe, Ordered, Live, Complete, Passes, Woven;
  }

  /** On a channel named once that is simply a first part of the greeting and broadcasts. */
  lemma ReceivedAlone(m: State, i: nat)
    requires Reachable(m) && i < |m.subs| && Alone(m, i)
    ensures m.subs[i].ch < |m.chans|
    ensures var c := m.chans[m.subs[i].ch];
      c.taken <= |c.flow| <= c.taken + c.capacity && c.flow == Told(m, i) && c.flow[..c.taken] <= Told(m, i)
  {
    ReachableInvariant(m);
    assert m.subs[i].ch < |m.chans| by { OnChannels(m); }
    ChannelWoven(m, m.subs[i].ch);
    hide Safe, Ordered, Live, Complete, Passes;
    AloneOnChannel(m, i);
  }

  /** Two subscriptions never see two broadcasts in opposite orders. */
  lemma TotalOrder(m: State, i: nat, j: nat, a: nat, b: nat, c: nat, d: nat)
    requires Reachable(m) && i < |m.subs| && j < |m.subs|
    requires a < b < |m.subs[i].sent| && c < |m.subs[j].sent| && d < |m.subs[j].sent|
    requires m.subs[i].sent[a] == m.subs[j].sent[c] && m.subs[i].sent[b] == m.subs[j].sent[d]
    ensures c < d
  {
    hide Safe, Live, Complete, Streams, Passes;
    ReachableInvariant(m);
    assert RecordOk(m.subs[i], |m.log|) && RecordOk(m.subs[j], |m.log|);
    assert m.subs[i].sent[a] < m.subs[i].sent[b];
  }

  /** A guaranteed subscription in the table and not cancelled has been sent every broadcast
      since it was stored, whenever no broadcast holds the mutex. */
  lemma GuaranteedDelivery(m: State, i: nat)
    requires Reachable(m) && i < |m.subs| && !m.mutex.Sending?
    requires Listed(m, i) && m.subs[i].mode == Guaranteed && !m.subs[i].cancelled
    ensures m.subs[i].storedAt <= |m.log|
    ensures m.subs[i].sent == seq(|m.log| - m.subs[i].storedAt, k requires k >= 0 => m.subs[i].storedAt + k)
  {
    ReachableInvariant(m);
    hide Safe, Live, Ordered, Streams, Passes, Buffered;
    assert SentAll(m.subs[i], Due(m, i));
  }

  /** A stored, uncancelled subscription alone on its channel is in the table. */
  lemma AloneListed(m: State, i: nat)
    requires Reachable(m) && i < |m.subs| && m.subs[i].stored && !m.subs[i].cancelled && Alone(m, i)
    ensures Listed(m, i)
  {
    ReachableInvariant(m);
    hide Safe, Complete, Ordered, Streams, Passes, Buffered;
  }

  // ---------- progress of a broadcast ----------

  function Remaining(m: State): nat
    requires m.mutex.Sending?
  {
    2 * |m.mutex.unvisited| + |m.mutex.pending|
  }

  /** A broadcast's own steps lower the measure; nobody else's step touches it. */
  lemma BroadcastAdvances(m: State, l: Label)
    requires Safe(m) && m.mutex.Sending? && Enabled(m, l)
    ensures l == Cast(Unlock) ==> Remaining(m) == 0 && Step(m, l).mutex == Free
    ensures l.Cast? && l != Cast(Unlock) ==> Step(m, l).mutex.Sending? && Remaining(Step(m, l)) < Remaining(m)
    ensures !l.Cast? ==> Step(m, l).mutex == m.mutex && Step(m, l).log == m.log
  {
    if l.Cast? {
      CastAdvances(m, l.b);
    }
  }

  lemma CastAdvances(m: State, b: Casting)
    requires Safe(m) && m.mutex.Sending? && CastEnabled(m, b)
    ensures b == Unlock ==> Remaining(m) == 0
    ensures b != Unlock ==> CastStep(m, b).mutex.Sending? && Remaining(CastStep(m, b)) < Remaining(m)
  {
    if b.Visit? { assert m.mutex.unvisited == m.mutex.unvisited - {b.s} + {b.s}; }
    if b.Send? || b.Depart? || b.Expire? { assert m.mutex.pending == m.mutex.pending - {b.s} + {b.s}; }
  }

  /** A pending send that can neither happen, nor be abandoned, nor time out. */
  predicate Blocked(m: State, s: nat) {
    SubOk(m, s) && m.subs[s].mode != Timed && !m.subs[s].cancelled && !Ready(m.chans[m.subs[s].ch])
  }

  /** A broadcast is stuck exactly when everyone has been visited and only uncancelled
      guaranteed subscribers on full channels are left. */
  lemma StuckExactly(m: State)
    requires Safe(m) && m.mutex.Sending?
    ensures (forall b :: !CastEnabled(m, b)) <==>
      m.mutex.unvisited == {} && m.mutex.pending != {} && forall s | s in m.mutex.pending :: Blocked(m, s)
  {
    if m.mutex.unvisited == {} && m.mutex.pending != {} && forall s | s in m.mutex.pending :: Blocked(m, s) {
      forall b ensures !CastEnabled(m, b) {
        if b.Send? && b.s in m.mutex.pending { ListedOpen(m, b.s); }
      }
    }
    if forall b :: !CastEnabled(m, b) {
      assert !CastEnabled(m, Unlock);
      assert forall s | s in m.mutex.unvisited :: Listed(m, s) && !CastEnabled(m, Visit(s));
      forall s | s in m.mutex.pending ensures Blocked(m, s) {
        ListedOpen(m, s);
        assert !CastEnabled(m, Send(s)) && !CastEnabled(m, Depart(s)) && !CastEnabled(m, Expire(s));
      }
    }
  }

  /** Once everyone it still waits on is cancelled, a broadcast can finish by itself: every
      pending sender can step at once, and there is a run of its own steps to the unlock. */
  lemma {:induction false} ReleasedFinishes(m: State) returns (ls: seq<Label>)
    requires Invariant(m) && m.mutex.Sending? && AllCancelled(m, Waiting(m))
    ensures forall s | s in m.mutex.pending :: CastEnabled(m, Depart(s))
    ensures forall l | l in ls :: l.Cast?
    ensures Run(m, ls) && After(m, ls).mutex == Free && |ls| <= Remaining(m) + 1
    decreases Remaining(m)
  {
    TurnReady(m);
    hide Invariant, AllCancelled, Waiting;
    if m.mutex.pending != {} {
      var s :| s in m.mutex.pending;
      ls := ReleasedTurn(m, Depart(s));
    } else if m.mutex.unvisited != {} {
      var s :| s in m.mutex.unvisited;
      ls := ReleasedTurn(m, Visit(s));
    } else {
      ls := [Cast(Unlock)];
      assert Run(Step(m, ls[0]), ls[1..]);
    }
  }

  lemma TurnReady(m: State)
    requires Invariant(m) && m.mutex.Sending? && AllCancelled(m, Waiting(m))
    ensures forall s | s in m.mutex.pending :: CastEnabled(m, Depart(s))
    ensures forall s | s in m.mutex.unvisited :: CastEnabled(m, Visit(s))
  {
    InvariantSafe(m);
    hide Invariant;
    forall s | s in m.mutex.pending ensures CastEnabled(m, Depart(s)) { assert Listed(m, s) && s in Waiting(m); }
    forall s | s in m.mutex.unvisited ensures CastEnabled(m, Visit(s)) { assert Listed(m, s); }
  }

  lemma {:induction false} ReleasedTurn(m: State, b: Casting) returns (ls: seq<Label>)
    requires Invariant(m) && m.mutex.Sending? && AllCancelled(m, Waiting(m))
    requires CastEnabled(m, b) && (b.Depart? || b.Visit?)
    ensures forall l | l in ls :: l.Cast?
    ensures Run(m, ls) && After(m, ls).mutex == Free && |ls| <= Remaining(m) + 1
    decreases Remaining(m), 0
  {
    hide Invariant, AllCancelled, Waiting, CastStep, CastEnabled, Remaining;
    StepInvariant(m, Cast(b));
    ReleasedNext(m, b);
    var rest := ReleasedFinishes(Step(m, Cast(b)));
    ls := [Cast(b)] + rest;
    assert ls[1..] == rest;
  }

  lemma ReleasedNext(m: State, b: Casting)
    requires Invariant(m) && m.mutex.Sending? && AllCancelled(m, Waiting(m))
    requires CastEnabled(m, b) && (b.Depart? || b.Visit?)
    ensures var m' := CastStep(m, b);
      m'.mutex.Sending? && Remaining(m') < Remaining(m) && AllCancelled(m', Waiting(m'))
  {
    hide Invariant;
    InvariantSafe(m);
    CastAdvances(m, b);
    CastExtends(m, b);
    WaitingShrinks(m, b);
    hide Safe, Waiting;
  }

  lemma InvariantSafe(m: State)
    requires Invariant(m)
    ensures Safe(m)
  {
  }

  lemma WaitingShrinks(m: State, b: Casting)
    requires CastEnabled(m, b) && (b.Depart? || b.Visit?)
    ensures Waiting(CastStep(m, b)) <= Waiting(m)
  {
  }

  /** The first pass takes no mutex; when it is over, a broadcast that held the mutex
      throughout it waits only on cancelled subscriptions, and so can finish. */
  lemma FirstPassReleases(m: State, u: nat, k: nat) returns (ls: seq<Label>)
    requires Reachable(m) && u < |m.teardowns| && m.teardowns[u] == Contending(Some(k)) && Held(m, k)
    ensures AllCancelled(m, Waiting(m))
    ensures (forall l | l in ls :: l.Cast?) && Run(m, ls) && After(m, ls).mutex == Free
  {
    ReachableInvariant(m);
    assert PassOk(m, m.teardowns[u]);
    forall s | s in Waiting(m) ensures s in Stored(m) { assert Listed(m, s); }
    ls := ReleasedFinishes(m);
  }

  // ---------- the outcome of UnsubscribeAll ----------

  /** When the sweep unlocks, the table is empty; every subscription stored before the sweep
      took the mutex (none could be stored since) has its channel closed exactly if the
      manager owns it, and is cancelled if it was alone on its channel. */
  lemma SweepOutcome(m: State)
    requires Reachable(m) && TearEnabled(m, SweepUnlock)
    ensures var m' := TearStep(m, SweepUnlock);
      && m'.table == map[] && m'.mutex == Free
      && (forall i | 0 <= i < |m'.subs| :: m'.subs[i].ch < |m'.chans|)
      && (forall i | 0 <= i < |m'.subs| && m'.subs[i].stored ::
            (m'.chans[m'.subs[i].ch].closed == ByManager <==> !m'.subs[i].external))
      && (forall i | 0 <= i < |m'.subs| && m'.subs[i].stored && Alone(m', i) :: m'.subs[i].cancelled)
  {
    ReachableInvariant(m);
    assert forall c :: c !in m.table;
    var m' := TearStep(m, SweepUnlock);
    forall i | 0 <= i < |m'.subs| && m'.subs[i].stored && Alone(m', i) ensures m'.subs[i].cancelled {
      assert Alone(m, i);
    }
  }

  /** No subscription can be stored while a sweep holds the mutex. */
  lemma SweepExcludesStores(m: State, l: Label, i: nat)
    requires Safe(m) && m.mutex.Draining? && Enabled(m, l) && i < |m.subs|
    ensures |m.subs| <= |Step(m, l).subs| && Step(m, l).subs[i].stored == m.subs[i].stored
  {
    hide Safe, JoinStep, LeaveStep, CastStep, OutStep;
    match l
    case Join(j) => JoinExtends(m, j);
    case Leave(v) => LeaveExtends(m, v);
    case Cast(b) => CastExtends(m, b);
    case Tear(t) => SweepStores(m, t, i);
    case Out(o) => OutExtends(m, o);
  }

  lemma SweepStores(m: State, l: Tearing, i: nat)
    requires TearEnabled(m, l) && i < |m.subs|
    ensures |TearStep(m, l).subs| == |m.subs| && TearStep(m, l).subs[i].stored == m.subs[i].stored
  {
  }

  /** A callback that comes after its subscription's owned channel was closed, or that
      belongs to a caller's channel, closes nothing. */
  lemma LateCallback(m: State, s: nat)
    requires Reachable(m) && LeaveEnabled(m, Remove(s))
    requires m.subs[s].external || m.chans[m.subs[s].ch].closed == ByManager
    ensures var m' := LeaveStep(m, Remove(s)); m'.chans == m.chans && m'.mutex == Free
  {
    ReachableInvariant(m);
  }
}
