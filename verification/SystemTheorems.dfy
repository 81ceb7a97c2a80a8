/** What the whole machine guarantees in every reachable state of every interleaving. */
module SystemTheorems {
  import opened Basics
  import opened SystemProtocol
  import opened SystemLocks
  import opened SystemHistory
  import opened SystemStream
  import opened SystemEcho
  import opened SystemProjection
  import B = BroadcastProtocol
  import S = BroadcastSafety
  import D = BroadcastDelivery
  import W = BroadcastStreams
  import T = BroadcastTheorems
  import P = BroadcastPlaces

  // ---------- the invariant of the whole ----------

  ghost predicate Whole(s: System) {
    T.Invariant(s.mgr) && Locks(s) && Story(s) && Echo(s)
  }

  lemma StepMgr(s: System, l: Label)
    requires T.Invariant(s.mgr) && Enabled(s, l)
    ensures T.Invariant(Step(s, l).mgr)
  {
    hide T.Invariant;
    ProjectStep(s, l);
    hide Enabled, Step, MgrLabels;
    T.RunInvariant(s.mgr, MgrLabels(s, l));
  }

  lemma StepWhole(s: System, l: Label)
    requires Whole(s) && Enabled(s, l)
    ensures Whole(Step(s, l))
  {
    hide T.Invariant, Locks, Story, Echo;
    assert S.Safe(s.mgr) by { T.InvariantSafe(s.mgr); }
    StepMgr(s, l);
    StepLocks(s, l);
    StepStory(s, l);
    StepEcho(s, l);
  }

  lemma {:induction false} RunWhole(s: System, ls: seq<Label>)
    requires Whole(s) && Run(s, ls)
    ensures Whole(After(s, ls))
    decreases |ls|
  {
    hide Whole;
    if ls != [] {
      StepWhole(s, ls[0]);
      RunWhole(Step(s, ls[0]), ls[1..]);
    }
  }

  lemma InitMgr()
    ensures T.Invariant(B.Initial)
  {
  }

  lemma InitStory(s: System)
    requires Init(s)
    ensures Locks(s) && Story(s)
  {
  }

  lemma InitEcho(s: System)
    requires Init(s)
    ensures Echo(s)
  {
  }

  lemma InitWhole(s: System)
    requires Init(s)
    ensures Whole(s)
  {
    hide T.Invariant, Locks, Story, Echo;
    InitMgr();
    InitStory(s);
    InitEcho(s);
  }

  lemma ReachableWhole(s: System)
    requires Reachable(s)
    ensures Whole(s)
  {
    var s0, ls :| Init(s0) && Run(s0, ls) && After(s0, ls) == s;
    InitWhole(s0);
    RunWhole(s0, ls);
  }

  // ---------- the subscriber's stream ----------

  /** The states at the given positions of the history. */
  function StatesAt(s: System, idx: seq<nat>): seq<string>
    requires forall k :: 0 <= k < |idx| ==> idx[k] <= |s.commits|
  {
    seq(|idx|, k requires 0 <= k < |idx| => State(s, idx[k]))
  }

  /** What is known of a subscription when its Subscribe call has returned. */
  ghost predicate Subbed(s: System, i: nat) {
    && LogTail(s) && i < |s.mgr.subs| == |s.base| && s.mgr.subs[i].ch < |s.mgr.chans|
    && s.base[i] <= |s.commits| && s.base[i] == Skipped(s) + s.mgr.subs[i].storedAt
    && s.mgr.subs[i].first == [State(s, s.base[i])] && D.RecordOk(s.mgr.subs[i], |s.mgr.log|)
    && s.mgr.subs[i].stored && s.mgr.subs[i].mode == s.delivery
    && W.Woven(s.mgr, s.mgr.subs[i].ch) && W.Fits(s.mgr.chans[s.mgr.subs[i].ch])
    && (D.Alone(s.mgr, i) ==> s.mgr.chans[s.mgr.subs[i].ch].flow == W.Told(s.mgr, i))
  }

  lemma SubbedNow(s: System, t: nat, i: nat)
    requires Reachable(s) && t < |s.threads| && s.threads[t].pc == Done(Subscribed(i))
    ensures Subbed(s, i) && s.threads[t].op == Subscribe(s.mgr.subs[i].ch) && s.threads[t].born <= s.base[i]
  {
    ReachableWhole(s);
    hide Reachable, Whole, Skipped, LogTail, D.RecordOk, W.Fits, W.Woven, D.Alone, W.Told, State;
    Returned(s, t, i);
    BaseOf(s, i);
    MgrOf(s, i);
  }

  lemma BaseOf(s: System, i: nat)
    requires Whole(s) && i < |s.mgr.subs|
    ensures LogTail(s) && |s.base| == |s.mgr.subs| && s.mgr.subs[i].stored
      && s.base[i] == Skipped(s) + s.mgr.subs[i].storedAt
  {
  }

  lemma CallerOf(s: System, t: nat)
    requires Whole(s) && t < |s.threads|
    ensures Greeted(s, t)
  {
    hide T.Invariant, Locks, Story;
  }

  lemma Returned(s: System, t: nat, i: nat)
    requires Whole(s) && t < |s.threads| && s.threads[t].pc == Done(Subscribed(i))
    ensures i < |s.mgr.subs| && i < |s.base| && s.threads[t].op == Subscribe(s.mgr.subs[i].ch)
    ensures s.threads[t].born <= s.base[i] <= |s.commits| && s.mgr.subs[i].mode == s.delivery
      && s.mgr.subs[i].first == [State(s, s.base[i])]
  {
    hide Whole, State;
    CallerOf(s, t);
  }

  lemma MgrOf(s: System, i: nat)
    requires Whole(s) && i < |s.mgr.subs|
    ensures s.mgr.subs[i].ch < |s.mgr.chans| && D.RecordOk(s.mgr.subs[i], |s.mgr.log|)
    ensures W.Woven(s.mgr, s.mgr.subs[i].ch) && W.Fits(s.mgr.chans[s.mgr.subs[i].ch])
    ensures D.Alone(s.mgr, i) ==> s.mgr.chans[s.mgr.subs[i].ch].flow == W.Told(s.mgr, i)
  {
    assert s.mgr.subs[i].ch < |s.mgr.chans| by { W.OnChannels(s.mgr); }
    hide Locks, Story, Echo, D.Live, D.Complete, T.Passes, D.RecordOk, W.Woven;
    if D.Alone(s.mgr, i) { W.AloneOnChannel(s.mgr, i); }
  }

  /** Where in the history the values sent to subscription `i` come from. */
  ghost function Positions(s: System, i: nat): (idx: seq<nat>)
    requires Subbed(s, i)
    ensures |idx| == |s.mgr.subs[i].sent| + 1 && idx[0] == s.base[i]
    ensures forall k :: 0 <= k < |idx| ==> idx[k] <= |s.commits|
  {
    var sent := s.mgr.subs[i].sent;
    [s.base[i]] + seq(|sent|, k requires 0 <= k < |sent| => Skipped(s) + sent[k] + 1)
  }

  lemma PositionsRise(s: System, i: nat)
    requires Subbed(s, i)
    ensures D.Rising(Positions(s, i))
  {
    hide LogTail;
  }

  lemma ToldPositions(s: System, i: nat)
    requires Subbed(s, i)
    ensures W.Told(s.mgr, i) == StatesAt(s, Positions(s, i))
  {
    hide LogTail;
    var idx, x := Positions(s, i), s.mgr.subs[i];
    forall k | 0 <= k < |idx| ensures W.Told(s.mgr, i)[k] == StatesAt(s, idx)[k] {
      if k > 0 { LogState(s, x.sent[k - 1]); }
    }
  }

  /** Broadcast `k` carries the state at position `Skipped + k + 1`. */
  lemma LogState(s: System, k: nat)
    requires LogTail(s) && k < |s.mgr.log|
    ensures 0 <= Skipped(s) && Skipped(s) + k < |s.commits| && s.mgr.log[k] == State(s, Skipped(s) + k + 1)
  {
  }

  /** When Subscribe has returned nil, all that its subscription was ever sent is a
      subsequence of the history that begins with the state current at some moment during
      the call. Its channel carries an interleaving of what its subscriptions were sent; if
      no other Subscribe call named it, that stream and nothing else, of which the consumer
      has received a first part. */
  lemma SubscriberStream(s: System, t: nat, i: nat) returns (idx: seq<nat>)
    requires Reachable(s) && t < |s.threads| && s.threads[t].pc == Done(Subscribed(i))
    ensures i < |s.base| == |s.mgr.subs| && s.threads[t].op == Subscribe(s.mgr.subs[i].ch)
      && s.mgr.subs[i].ch < |s.mgr.chans|
    ensures s.threads[t].born <= s.base[i] <= |s.commits|
    ensures idx != [] && idx[0] == s.base[i] && D.Rising(idx) && forall k :: 0 <= k < |idx| ==> idx[k] <= |s.commits|
    ensures W.Told(s.mgr, i) == StatesAt(s, idx) && W.Woven(s.mgr, s.mgr.subs[i].ch)
    ensures D.Alone(s.mgr, i) ==>
      var c := s.mgr.chans[s.mgr.subs[i].ch];
      c.flow == StatesAt(s, idx) && c.taken <= |idx| && c.flow[..c.taken] == StatesAt(s, idx[..c.taken])
  {
    SubbedNow(s, t, i);
    PositionsRise(s, i);
    ToldPositions(s, i);
    idx := Positions(s, i);
    hide LogTail, Positions, D.RecordOk, W.Told, StatesAt, D.Rising;
  }

  /** With guaranteed delivery, an uncancelled subscription that is in the table has been
      sent the history from its subscription on, whole, whenever the write lock is free. */
  lemma NoGaps(s: System, t: nat, i: nat)
    requires Reachable(s) && t < |s.threads| && s.threads[t].pc == Done(Subscribed(i))
    requires i < |s.mgr.subs| && S.Listed(s.mgr, i)
    requires s.delivery == B.Guaranteed && !s.mgr.subs[i].cancelled && s.writer == None
    ensures i < |s.base| && s.base[i] <= |s.commits|
    ensures W.Told(s.mgr, i) == History(s)[s.base[i]..]
  {
    SubbedNow(s, t, i);
    ToldPositions(s, i);
    ReachableWhole(s);
    AllSent(s, i);
    WholeHistory(s, i);
  }

  /** Which is so for every run in which no other subscription of the channel was stored or
      removed since: whatever the channel was used for before. */
  lemma NoGapsUndisplaced(s0: System, ls: seq<Label>, t: nat, i: nat)
    requires Init(s0) && Run(s0, ls) && t < |After(s0, ls).threads|
    requires var s := After(s0, ls);
      && s.threads[t].pc == Done(Subscribed(i)) && s.delivery == B.Guaranteed && s.writer == None
      && i < |s.mgr.subs| && !s.mgr.subs[i].cancelled
    requires Undisplaced(s0, ls, i)
    ensures var s := After(s0, ls);
      i < |s.base| && s.base[i] <= |s.commits| && W.Told(s.mgr, i) == History(s)[s.base[i]..]
  {
    var s := After(s0, ls);
    assert Reachable(s);
    SubbedNow(s, t, i);
    ProjectRun(s0, ls);
    hide Reachable, Run, After, Project, Subbed;
    assert s.mgr.subs[i].stored by { StoredSub(s, t, i); }
    P.PlaceExactly(Project(s0, ls), i);
    NoGaps(s, t, i);
  }

  lemma StoredSub(s: System, t: nat, i: nat)
    requires Reachable(s) && t < |s.threads| && s.threads[t].pc == Done(Subscribed(i)) && i < |s.mgr.subs|
    ensures s.mgr.subs[i].stored
  {
    SubbedNow(s, t, i);
  }

  /** And if no other Subscribe call ever named the channel, that is all it carries. */
  lemma NoGapsAlone(s: System, t: nat, i: nat)
    requires Reachable(s) && t < |s.threads| && s.threads[t].pc == Done(Subscribed(i))
    requires i < |s.mgr.subs| && D.Alone(s.mgr, i)
    requires s.delivery == B.Guaranteed && !s.mgr.subs[i].cancelled && s.writer == None
    ensures i < |s.base| && s.base[i] <= |s.commits| && s.mgr.subs[i].ch < |s.mgr.chans|
    ensures s.mgr.chans[s.mgr.subs[i].ch].flow == History(s)[s.base[i]..]
  {
    SubbedNow(s, t, i);
    ReachableMgr(s);
    T.AloneListed(s.mgr, i);
    NoGaps(s, t, i);
  }

  lemma AllSent(s: System, i: nat)
    requires T.Invariant(s.mgr) && Locks(s) && i < |s.mgr.subs| && S.Listed(s.mgr, i) && s.writer == None
    requires s.mgr.subs[i].mode == B.Guaranteed && !s.mgr.subs[i].cancelled
    ensures D.SentAll(s.mgr.subs[i], |s.mgr.log|) && |s.mgr.log| + Skipped(s) == |s.commits|
  {
    assert !s.mgr.mutex.Sending?;
    hide Locks, D.Ordered, D.Live, W.Streams, T.Passes, S.Safe;
    assert D.SentAll(s.mgr.subs[i], D.Due(s.mgr, i));
  }

  lemma WholeHistory(s: System, i: nat)
    requires Subbed(s, i) && D.SentAll(s.mgr.subs[i], |s.mgr.log|) && |s.mgr.log| + Skipped(s) == |s.commits|
    ensures StatesAt(s, Positions(s, i)) == History(s)[s.base[i]..]
  {
    hide LogTail, Skipped;
    var idx, h := Positions(s, i), History(s)[s.base[i]..];
    assert |idx| == |h|;
    forall k | 0 <= k < |idx| ensures StatesAt(s, idx)[k] == h[k] {
      assert idx[k] == s.base[i] + k;
    }
  }
}
