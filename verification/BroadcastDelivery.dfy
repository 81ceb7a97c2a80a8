/** What subscribers are sent: broadcasts reach every subscription in one common order, and
    a live guaranteed-delivery subscription misses none. */
module BroadcastDelivery {
  import opened BroadcastProtocol
  import opened BroadcastSafety

  // ---------- order ----------

  ghost predicate Rising(xs: seq<nat>) {
    forall i, j :: 0 <= i < j < |xs| ==> xs[i] < xs[j]
  }

  /** Deliveries to one subscription rise strictly, between its store and the last broadcast. */
  ghost predicate RecordOk(x: Sub, n: nat) {
    && (x.stored ==> x.storedAt <= n) && (!x.stored ==> x.sent == [])
    && Rising(x.sent) && forall k :: 0 <= k < |x.sent| ==> x.storedAt <= x.sent[k] < n
  }

  /** Subscriptions a broadcast still has to serve, or is waiting on. */
  function Waiting(m: State): set<nat> {
    if m.mutex.Sending? then m.mutex.unvisited + m.mutex.pending else {}
  }

  ghost predicate Unserved(x: Sub, n: nat) {
    x.stored && x.storedAt < n && forall k :: 0 <= k < |x.sent| ==> x.sent[k] < n - 1
  }

  ghost predicate Ordered(m: State) {
    && (forall i | 0 <= i < |m.subs| :: RecordOk(m.subs[i], |m.log|))
    && (forall s | s in Waiting(m) :: s < |m.subs| && Unserved(m.subs[s], |m.log|))
  }

  /** Steps that deliver nothing. */
  lemma RecordsKept(m: State, m': State)
    requires Ordered(m) && |m'.log| == |m.log| && |m'.subs| == |m.subs| && Waiting(m') <= Waiting(m)
    requires forall i | 0 <= i < |m.subs| ::
      && m'.subs[i].sent == m.subs[i].sent && m'.subs[i].stored == m.subs[i].stored
      && m'.subs[i].storedAt == m.subs[i].storedAt
    ensures Ordered(m')
  {
  }

  lemma DeliverOrdered(m: State, s: nat)
    requires SubOk(m, s) && m.log != [] && Ordered(m) && s !in Waiting(m) && Unserved(m.subs[s], |m.log|)
    ensures Ordered(Deliver(m, s))
  {
    var m' := Deliver(m, s);
    assert forall i | 0 <= i < |m.subs| && i != s :: m'.subs[i] == m.subs[i];
    assert RecordOk(m'.subs[s], |m'.log|);
  }

  lemma StepOrdered(m: State, l: Label)
    requires Safe(m) && Ordered(m) && Enabled(m, l)
    ensures Ordered(Step(m, l))
  {
    hide Safe, Ordered;
    match l
    case Join(j) => JoinOrdered(m, j);
    case Leave(v) => LeaveOrdered(m, v);
    case Cast(b) => CastOrdered(m, b);
    case Tear(t) => TearOrdered(m, t);
    case Out(o) => OutOrdered(m, o);
  }

  lemma JoinOrdered(m: State, l: Joining)
    requires Safe(m) && Ordered(m) && JoinEnabled(m, l)
    ensures Ordered(JoinStep(m, l))
  {
    hide Safe, Ordered;
    match l
    case Begin(_, _) => BeginOrdered(m, l);
    case Store(s) => StoreOrdered(m, s);
    case _ => RecordsKept(m, JoinStep(m, l));
  }

  lemma BeginOrdered(m: State, l: Joining)
    requires Ordered(m) && JoinEnabled(m, l) && l.Begin?
    ensures Ordered(JoinStep(m, l))
  {
    assert forall i | 0 <= i < |m.subs| :: JoinStep(m, l).subs[i] == m.subs[i];
  }

  lemma StoreOrdered(m: State, s: nat)
    requires Ordered(m) && JoinEnabled(m, Store(s))
    ensures Ordered(JoinStep(m, Store(s)))
  {
    assert RecordOk(m.subs[s], |m.log|);
    assert forall i | 0 <= i < |m.subs| && i != s :: JoinStep(m, Store(s)).subs[i] == m.subs[i];
  }

  lemma LeaveOrdered(m: State, l: Leaving)
    requires Safe(m) && Ordered(m) && LeaveEnabled(m, l)
    ensures Ordered(LeaveStep(m, l))
  {
    RecordsKept(m, LeaveStep(m, l));
  }

  lemma CastOrdered(m: State, l: Casting)
    requires Safe(m) && Ordered(m) && CastEnabled(m, l)
    ensures Ordered(CastStep(m, l))
  {
    hide Safe, Ordered;
    match l
    case Lock(v) => LockOrdered(m, v);
    case Visit(s) => VisitOrdered(m, s);
    case Send(s) => SendOrdered(m, s);
    case _ => RecordsKept(m, CastStep(m, l));
  }

  lemma TearOrdered(m: State, l: Tearing)
    requires Safe(m) && Ordered(m) && TearEnabled(m, l)
    ensures Ordered(TearStep(m, l))
  {
    RecordsKept(m, TearStep(m, l));
  }

  lemma OutOrdered(m: State, l: Outside)
    requires Safe(m) && Ordered(m) && OutEnabled(m, l)
    ensures Ordered(OutStep(m, l))
  {
    RecordsKept(m, OutStep(m, l));
  }

  lemma LockOrdered(m: State, v: string)
    requires Safe(m) && Ordered(m) && CastEnabled(m, Lock(v))
    ensures Ordered(CastStep(m, Lock(v)))
  {
    var m' := CastStep(m, Lock(v));
    forall s | s in Waiting(m') ensures s < |m.subs| && Unserved(m'.subs[s], |m'.log|) {
      var c :| c in m.table && m.table[c] == s;
      assert RecordOk(m.subs[s], |m.log|);
    }
    forall i | 0 <= i < |m.subs| ensures RecordOk(m'.subs[i], |m'.log|) { assert RecordOk(m.subs[i], |m.log|); }
  }

  lemma SendOrdered(m: State, s: nat)
    requires Safe(m) && Ordered(m) && CastEnabled(m, Send(s))
    ensures Ordered(CastStep(m, Send(s)))
  {
    RecordsKept(m, Served(m, s));
    DeliverOrdered(Served(m, s), s);
  }

  lemma VisitOrdered(m: State, s: nat)
    requires Safe(m) && Ordered(m) && CastEnabled(m, Visit(s))
    ensures Ordered(CastStep(m, Visit(s)))
  {
    var rest := m.mutex.unvisited - {s};
    RecordsKept(m, m.(mutex := Sending(rest, m.mutex.pending + {s})));
    var m1 := m.(mutex := Sending(rest, m.mutex.pending));
    RecordsKept(m, m1);
    assert s in Waiting(m);
    DeliverOrdered(m1, s);
  }

  // ---------- live subscriptions ----------

  /** No other subscription was ever begun on this one's channel. That is so for every
      channel the manager made; a caller may register its own channel twice. */
  ghost predicate Alone(m: State, i: nat)
    requires i < |m.subs|
  {
    forall j | 0 <= j < |m.subs| && j != i :: m.subs[j].ch != m.subs[i].ch
  }

  lemma AloneBefore(m: State, m': State)
    requires Extends(m, m')
    ensures forall i | 0 <= i < |m.subs| && Alone(m', i) :: Alone(m, i)
  {
    forall i | 0 <= i < |m.subs| && Alone(m', i) ensures Alone(m, i) {
      forall j | 0 <= j < |m.subs| && j != i ensures m.subs[j].ch != m.subs[i].ch {
        assert m'.subs[j].ch != m'.subs[i].ch;
      }
    }
  }

  /** A stored subscription alone on its channel leaves the table only after its own
      cancellation; and every subscription is out of it once its callback has run. */
  ghost predicate Live(m: State) {
    && (forall i | 0 <= i < |m.subs| && m.subs[i].stored && !m.subs[i].cancelled && Alone(m, i) :: Listed(m, i))
    && (forall i | 0 <= i < |m.subs| && m.subs[i].fired :: !Listed(m, i))
  }

  lemma LiveKept(m: State, m': State)
    requires Safe(m) && Live(m) && TableKept(m, m') && |m.chans| <= |m'.chans|
    ensures Live(m')
  {
    AloneBefore(m, m');
    forall i | 0 <= i < |m'.subs| && m'.subs[i].stored && !m'.subs[i].cancelled && Alone(m', i) ensures Listed(m', i) {
      assert Listed(m, i);
    }
    forall i | 0 <= i < |m'.subs| && m'.subs[i].fired ensures !Listed(m', i) { assert !Listed(m, i); }
  }

  lemma StepLive(m: State, l: Label)
    requires Safe(m) && Live(m) && Enabled(m, l)
    ensures Live(Step(m, l))
  {
    hide Safe, Live;
    match l
    case Join(j) => if j.Store? { StoreLive(m, j.s); } else { JoinExtends(m, j); LiveKept(m, Step(m, l)); }
    case Leave(v) => if v.Remove? { RemoveLive(m, v.s); } else { LeaveExtends(m, v); LiveKept(m, Step(m, l)); }
    case Cast(b) => CastExtends(m, b); LiveKept(m, Step(m, l));
    case Tear(t) => if t.SweepDelete? { SweepLive(m); } else { TearExtends(m, t); LiveKept(m, Step(m, l)); }
    case Out(o) => OutExtends(m, o); LiveKept(m, Step(m, l));
  }

  lemma StoreLive(m: State, s: nat)
    requires Safe(m) && Live(m) && JoinEnabled(m, Store(s))
    ensures Live(JoinStep(m, Store(s)))
  {
    var m' := JoinStep(m, Store(s));
    JoinExtends(m, Store(s));
    AloneBefore(m, m');
    forall i | 0 <= i < |m'.subs| && m'.subs[i].stored && !m'.subs[i].cancelled && Alone(m', i) ensures Listed(m', i) {
      if i != s { assert Listed(m, i) && m'.subs[s].ch != m'.subs[i].ch; }
    }
    forall i | 0 <= i < |m'.subs| && m'.subs[i].fired ensures !Listed(m', i) { assert i != s && !Listed(m, i); }
  }

  /** `s` is cancelled and the entry under its channel goes. */
  lemma DroppedLive(m: State, m': State, s: nat)
    requires Safe(m) && Live(m) && SubOk(m, s) && Extends(m, m') && |m.subs| == |m'.subs|
    requires m'.table == m.table - {m.subs[s].ch} && m'.subs[s].cancelled
    requires forall i | 0 <= i < |m.subs| && i != s :: m'.subs[i] == m.subs[i]
    ensures Live(m')
  {
    AloneBefore(m, m');
    forall i | 0 <= i < |m'.subs| && m'.subs[i].stored && !m'.subs[i].cancelled && Alone(m', i) ensures Listed(m', i) {
      assert Listed(m, i) && m'.subs[s].ch != m'.subs[i].ch;
    }
    forall i | 0 <= i < |m'.subs| && m'.subs[i].fired ensures !Listed(m', i) { assert i == s || !Listed(m, i); }
  }

  lemma RemoveLive(m: State, s: nat)
    requires Safe(m) && Live(m) && LeaveEnabled(m, Remove(s))
    ensures Live(LeaveStep(m, Remove(s)))
  {
    LeaveExtends(m, Remove(s));
    DroppedLive(m, LeaveStep(m, Remove(s)), s);
  }

  lemma SweepLive(m: State)
    requires Safe(m) && Live(m) && TearEnabled(m, SweepDelete)
    ensures Live(TearStep(m, SweepDelete))
  {
    TearExtends(m, SweepDelete);
    DroppedLive(m, TearStep(m, SweepDelete), m.mutex.at.v);
  }

  // ---------- guaranteed delivery ----------

  /** Every broadcast from the store up to `to` was sent, each once and in order. */
  ghost predicate SentAll(x: Sub, to: nat) {
    && x.storedAt <= to && |x.sent| == to - x.storedAt
    && forall k :: 0 <= k < |x.sent| ==> x.sent[k] == x.storedAt + k
  }

  /** A guaranteed subscription that is in the table and not cancelled lacks at most the
      broadcast now holding the mutex. */
  ghost predicate Complete(m: State) {
    forall i | 0 <= i < |m.subs| && Listed(m, i) && m.subs[i].mode == Guaranteed && !m.subs[i].cancelled ::
      SentAll(m.subs[i], Due(m, i))
  }

  /** Broadcasts before this one are behind subscription `i`. */
  function Due(m: State, i: nat): nat {
    if i in Waiting(m) && m.log != [] then |m.log| - 1 else |m.log|
  }

  lemma CompleteKept(m: State, m': State)
    requires Complete(m) && Extends(m, m') && |m'.log| == |m.log|
    requires forall i | 0 <= i < |m'.subs| && Listed(m', i) && m'.subs[i].mode == Guaranteed && !m'.subs[i].cancelled ::
      && i < |m.subs| && Listed(m, i) && m'.subs[i].sent == m.subs[i].sent && m'.subs[i].storedAt == m.subs[i].storedAt
      && (i in Waiting(m') <==> i in Waiting(m))
    ensures Complete(m')
  {
  }

  lemma StepComplete(m: State, l: Label)
    requires Safe(m) && Ordered(m) && Complete(m) && Enabled(m, l)
    ensures Complete(Step(m, l))
  {
    hide Safe, Ordered, Complete;
    match l
    case Join(j) => JoinComplete(m, j);
    case Leave(v) => LeaveComplete(m, v);
    case Cast(b) => CastComplete(m, b);
    case Tear(t) => TearComplete(m, t);
    case Out(o) => OutComplete(m, o);
  }

  lemma JoinComplete(m: State, l: Joining)
    requires Safe(m) && Ordered(m) && Complete(m) && JoinEnabled(m, l)
    ensures Complete(JoinStep(m, l))
  {
    if l.Store? {
      StoreComplete(m, l.s);
    } else {
      JoinExtends(m, l);
      CompleteKept(m, JoinStep(m, l));
    }
  }

  lemma StoreComplete(m: State, s: nat)
    requires Safe(m) && Ordered(m) && Complete(m) && JoinEnabled(m, Store(s))
    ensures Complete(JoinStep(m, Store(s)))
  {
    var m' := JoinStep(m, Store(s));
    assert RecordOk(m.subs[s], |m.log|);
    forall i | 0 <= i < |m'.subs| && Listed(m', i) && i != s ensures Listed(m, i) && m'.subs[i] == m.subs[i] { }
  }

  lemma LeaveComplete(m: State, l: Leaving)
    requires Safe(m) && Complete(m) && LeaveEnabled(m, l)
    ensures Complete(LeaveStep(m, l))
  {
    LeaveExtends(m, l);
    CompleteKept(m, LeaveStep(m, l));
  }

  lemma TearComplete(m: State, l: Tearing)
    requires Safe(m) && Complete(m) && TearEnabled(m, l)
    ensures Complete(TearStep(m, l))
  {
    TearExtends(m, l);
    CompleteKept(m, TearStep(m, l));
  }

  lemma OutComplete(m: State, l: Outside)
    requires Safe(m) && Complete(m) && OutEnabled(m, l)
    ensures Complete(OutStep(m, l))
  {
    OutExtends(m, l);
    CompleteKept(m, OutStep(m, l));
  }

  lemma CastComplete(m: State, l: Casting)
    requires Safe(m) && Ordered(m) && Complete(m) && CastEnabled(m, l)
    ensures Complete(CastStep(m, l))
  {
    hide Safe, Ordered, Complete;
    match l
    case Lock(v) => LockComplete(m, v);
    case Visit(s) => VisitComplete(m, s);
    case Send(s) => SendComplete(m, s);
    case _ => TurnComplete(m, l);
  }

  lemma SendComplete(m: State, s: nat)
    requires Safe(m) && Complete(m) && CastEnabled(m, Send(s))
    ensures Complete(CastStep(m, Send(s)))
  {
    DeliverComplete(m, Served(m, s), s);
  }

  lemma TurnComplete(m: State, l: Casting)
    requires Safe(m) && Complete(m) && CastEnabled(m, l) && (l.Depart? || l.Expire? || l.Unlock?)
    ensures Complete(CastStep(m, l))
  {
    CastExtends(m, l);
    CompleteKept(m, CastStep(m, l));
  }

  /** A broadcast begins by waiting for everyone in the table. */
  lemma LockComplete(m: State, v: string)
    requires Complete(m) && CastEnabled(m, Lock(v))
    ensures Complete(CastStep(m, Lock(v)))
  {
    var m' := CastStep(m, Lock(v));
    forall i | 0 <= i < |m'.subs| && Listed(m', i) ensures Listed(m, i) && i in Waiting(m') { assert i in Stored(m); }
  }

  /** `m1` is `m` no longer waiting on `s`, which is now served. */
  lemma DeliverComplete(m: State, m1: State, s: nat)
    requires Complete(m) && SubOk(m, s) && m.log != [] && s in Waiting(m)
    requires m1 == m.(mutex := m1.mutex) && Waiting(m1) == Waiting(m) - {s}
    ensures Complete(Deliver(m1, s))
  {
    var m' := Deliver(m1, s);
    assert forall i | 0 <= i < |m.subs| && i != s :: m'.subs[i] == m.subs[i];
    assert forall i | 0 <= i < |m.subs| && Listed(m', i) :: Listed(m, i);
  }

  lemma VisitComplete(m: State, s: nat)
    requires Safe(m) && Complete(m) && CastEnabled(m, Visit(s))
    ensures Complete(CastStep(m, Visit(s)))
  {
    var m1 := m.(mutex := Sending(m.mutex.unvisited - {s}, m.mutex.pending));
    if m.subs[s].mode != BestEffort {
      CompleteKept(m, m.(mutex := Sending(m.mutex.unvisited - {s}, m.mutex.pending + {s})));
    } else {
      CompleteKept(m, m1);
      DeliverComplete(m, m1, s);
    }
  }
}
