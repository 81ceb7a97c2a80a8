/** What is on the channels: each carries an interleaving of what its subscriptions were
    sent, first in, first out, and never more than fits. */
module BroadcastStreams {
  import opened BroadcastProtocol
  import opened BroadcastSafety
  import opened BroadcastDelivery

  function Values(log: seq<string>, ks: seq<nat>): seq<string> {
    seq(|ks|, j requires 0 <= j < |ks| => if ks[j] < |log| then log[ks[j]] else "")
  }

  /** Everything sent on behalf of subscription `i`: its greeting, then its broadcasts. */
  function Told(m: State, i: nat): seq<string>
    requires i < |m.subs|
  {
    m.subs[i].first + Values(m.log, m.subs[i].sent)
  }

  /** The values of `flow` that `tags` ascribes to `i`, in order. */
  function Strand(flow: seq<string>, tags: seq<nat>, i: nat): seq<string>
    requires |flow| == |tags|
  {
    if tags == [] then []
    else
      var n := |tags| - 1;
      Strand(flow[..n], tags[..n], i) + (if tags[n] == i then [flow[n]] else [])
  }

  lemma StrandNext(flow: seq<string>, tags: seq<nat>, v: string, s: nat, i: nat)
    requires |flow| == |tags|
    ensures Strand(flow + [v], tags + [s], i) == if s == i then Strand(flow, tags, i) + [v] else Strand(flow, tags, i)
  {
    assert (flow + [v])[..|tags|] == flow && (tags + [s])[..|tags|] == tags;
  }

  lemma {:induction false} StrandAbsent(flow: seq<string>, tags: seq<nat>, i: nat)
    requires |flow| == |tags| && forall k :: 0 <= k < |tags| ==> tags[k] != i
    ensures Strand(flow, tags, i) == []
  {
    if tags != [] { StrandAbsent(flow[..|tags| - 1], tags[..|tags| - 1], i); }
  }

  lemma {:induction false} StrandWhole(flow: seq<string>, tags: seq<nat>, i: nat)
    requires |flow| == |tags| && forall k :: 0 <= k < |tags| ==> tags[k] == i
    ensures Strand(flow, tags, i) == flow
  {
    if tags != [] {
      var n := |tags| - 1;
      StrandWhole(flow[..n], tags[..n], i);
      assert flow == flow[..n] + [flow[n]];
    }
  }

  /** The front of a flow holds the fronts of its strands. */
  lemma {:induction false} StrandFront(flow: seq<string>, tags: seq<nat>, i: nat, k: nat)
    requires |flow| == |tags| && k <= |tags|
    ensures Strand(flow[..k], tags[..k], i) <= Strand(flow, tags, i)
  {
    var n := |tags|;
    if k == n {
      assert flow[..k] == flow && tags[..k] == tags;
    } else {
      StrandFront(flow[..n - 1], tags[..n - 1], i, k);
      assert flow[..n - 1][..k] == flow[..k] && tags[..n - 1][..k] == tags[..k];
    }
  }

  /** `tags` says on whose behalf each value was sent on channel `c`. */
  ghost predicate Weave(m: State, c: nat, tags: seq<nat>)
    requires c < |m.chans|
  {
    && |tags| == |m.chans[c].flow|
    && (forall k | 0 <= k < |tags| :: tags[k] < |m.subs| && m.subs[tags[k]].ch == c)
    && (forall i | 0 <= i < |m.subs| && m.subs[i].ch == c :: Strand(m.chans[c].flow, tags, i) == Told(m, i))
  }

  ghost predicate Woven(m: State, c: nat)
    requires c < |m.chans|
  {
    exists tags :: Weave(m, c, tags)
  }

  /** Every channel carries exactly what its subscriptions were sent, interleaved. */
  ghost predicate Streams(m: State) { forall c | 0 <= c < |m.chans| :: Woven(m, c) }

  lemma AloneOnChannel(m: State, i: nat)
    requires Streams(m) && SubOk(m, i) && Alone(m, i)
    ensures m.chans[m.subs[i].ch].flow == Told(m, i)
  {
    assert Woven(m, m.subs[i].ch);
    var tags :| Weave(m, m.subs[i].ch, tags);
    StrandWhole(m.chans[m.subs[i].ch].flow, tags, i);
  }

  /** Nothing sent, nothing forgotten. */
  lemma StreamsKept(m: State, m': State)
    requires Streams(m) && |m'.subs| == |m.subs| && |m'.chans| == |m.chans|
    requires forall i | 0 <= i < |m.subs| :: m'.subs[i].ch == m.subs[i].ch && Told(m', i) == Told(m, i)
    requires forall c | 0 <= c < |m.chans| :: m'.chans[c].flow == m.chans[c].flow
    ensures Streams(m')
  {
    hide Told, Strand;
    forall c | 0 <= c < |m'.chans| ensures Woven(m', c) {
      assert c < |m.chans| ==> Woven(m, c);
      var tags :| Weave(m, c, tags);
      assert Weave(m', c, tags);
    }
  }

  lemma OneMore(m: State, m': State, c: nat, tags: seq<nat>, s: nat, v: string)
    requires c < |m.chans| && c < |m'.chans| && Weave(m, c, tags)
    requires |m'.subs| == |m.subs| && SubOk(m, s) && m.subs[s].ch == c
    requires forall i | 0 <= i < |m.subs| :: m'.subs[i].ch == m.subs[i].ch
    requires forall i | 0 <= i < |m.subs| :: Told(m', i) == if i == s then Told(m, i) + [v] else Told(m, i)
    requires m'.chans[c].flow == m.chans[c].flow + [v]
    ensures Weave(m', c, tags + [s])
  {
    hide Told, Strand;
    forall i | 0 <= i < |m'.subs| && m'.subs[i].ch == c ensures Strand(m'.chans[c].flow, tags + [s], i) == Told(m', i) {
      StrandNext(m.chans[c].flow, tags, v, s, i);
    }
  }

  /** One value more for subscription `s`, on its channel. */
  lemma OneChannelGrew(m: State, m': State, s: nat, v: string)
    requires Streams(m) && SubOk(m, s) && |m'.subs| == |m.subs| && |m'.chans| == |m.chans|
    requires forall i | 0 <= i < |m.subs| :: m'.subs[i].ch == m.subs[i].ch
    requires forall i | 0 <= i < |m.subs| :: Told(m', i) == if i == s then Told(m, i) + [v] else Told(m, i)
    requires forall c | 0 <= c < |m.chans| ::
      m'.chans[c].flow == if c == m.subs[s].ch then m.chans[c].flow + [v] else m.chans[c].flow
    ensures Streams(m')
  {
    hide Told, Strand;
    forall c | 0 <= c < |m'.chans| ensures Woven(m', c) {
      assert c < |m.chans| ==> Woven(m, c);
      var tags :| Weave(m, c, tags);
      if c == m.subs[s].ch {
        OneMore(m, m', c, tags, s, v);
      } else {
        assert Weave(m', c, tags);
      }
    }
  }

  /** One more subscription, on which nothing has been sent, and perhaps one more channel. */
  lemma NewSubStreams(m: State, m': State)
    requires Streams(m) && |m.subs| <= |m'.subs| <= |m.subs| + 1 && |m.chans| <= |m'.chans|
    requires forall i | 0 <= i < |m.subs| :: m'.subs[i].ch == m.subs[i].ch < |m.chans| && Told(m', i) == Told(m, i)
    requires forall i | |m.subs| <= i < |m'.subs| :: Told(m', i) == []
    requires forall c | 0 <= c < |m'.chans| ::
      m'.chans[c].flow == if c < |m.chans| then m.chans[c].flow else []
    ensures Streams(m')
  {
    hide Told;
    forall c | 0 <= c < |m'.chans| ensures Woven(m', c) {
      assert c < |m.chans| ==> Woven(m, c);
      if c < |m.chans| {
        var tags :| Weave(m, c, tags);
        StrandAbsent(m.chans[c].flow, tags, |m.subs|);
        assert Weave(m', c, tags);
      } else {
        assert Weave(m', c, []);
      }
    }
  }

  lemma StepStreams(m: State, l: Label)
    requires Safe(m) && Ordered(m) && Streams(m) && Enabled(m, l)
    ensures Streams(Step(m, l))
  {
    hide Safe, Ordered, Streams;
    match l
    case Join(j) => JoinStreams(m, j);
    case Leave(v) => LeaveStreams(m, v);
    case Cast(b) => CastStreams(m, b);
    case Tear(t) => TearStreams(m, t);
    case Out(o) => OutStreams(m, o);
  }

  lemma JoinStreams(m: State, l: Joining)
    requires Safe(m) && Streams(m) && JoinEnabled(m, l)
    ensures Streams(JoinStep(m, l))
  {
    hide Safe, Streams;
    match l
    case Begin(_, _) => BeginStreams(m, l);
    case First(s, v) => FirstStreams(m, s, v);
    case _ => StreamsKept(m, JoinStep(m, l));
  }

  lemma LeaveStreams(m: State, l: Leaving)
    requires Streams(m) && LeaveEnabled(m, l)
    ensures Streams(LeaveStep(m, l))
  {
    hide Streams;
    StreamsKept(m, LeaveStep(m, l));
  }

  lemma TearStreams(m: State, l: Tearing)
    requires Streams(m) && TearEnabled(m, l)
    ensures Streams(TearStep(m, l))
  {
    hide Streams;
    StreamsKept(m, TearStep(m, l));
  }

  lemma OutStreams(m: State, l: Outside)
    requires Safe(m) && Streams(m) && OutEnabled(m, l)
    ensures Streams(OutStep(m, l))
  {
    OnChannels(m);
    hide Safe, Streams;
    NewSubStreams(m, OutStep(m, l));
  }

  lemma OnChannels(m: State)
    requires Safe(m)
    ensures forall i | 0 <= i < |m.subs| :: m.subs[i].ch < |m.chans|
  {
  }

  lemma BeginStreams(m: State, l: Joining)
    requires Safe(m) && Streams(m) && JoinEnabled(m, l) && l.Begin?
    ensures Streams(JoinStep(m, l))
  {
    OnChannels(m);
    hide Safe, Streams;
    var m' := JoinStep(m, l);
    assert forall i | 0 <= i < |m.subs| :: m'.subs[i] == m.subs[i];
    NewSubStreams(m, m');
  }

  lemma FirstStreams(m: State, s: nat, v: string)
    requires Streams(m) && JoinEnabled(m, First(s, v))
    ensures Streams(JoinStep(m, First(s, v)))
  {
    hide Streams;
    OneChannelGrew(m, JoinStep(m, First(s, v)), s, v);
  }

  lemma CastStreams(m: State, l: Casting)
    requires Safe(m) && Ordered(m) && Streams(m) && CastEnabled(m, l)
    ensures Streams(CastStep(m, l))
  {
    hide Safe, Ordered, Streams;
    match l
    case Lock(v) => LockStreams(m, v);
    case Visit(s) => VisitStreams(m, s);
    case Send(s) => ServeStreams(m, Served(m, s), s);
    case _ => StreamsKept(m, CastStep(m, l));
  }

  lemma LockStreams(m: State, v: string)
    requires Ordered(m) && Streams(m) && CastEnabled(m, Lock(v))
    ensures Streams(CastStep(m, Lock(v)))
  {
    hide Streams;
    var m' := CastStep(m, Lock(v));
    forall i | 0 <= i < |m.subs| ensures Told(m', i) == Told(m, i) { assert RecordOk(m.subs[i], |m.log|); }
    StreamsKept(m, m');
  }

  /** Delivering to a subscription the broadcast was waiting on. */
  lemma ServeStreams(m: State, m1: State, s: nat)
    requires Safe(m) && Streams(m) && s in Waiting(m) && m1 == m.(mutex := m1.mutex) && m.log != []
    ensures SubOk(m1, s) && Streams(Deliver(m1, s))
  {
    WaitingOpen(m, s);
    hide Safe, Streams;
    DeliverEffect(m1, s);
    StreamsKept(m, m1);
    hide Deliver;
    OneChannelGrew(m1, Deliver(m1, s), s, m.log[|m.log| - 1]);
  }

  lemma WaitingOpen(m: State, s: nat)
    requires Safe(m) && s in Waiting(m)
    ensures Listed(m, s) && m.chans[m.subs[s].ch].closed == Open
  {
    assert Listed(m, s);
    ListedOpen(m, s);
  }

  lemma DeliverEffect(m: State, s: nat)
    requires SubOk(m, s) && m.log != [] && m.chans[m.subs[s].ch].closed == Open
    ensures var m', c, v := Deliver(m, s), m.subs[s].ch, m.log[|m.log| - 1];
      && |m'.subs| == |m.subs| && |m'.chans| == |m.chans|
      && (forall i | 0 <= i < |m.subs| ::
            m'.subs[i].ch == m.subs[i].ch && Told(m', i) == if i == s then Told(m, i) + [v] else Told(m, i))
      && (forall d | 0 <= d < |m.chans| ::
            m'.chans[d].flow == if d == c then m.chans[d].flow + [v] else m.chans[d].flow)
  {
  }

  lemma VisitStreams(m: State, s: nat)
    requires Safe(m) && Streams(m) && CastEnabled(m, Visit(s))
    ensures Streams(CastStep(m, Visit(s)))
  {
    hide Safe, Streams, Deliver;
    ServeStreams(m, m.(mutex := Sending(m.mutex.unvisited - {s}, m.mutex.pending)), s);
    StreamsKept(m, m.(mutex := Sending(m.mutex.unvisited - {s}, m.mutex.pending)));
    StreamsKept(m, m.(mutex := Sending(m.mutex.unvisited - {s}, m.mutex.pending + {s})));
  }

  // ---------- channels are first in, first out, and never overfull ----------

  /** A channel holds at most its capacity, and nothing while a receiver is parked on it. */
  predicate Fits(c: Chan) { c.taken <= |c.flow| <= c.taken + c.capacity && (c.parked > 0 ==> c.taken == |c.flow|) }

  ghost predicate Buffered(m: State) { forall c | 0 <= c < |m.chans| :: Fits(m.chans[c]) }

  /** Sends go to the end, receives come off the front, and neither is ever undone. */
  ghost predicate Flows(m: State, m': State) {
    && |m.chans| <= |m'.chans|
    && forall c | 0 <= c < |m.chans| ::
         && m.chans[c].flow <= m'.chans[c].flow && m.chans[c].taken <= m'.chans[c].taken
         && m'.chans[c].capacity == m.chans[c].capacity
  }

  lemma StepBuffered(m: State, l: Label)
    requires Buffered(m) && Enabled(m, l)
    ensures Buffered(Step(m, l)) && Flows(m, Step(m, l))
  {
    hide Buffered, Flows;
    match l
    case Join(j) => JoinBuffered(m, j);
    case Leave(v) => LeaveBuffered(m, v);
    case Cast(b) => CastBuffered(m, b);
    case Tear(t) => TearBuffered(m, t);
    case Out(o) => OutBuffered(m, o);
  }

  lemma JoinBuffered(m: State, l: Joining)
    requires Buffered(m) && JoinEnabled(m, l)
    ensures Buffered(JoinStep(m, l)) && Flows(m, JoinStep(m, l))
  {
  }

  lemma LeaveBuffered(m: State, l: Leaving)
    requires Buffered(m) && LeaveEnabled(m, l)
    ensures Buffered(LeaveStep(m, l)) && Flows(m, LeaveStep(m, l))
  {
  }

  lemma CastBuffered(m: State, l: Casting)
    requires Buffered(m) && CastEnabled(m, l)
    ensures Buffered(CastStep(m, l)) && Flows(m, CastStep(m, l))
  {
    if l.Visit? && Sendable(m.chans[m.subs[l.s].ch]) {
      DeliverBuffered(m.(mutex := Sending(m.mutex.unvisited - {l.s}, m.mutex.pending)), l.s);
    }
    if l.Send? { DeliverBuffered(Served(m, l.s), l.s); }
    hide Deliver;
  }

  lemma DeliverBuffered(m: State, s: nat)
    requires Buffered(m) && SubOk(m, s) && m.log != [] && Sendable(m.chans[m.subs[s].ch])
    ensures Buffered(Deliver(m, s)) && Flows(m, Deliver(m, s))
  {
  }

  lemma TearBuffered(m: State, l: Tearing)
    requires Buffered(m) && TearEnabled(m, l)
    ensures Buffered(TearStep(m, l)) && Flows(m, TearStep(m, l))
  {
  }

  lemma OutBuffered(m: State, l: Outside)
    requires Buffered(m) && OutEnabled(m, l)
    ensures Buffered(OutStep(m, l)) && Flows(m, OutStep(m, l))
  {
  }
}
