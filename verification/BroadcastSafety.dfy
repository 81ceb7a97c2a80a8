/** Channel safety: over every interleaving the manager never sends on a closed channel,
    never closes a channel twice and never closes a caller's channel. */
module BroadcastSafety {
  import opened BroadcastProtocol

  /** Subscription `s` is in the table under its own channel. */
  predicate Listed(m: State, s: nat) {
    SubOk(m, s) && m.subs[s].ch in m.table && m.table[m.subs[s].ch] == s
  }

  /** Between the removal of an owned channel's entry and its close. */
  predicate BeingClosed(m: State, s: nat) {
    m.mutex == Closing(s) || (m.mutex.Draining? && m.mutex.at == Deleted(s))
  }

  ghost predicate Shape(m: State) {
    && (forall i | 0 <= i < |m.subs| ::
          && m.subs[i].ch < |m.chans|
          && m.subs[i].external == !m.chans[m.subs[i].ch].owned
          && (m.subs[i].armed ==> m.subs[i].stored)
          && (m.subs[i].fired ==> m.subs[i].armed && m.subs[i].cancelled))
    && (forall i, j | 0 <= i < j < |m.subs| && m.subs[i].ch == m.subs[j].ch :: m.subs[i].external)
  }

  ghost predicate Table(m: State) {
    forall c | c in m.table :: m.table[c] < |m.subs| && m.subs[m.table[c]].stored && m.subs[m.table[c]].ch == c
  }

  ghost predicate Holding(m: State) {
    match m.mutex
    case Free => true
    case Closing(s) => SubOk(m, s) && m.subs[s].stored && !m.subs[s].external && m.subs[s].ch !in m.table
    case Sending(unvisited, pending) =>
      unvisited !! pending && m.log != [] && forall s | s in unvisited + pending :: Listed(m, s)
    case Draining(u, todo, at) =>
      && u < |m.teardowns| && m.teardowns[u] == Sweeping
      && (forall s | s in todo :: Listed(m, s))
      && (forall c | c in m.table :: m.table[c] in todo || at == Signalled(m.table[c]))
      && match at
         case Next => true
         case Signalled(s) => Listed(m, s) && s !in todo && m.subs[s].cancelled
         case Deleted(s) =>
           && SubOk(m, s) && m.subs[s].stored && !m.subs[s].external && m.subs[s].ch !in m.table
           && m.subs[s].cancelled
  }

  ghost predicate Closure(m: State) {
    && (forall i | 0 <= i < |m.subs| && !m.subs[i].external && m.subs[i].ch < |m.chans| ::
          m.chans[m.subs[i].ch].closed ==
            if m.subs[i].stored && m.subs[i].ch !in m.table && !BeingClosed(m, i) then ByManager else Open)
    && (forall i | 0 <= i < |m.subs| && !m.subs[i].external && !m.subs[i].stored :: m.subs[i].ch !in m.table)
    && (forall c | 0 <= c < |m.chans| && !m.chans[c].owned && m.chans[c].closed != Open ::
          && m.chans[c].closed == ByCaller && c !in m.table
          && forall i | 0 <= i < |m.subs| && m.subs[i].ch == c :: m.subs[i].stored)
  }

  ghost predicate Safe(m: State) {
    Shape(m) && Table(m) && Holding(m) && Closure(m) && !m.panicked
  }

  // ---------- steps that leave the skeleton alone ----------

  /** Same subscriptions on the same channels, same table, nothing closed. */
  ghost predicate SameSkeleton(m: State, m': State) {
    && |m'.subs| == |m.subs| && |m'.chans| == |m.chans| && m'.table == m.table && m'.panicked == m.panicked
    && (forall i | 0 <= i < |m.subs| ::
          && m'.subs[i].ch == m.subs[i].ch && m'.subs[i].external == m.subs[i].external
          && m'.subs[i].stored == m.subs[i].stored
          && (m.subs[i].cancelled ==> m'.subs[i].cancelled)
          && (m'.subs[i].armed ==> m'.subs[i].stored)
          && (m'.subs[i].fired ==> m'.subs[i].armed && m'.subs[i].cancelled))
    && (forall c | 0 <= c < |m.chans| ::
          m'.chans[c].owned == m.chans[c].owned && m'.chans[c].closed == m.chans[c].closed)
  }

  lemma SkeletonSafe(m: State, m': State)
    requires Safe(m) && SameSkeleton(m, m') && Holding(m')
    requires forall i | 0 <= i < |m.subs| :: BeingClosed(m', i) == BeingClosed(m, i)
    ensures Safe(m')
  {
  }

  /** Whoever holds the mutex keeps its grip when only flags and channel contents change. */
  lemma GripKept(m: State, m': State)
    requires Safe(m) && SameSkeleton(m, m') && m'.mutex == m.mutex
    requires |m.log| <= |m'.log|
    requires m.mutex.Draining? ==> m.mutex.u < |m'.teardowns| && m'.teardowns[m.mutex.u] == Sweeping
    ensures Safe(m')
  {
    assert forall s | Listed(m, s) :: Listed(m', s);
    SkeletonSafe(m, m');
  }

  predicate QuietTear(l: Tearing) { l.TearBegin? || l.Signal? || l.SignalEnd? }

  lemma JoinQuietSafe(m: State, l: Joining)
    requires Safe(m) && JoinEnabled(m, l) && (l.Arm? || l.First?)
    ensures Safe(JoinStep(m, l))
  {
    GripKept(m, JoinStep(m, l));
  }

  lemma CancelSafe(m: State, s: nat)
    requires Safe(m) && LeaveEnabled(m, Cancel(s))
    ensures Safe(LeaveStep(m, Cancel(s)))
  {
    GripKept(m, LeaveStep(m, Cancel(s)));
  }

  lemma TearQuietSafe(m: State, l: Tearing)
    requires Safe(m) && TearEnabled(m, l) && QuietTear(l)
    ensures Safe(TearStep(m, l))
  {
    GripKept(m, TearStep(m, l));
  }

  lemma ConsumeSafe(m: State, l: Outside)
    requires Safe(m) && OutEnabled(m, l) && (l.Receive? || l.Park? || l.Unpark?)
    ensures Safe(OutStep(m, l))
  {
    GripKept(m, OutStep(m, l));
  }

  /** A listed subscription's channel is open, so sending on it cannot panic. */
  lemma ListedOpen(m: State, s: nat)
    requires Safe(m) && Listed(m, s)
    ensures m.chans[m.subs[s].ch].closed == Open
  {
  }

  /** Delivering to a listed subscription changes its record and its channel's contents. */
  lemma DeliverKeeps(m: State, s: nat)
    requires Safe(m) && Listed(m, s) && m.log != []
    ensures SameSkeleton(m, Deliver(m, s)) && Deliver(m, s).mutex == m.mutex && Deliver(m, s).log == m.log
  {
    ListedOpen(m, s);
  }

  lemma CastSafe(m: State, l: Casting)
    requires Safe(m) && CastEnabled(m, l)
    ensures Safe(CastStep(m, l))
  {
    hide CastEnabled, CastStep, Safe;
    match l
    case Visit(s) => VisitSafe(m, s);
    case Send(s) => SendSafe(m, s);
    case _ => TurnSafe(m, l);
  }

  lemma TurnSafe(m: State, l: Casting)
    requires Safe(m) && CastEnabled(m, l) && (l.Lock? || l.Depart? || l.Expire? || l.Unlock?)
    ensures Safe(CastStep(m, l))
  {
    var m' := CastStep(m, l);
    assert forall s | Listed(m, s) :: Listed(m', s);
    SkeletonSafe(m, m');
  }

  lemma SendSafe(m: State, s: nat)
    requires Safe(m) && CastEnabled(m, Send(s))
    ensures Safe(CastStep(m, Send(s)))
  {
    var m1 := Served(m, s);
    assert forall i | Listed(m, i) :: Listed(m1, i);
    SkeletonSafe(m, m1);
    DeliverKeeps(m1, s);
    GripKept(m1, Deliver(m1, s));
  }

  lemma VisitSafe(m: State, s: nat)
    requires Safe(m) && CastEnabled(m, Visit(s))
    ensures Safe(CastStep(m, Visit(s)))
  {
    var blocking := m.subs[s].mode != BestEffort;
    var pending := if blocking then m.mutex.pending + {s} else m.mutex.pending;
    var m1 := m.(mutex := Sending(m.mutex.unvisited - {s}, pending));
    assert forall i | Listed(m, i) :: Listed(m1, i);
    SkeletonSafe(m, m1);
    DeliverKeeps(m1, s);
    GripKept(m1, Deliver(m1, s));
  }

  // ---------- steps that change the skeleton ----------

  lemma BeginOwnedSafe(m: State, k: nat, mode: Mode)
    requires Safe(m)
    ensures Safe(JoinStep(m, Begin(Owned(k), mode)))
  {
    var m' := JoinStep(m, Begin(Owned(k), mode));
    assert |m.chans| !in m.table;
    OwnedShape(m, k, mode);
    OwnedGrip(m, k, mode);
    assert Closure(m') by { hide Holding, Shape; }
  }

  lemma OwnedShape(m: State, k: nat, mode: Mode)
    requires Shape(m) && Table(m)
    ensures var m' := JoinStep(m, Begin(Owned(k), mode)); Shape(m') && Table(m')
  {
  }

  lemma OwnedGrip(m: State, k: nat, mode: Mode)
    requires Holding(m)
    ensures Holding(JoinStep(m, Begin(Owned(k), mode)))
  {
    var m' := JoinStep(m, Begin(Owned(k), mode));
    assert forall s | Listed(m, s) :: Listed(m', s);
  }

  lemma BeginExternalSafe(m: State, c: nat, mode: Mode)
    requires Safe(m) && JoinEnabled(m, Begin(External(c), mode))
    ensures Safe(JoinStep(m, Begin(External(c), mode)))
  {
    var m' := JoinStep(m, Begin(External(c), mode));
    assert forall s | Listed(m, s) :: Listed(m', s);
    assert Shape(m') && Table(m');
  }

  lemma MakeChanSafe(m: State, k: nat)
    requires Safe(m)
    ensures Safe(OutStep(m, MakeChan(k)))
  {
    var m' := OutStep(m, MakeChan(k));
    assert forall s | Listed(m, s) :: Listed(m', s);
  }

  lemma CallerCloseSafe(m: State, c: nat)
    requires Safe(m) && OutEnabled(m, CallerClose(c))
    ensures Safe(OutStep(m, CallerClose(c)))
  {
    var m' := OutStep(m, CallerClose(c));
    assert forall s | Listed(m, s) :: Listed(m', s);
    assert Shape(m') && Table(m') && Holding(m');
  }

  lemma StoreSafe(m: State, s: nat)
    requires Safe(m) && JoinEnabled(m, Store(s))
    ensures Safe(JoinStep(m, Store(s)))
  {
  }

  /** LoadAndDelete takes one key out; if it was an owned channel its close is now due. */
  lemma DroppedSafe(m: State, m': State, s: nat)
    requires Safe(m) && SubOk(m, s) && m.subs[s].stored
    requires m'.table == m.table - {m.subs[s].ch} && SameSkeleton(m, m'.(table := m.table))
    requires forall i | 0 <= i < |m.subs| :: !BeingClosed(m, i) && BeingClosed(m', i) == (i == s && MustClose(m, s))
    requires Holding(m')
    ensures Safe(m')
  {
  }

  lemma RemoveSafe(m: State, s: nat)
    requires Safe(m) && LeaveEnabled(m, Remove(s))
    ensures Safe(LeaveStep(m, Remove(s)))
  {
    DroppedSafe(m, LeaveStep(m, Remove(s)), s);
  }

  /** Before its close an owned channel that was taken out of the table is still open. */
  lemma ClosingOpen(m: State, s: nat)
    requires Safe(m) && BeingClosed(m, s)
    ensures SubOk(m, s) && m.subs[s].stored && !m.subs[s].external && m.subs[s].ch !in m.table
    ensures m.chans[m.subs[s].ch].closed == Open && !m.panicked
  {
  }

  /** The close that was due: from now on the channel is as its absence from the table says. */
  lemma ClosedSafe(m: State, m': State, s: nat)
    requires Safe(m) && BeingClosed(m, s) && SubOk(m, s) && m.subs[s].stored && !m.subs[s].external
    requires m.subs[s].ch !in m.table
    requires m'.subs == m.subs && m'.table == m.table && !m'.panicked && |m'.chans| == |m.chans|
    requires forall c | 0 <= c < |m.chans| ::
      && m'.chans[c].owned == m.chans[c].owned
      && m'.chans[c].closed == if c == m.subs[s].ch then ByManager else m.chans[c].closed
    requires (forall i :: !BeingClosed(m', i)) && Holding(m')
    ensures Safe(m')
  {
    hide Holding;
    assert Shape(m') && Table(m') by { hide Closure, BeingClosed; }
    ClosureClosed(m, m', s);
  }

  lemma ClosureClosed(m: State, m': State, s: nat)
    requires Shape(m) && Closure(m) && BeingClosed(m, s) && SubOk(m, s) && m.subs[s].stored && !m.subs[s].external
    requires m.subs[s].ch !in m.table
    requires m'.subs == m.subs && m'.table == m.table && |m'.chans| == |m.chans|
    requires forall c | 0 <= c < |m.chans| ::
      && m'.chans[c].owned == m.chans[c].owned
      && m'.chans[c].closed == if c == m.subs[s].ch then ByManager else m.chans[c].closed
    requires forall i :: !BeingClosed(m', i)
    ensures Closure(m')
  {
    assert forall i | BeingClosed(m, i) :: i == s;
  }

  lemma CloseSafe(m: State)
    requires Safe(m) && LeaveEnabled(m, Close)
    ensures Safe(LeaveStep(m, Close))
  {
    hide Safe;
    ClosingOpen(m, m.mutex.s);
    ClosedSafe(m, LeaveStep(m, Close), m.mutex.s);
  }

  lemma SweepLockSafe(m: State, u: nat)
    requires Safe(m) && TearEnabled(m, SweepLock(u))
    ensures Safe(TearStep(m, SweepLock(u)))
  {
    var m' := TearStep(m, SweepLock(u));
    assert forall s | Listed(m, s) :: Listed(m', s);
    SkeletonSafe(m, m');
  }

  lemma SweepCancelSafe(m: State, s: nat)
    requires Safe(m) && TearEnabled(m, SweepCancel(s))
    ensures Safe(TearStep(m, SweepCancel(s)))
  {
    hide Closure;
    var m' := TearStep(m, SweepCancel(s));
    assert forall i | Listed(m, i) :: Listed(m', i);
    SkeletonSafe(m, m');
  }

  lemma SweepDeleteSafe(m: State)
    requires Safe(m) && TearEnabled(m, SweepDelete)
    ensures Safe(TearStep(m, SweepDelete))
  {
    SweepDeleteGrip(m);
    hide Shape, Table, Closure;
    assert m.subs[m.mutex.at.v].stored by { SignalledStored(m); }
    SweepDeleteSkeleton(m);
    hide Holding;
    DroppedSafe(m, TearStep(m, SweepDelete), m.mutex.at.v);
  }

  lemma SignalledStored(m: State)
    requires Table(m) && Holding(m) && m.mutex.Draining? && m.mutex.at.Signalled?
    ensures m.subs[m.mutex.at.v].stored
  {
  }

  lemma SweepDeleteSkeleton(m: State)
    requires Safe(m) && TearEnabled(m, SweepDelete)
    ensures SameSkeleton(m, TearStep(m, SweepDelete).(table := m.table))
  {
    hide Table, Holding, Closure;
  }

  lemma SweepDeleteGrip(m: State)
    requires Shape(m) && Table(m) && Holding(m) && TearEnabled(m, SweepDelete)
    ensures Holding(TearStep(m, SweepDelete))
  {
    var m' := TearStep(m, SweepDelete);
    assert forall i | i in m.mutex.todo :: Listed(m, i) && Listed(m', i);
  }

  lemma SweepCloseSafe(m: State)
    requires Safe(m) && TearEnabled(m, SweepClose)
    ensures Safe(TearStep(m, SweepClose))
  {
    ClosingOpen(m, m.mutex.at.v);
    SweepCloseGrip(m);
    hide Safe, Holding;
    ClosedSafe(m, TearStep(m, SweepClose), m.mutex.at.v);
  }

  lemma SweepCloseGrip(m: State)
    requires Holding(m) && TearEnabled(m, SweepClose)
    ensures Holding(TearStep(m, SweepClose))
  {
    var m' := TearStep(m, SweepClose);
    assert forall i | Listed(m, i) :: Listed(m', i);
  }

  lemma SweepUnlockSafe(m: State)
    requires Safe(m) && TearEnabled(m, SweepUnlock)
    ensures Safe(TearStep(m, SweepUnlock))
  {
    SkeletonSafe(m, TearStep(m, SweepUnlock));
  }

  /** Channel safety is inductive: no step of any actor can break it. */
  lemma StepSafe(m: State, l: Label)
    requires Safe(m) && Enabled(m, l)
    ensures Safe(Step(m, l))
  {
    match l
    case Join(j) => JoinSafe(m, j);
    case Leave(v) => LeaveSafe(m, v);
    case Cast(b) => CastSafe(m, b);
    case Tear(t) => TearSafe(m, t);
    case Out(o) => OutSafe(m, o);
  }

  lemma JoinSafe(m: State, l: Joining)
    requires Safe(m) && JoinEnabled(m, l)
    ensures Safe(JoinStep(m, l))
  {
    hide JoinEnabled, JoinStep, Safe;
    match l
    case Begin(Owned(k), mode) => BeginOwnedSafe(m, k, mode);
    case Begin(External(c), mode) => BeginExternalSafe(m, c, mode);
    case Store(s) => StoreSafe(m, s);
    case _ => JoinQuietSafe(m, l);
  }

  lemma LeaveSafe(m: State, l: Leaving)
    requires Safe(m) && LeaveEnabled(m, l)
    ensures Safe(LeaveStep(m, l))
  {
    hide LeaveEnabled, LeaveStep, Safe;
    match l
    case Cancel(s) => CancelSafe(m, s);
    case Remove(s) => RemoveSafe(m, s);
    case Close => CloseSafe(m);
  }

  lemma TearSafe(m: State, l: Tearing)
    requires Safe(m) && TearEnabled(m, l)
    ensures Safe(TearStep(m, l))
  {
    hide TearEnabled, TearStep, Safe;
    match l
    case SweepLock(u) => SweepLockSafe(m, u);
    case SweepCancel(s) => SweepCancelSafe(m, s);
    case SweepDelete => SweepDeleteSafe(m);
    case SweepClose => SweepCloseSafe(m);
    case SweepUnlock => SweepUnlockSafe(m);
    case _ => TearQuietSafe(m, l);
  }

  lemma OutSafe(m: State, l: Outside)
    requires Safe(m) && OutEnabled(m, l)
    ensures Safe(OutStep(m, l))
  {
    hide OutEnabled, OutStep, Safe;
    match l
    case MakeChan(k) => MakeChanSafe(m, k);
    case CallerClose(c) => CallerCloseSafe(m, c);
    case _ => ConsumeSafe(m, l);
  }

  // ---------- what every step preserves ----------

  /** Nothing recorded is ever undone. */
  ghost predicate Extends(m: State, m': State) {
    && |m.subs| <= |m'.subs| && |m.chans| <= |m'.chans| && |m.log| <= |m'.log| && m.log == m'.log[..|m.log|]
    && (forall i | 0 <= i < |m.subs| ::
          && m'.subs[i].ch == m.subs[i].ch && m'.subs[i].mode == m.subs[i].mode
          && m'.subs[i].external == m.subs[i].external
          && (m.subs[i].stored ==> m'.subs[i].stored && m'.subs[i].storedAt == m.subs[i].storedAt)
          && (m.subs[i].armed ==> m'.subs[i].armed) && (m.subs[i].cancelled ==> m'.subs[i].cancelled)
          && (m.subs[i].fired ==> m'.subs[i].fired))
    && (forall i | |m.subs| <= i < |m'.subs| :: !m'.subs[i].stored && !m'.subs[i].fired)
  }

  /** Steps other than Store, Remove and the sweep's deletion leave the table as it is. */
  ghost predicate TableKept(m: State, m': State) {
    && m'.table == m.table && Extends(m, m')
    && forall i | 0 <= i < |m.subs| :: m'.subs[i].stored == m.subs[i].stored && m'.subs[i].fired == m.subs[i].fired
  }

  lemma JoinExtends(m: State, l: Joining)
    requires Safe(m) && JoinEnabled(m, l)
    ensures Extends(m, JoinStep(m, l))
    ensures !l.Store? ==> TableKept(m, JoinStep(m, l))
  {
    hide Holding, Table, Closure;
  }

  lemma LeaveExtends(m: State, l: Leaving)
    requires Safe(m) && LeaveEnabled(m, l)
    ensures Extends(m, LeaveStep(m, l))
    ensures !l.Remove? ==> TableKept(m, LeaveStep(m, l))
  {
    hide Safe;
  }

  lemma CastExtends(m: State, l: Casting)
    requires Safe(m) && CastEnabled(m, l)
    ensures TableKept(m, CastStep(m, l))
  {
    hide Safe, TableKept, CastEnabled, CastStep;
    if l.Visit? || l.Send? { ServeExtends(m, l); } else { TurnExtends(m, l); }
  }

  lemma TurnExtends(m: State, l: Casting)
    requires CastEnabled(m, l) && !l.Visit? && !l.Send?
    ensures TableKept(m, CastStep(m, l))
  {
  }

  lemma ServeExtends(m: State, l: Casting)
    requires CastEnabled(m, l) && (l.Visit? || l.Send?)
    ensures TableKept(m, CastStep(m, l))
  {
    hide Deliver;
    if l.Visit? {
      DeliverExtends(m.(mutex := Sending(m.mutex.unvisited - {l.s}, m.mutex.pending)), l.s);
    } else {
      DeliverExtends(Served(m, l.s), l.s);
    }
  }

  lemma DeliverExtends(m: State, s: nat)
    requires SubOk(m, s) && m.log != []
    ensures TableKept(m, Deliver(m, s)) && Deliver(m, s).mutex == m.mutex
  {
  }

  lemma TearExtends(m: State, l: Tearing)
    requires Safe(m) && TearEnabled(m, l)
    ensures Extends(m, TearStep(m, l))
    ensures !l.SweepDelete? ==> TableKept(m, TearStep(m, l))
  {
    hide Safe, Extends, TableKept, TearEnabled, TearStep;
    if l.Signal? || l.SweepCancel? { SignalExtends(m, l); }
    else if l.SweepDelete? { SweepDeleteExtends(m); }
    else { TearTurnExtends(m, l); }
  }

  lemma SignalExtends(m: State, l: Tearing)
    requires TearEnabled(m, l) && (l.Signal? || l.SweepCancel?)
    ensures Extends(m, TearStep(m, l)) && TableKept(m, TearStep(m, l))
  {
  }

  lemma SweepDeleteExtends(m: State)
    requires TearEnabled(m, SweepDelete)
    ensures Extends(m, TearStep(m, SweepDelete))
  {
  }

  lemma TearTurnExtends(m: State, l: Tearing)
    requires TearEnabled(m, l) && !l.Signal? && !l.SweepCancel? && !l.SweepDelete?
    ensures Extends(m, TearStep(m, l)) && TableKept(m, TearStep(m, l))
  {
    assert TearStep(m, l).subs == m.subs;
  }

  lemma OutExtends(m: State, l: Outside)
    requires Safe(m) && OutEnabled(m, l)
    ensures TableKept(m, OutStep(m, l))
  {
    hide Safe;
  }

  lemma StepExtends(m: State, l: Label)
    requires Safe(m) && Enabled(m, l)
    ensures Extends(m, Step(m, l))
  {
    hide Safe;
    match l
    case Join(j) => JoinExtends(m, j);
    case Leave(v) => LeaveExtends(m, v);
    case Cast(b) => CastExtends(m, b);
    case Tear(t) => TearExtends(m, t);
    case Out(o) => OutExtends(m, o);
  }
}
