/** The manager's own code (hooks/broadcast/manager.go), one loop for each of the source's,
    with everything else that may happen between any two of its steps. Every method is a run
    of the protocol, so what holds of all runs holds of it. */
module BroadcastManager {
  import opened Basics
  import opened BroadcastProtocol
  import opened BroadcastSafety
  import opened BroadcastDelivery
  import opened BroadcastTheorems
  import opened BroadcastPlaces
  import opened BroadcastOutcomes
  import opened BroadcastServing
  import opened BroadcastOptions

  /** Whose code is running, and how far it has got: nobody else takes its steps. A callback
      still waiting for the mutex is a `Callback`, one that holds it a `Remover`. */
  datatype Me =
    | Outsider | Joiner(s: nat) | Callback(s: nat) | Remover(s: nat) | Caster | Tearer(u: nat) | Sweeper

  predicate Foreign(me: Me, l: Label) {
    match me
    case Outsider => true
    case Joiner(s) => l != Join(Store(s)) && l != Join(Arm(s))
    case Callback(s) => l != Leave(Remove(s))
    case Remover(s) => l != Leave(Remove(s)) && l != Leave(Close)
    case Caster => !(l.Cast? && (l.b.Visit? || l.b.Unlock?))
    case Tearer(u) => !(l.Tear? && (l.t.Signal? || l.t.SignalEnd? || l.t.SweepLock?) && l.t.u == u)
    case Sweeper => !(l.Tear? && (l.t.SweepCancel? || l.t.SweepDelete? || l.t.SweepClose? || l.t.SweepUnlock?))
  }

  /** What others leave alone. */
  ghost predicate Kept(me: Me, m: State, m': State) {
    && Grown(m, m') && |m.teardowns| <= |m'.teardowns|
    && match me
       case Outsider => true
       case Joiner(s) => s < |m.subs| ==> m'.subs[s].stored == m.subs[s].stored && m'.subs[s].armed == m.subs[s].armed
       case Callback(s) => s < |m.subs| ==> m'.subs[s].fired == m.subs[s].fired
       case Remover(s) =>
         && (s < |m.subs| ==> m'.subs[s].fired == m.subs[s].fired)
         && (m.mutex == Closing(s) ==> m'.mutex == m.mutex && m'.table == m.table)
       case Caster =>
         m.mutex.Sending? ==>
           && m'.mutex.Sending? && m'.mutex.unvisited == m.mutex.unvisited
           && m'.mutex.pending <= m.mutex.pending && m'.log == m.log
       case Tearer(u) =>
         u < |m.teardowns| && m.teardowns[u] != Sweeping ==> m'.teardowns[u] == m.teardowns[u]
       case Sweeper => m.mutex.Draining? ==> m'.mutex == m.mutex
  }

  lemma StepKept(me: Me, m: State, l: Label)
    requires Safe(m) && Enabled(m, l) && Foreign(me, l)
    ensures Kept(me, m, Step(m, l))
  {
    StepGrown(m, l);
    hide Grown, Kept, Safe, Foreign, JoinStep, LeaveStep, CastStep, TearStep, OutStep;
    match l
    case Join(j) => JoinKept(me, m, j);
    case Leave(v) => LeaveKept(me, m, v);
    case Cast(b) => CastKept(me, m, b);
    case Tear(t) => TearKept(me, m, t);
    case Out(o) => OutKept(me, m, o);
  }

  lemma OutKept(me: Me, m: State, l: Outside)
    requires OutEnabled(m, l) && Grown(m, OutStep(m, l))
    ensures Kept(me, m, OutStep(m, l))
  {
    hide Grown;
  }

  lemma JoinKept(me: Me, m: State, l: Joining)
    requires Safe(m) && JoinEnabled(m, l) && Foreign(me, Join(l)) && Grown(m, JoinStep(m, l))
    ensures Kept(me, m, JoinStep(m, l))
  {
    hide Grown;
  }

  lemma LeaveKept(me: Me, m: State, l: Leaving)
    requires Safe(m) && LeaveEnabled(m, l) && Foreign(me, Leave(l)) && Grown(m, LeaveStep(m, l))
    ensures Kept(me, m, LeaveStep(m, l))
  {
    hide Grown;
  }

  lemma CastKept(me: Me, m: State, l: Casting)
    requires CastEnabled(m, l) && Foreign(me, Cast(l)) && Grown(m, CastStep(m, l))
    ensures Kept(me, m, CastStep(m, l))
  {
    CastFlags(m, l);
    hide Grown, CastStep;
  }

  /** A broadcast touches no flag, and only its own steps move it along. */
  lemma CastFlags(m: State, l: Casting)
    requires CastEnabled(m, l)
    ensures var m' := CastStep(m, l);
      && |m'.subs| == |m.subs| && m'.table == m.table && m'.teardowns == m.teardowns
      && (forall i | 0 <= i < |m.subs| ::
            && m'.subs[i].stored == m.subs[i].stored && m'.subs[i].armed == m.subs[i].armed
            && m'.subs[i].fired == m.subs[i].fired)
      && (l.Lock? || (m.mutex.Sending? && m'.log == m.log))
      && (l.Send? || l.Depart? || l.Expire? ==> m'.mutex == Sending(m.mutex.unvisited, m.mutex.pending - {l.s}))
  {
    hide Deliver;
    if l.Visit? { DeliverFlags(m.(mutex := Sending(m.mutex.unvisited - {l.s}, m.mutex.pending)), l.s); }
    if l.Send? { DeliverFlags(Served(m, l.s), l.s); }
  }

  lemma DeliverFlags(m: State, s: nat)
    requires SubOk(m, s) && m.log != []
    ensures var m' := Deliver(m, s);
      && |m'.subs| == |m.subs| && m' == m.(subs := m'.subs, chans := m'.chans, panicked := m'.panicked)
      && forall i | 0 <= i < |m.subs| ::
           && m'.subs[i].stored == m.subs[i].stored && m'.subs[i].armed == m.subs[i].armed
           && m'.subs[i].fired == m.subs[i].fired
  {
  }

  lemma TearKept(me: Me, m: State, l: Tearing)
    requires Safe(m) && TearEnabled(m, l) && Foreign(me, Tear(l)) && Grown(m, TearStep(m, l))
    ensures Kept(me, m, TearStep(m, l))
  {
    hide Grown, Shape, Table, Closure;
  }

  lemma KeptTransitive(me: Me, m: State, m1: State, m2: State)
    requires Kept(me, m, m1) && Kept(me, m1, m2)
    ensures Kept(me, m, m2)
  {
    GrownTransitive(m, m1, m2);
    hide Grown;
  }

  // ---------- the code ----------

  class Manager {
    var subs: seq<Sub>
    var chans: seq<Chan>
    var subscribers: map<nat, nat>
    var mutex: Mutex
    var log: seq<string>
    var teardowns: seq<Teardown>
    var panicked: bool
    /** Every step taken so far, by anyone. */
    ghost var trace: seq<Label>

    function View(): State
      reads this
    {
      State(subs, chans, subscribers, mutex, log, teardowns, panicked)
    }

    /** The object is where a run of the protocol has led it. */
    ghost predicate Valid()
      reads this
    {
      Run(Initial, trace) && After(Initial, trace) == View()
    }

    /** No step so far has displaced subscription `i`. */
    ghost predicate Undisturbed(i: nat)
      requires Valid()
      reads this
    {
      Undisplaced(Initial, trace, i)
    }

    /** Some step so far let subscription `i` miss broadcast `k`: its sender timed out, or it
        takes what it can and its channel was not ready when visited. */
    ghost predicate Missed(i: nat, k: nat)
      requires Valid()
      reads this
    {
      Misses(Initial, trace, i, k)
    }

    lemma MissedExactly(i: nat, k: nat)
      requires Valid() && mutex == Free && i < |subs| && Listed(View(), i) && subs[i].storedAt <= k < |log|
      ensures k in subs[i].sent <==> !Missed(i, k)
    {
      hide Listed;
      MissExactly(trace, i, k);
    }

    constructor ()
      ensures Valid() && View() == Initial
    {
      subs, chans, subscribers, mutex, log, teardowns, panicked := [], [], map[], Free, [], [], false;
      trace := [];
    }

    lemma Reached()
      requires Valid()
      ensures Reachable(View()) && Invariant(View()) && Safe(View())
    {
      ReachableInvariant(View());
      InvariantSafe(View());
      hide Invariant, Safe;
    }

    /** A live subscription is in the table exactly if no step so far has displaced it. */
    lemma InPlace(i: nat)
      requires Valid() && i < |subs| && subs[i].stored
      ensures !subs[i].cancelled ==> (Listed(View(), i) <==> Undisturbed(i))
    {
      if !subs[i].cancelled { PlaceExactly(trace, i); }
    }

    /** One atomic step of the protocol. */
    method Do(l: Label)
      requires Valid() && Enabled(View(), l)
      modifies this
      ensures Valid() && View() == Step(old(View()), l)
    {
      hide Enabled, Step;
      RunSnoc(Initial, trace, l);
      var m := Step(View(), l);
      subs, chans, subscribers, mutex := m.subs, m.chans, m.table, m.mutex;
      log, teardowns, panicked := m.log, m.teardowns, m.panicked;
      trace := trace + [l];
    }

    /** Others run: any of their steps, in any order. */
    method Yield(me: Me, steps: seq<Label>)
      requires Valid()
      modifies this
      ensures Valid() && Kept(me, old(View()), View())
    {
      hide Enabled, Step, Safe, Invariant, Grown;
      GrownSelf(View());
      for i := 0 to |steps|
        invariant Valid() && Kept(me, old(View()), View())
      {
        if Enabled(View(), steps[i]) && Foreign(me, steps[i]) {
          Reached();
          StepKept(me, View(), steps[i]);
          KeptTransitive(me, old(View()), View(), Step(View(), steps[i]));
          Do(steps[i]);
        }
      }
    }

    // ---------- subscribing ----------

    /** The entry is stored under the mutex and only then is its callback armed. */
    method Register(s: nat, world: nat -> seq<Label>) returns (done: bool)
      requires Valid() && s < |subs| && !subs[s].stored
      modifies this
      ensures Valid() && Grown(old(View()), View())
      ensures if done then subs[s].stored && subs[s].armed
        && |old(log)| <= subs[s].storedAt <= |log| else !subs[s].stored
      ensures done && !subs[s].cancelled ==> (Listed(View(), s) <==> Undisturbed(s))
    {
      hide Valid, Invariant, Safe, Listed;
      Yield(Joiner(s), world(0));
      if mutex != Free { return false; }
      SubReady(View(), s) by { Reached(); }
      Do(Join(Store(s)));
      label Stored:
      Yield(Joiner(s), world(1));
      SubReady(View(), s) by { Reached(); }
      Do(Join(Arm(s)));
      done := true;
      InPlace(s);
    }

    /** What the options settle, then the registration. `done` is false when the mutex was
        never free. */
    method GetStateChan(opts: seq<SubOption>, world: nat -> seq<Label>) returns (s: nat, done: bool)
      requires Valid()
      requires forall o | o in opts && o.WithCustomChannel? && o.channel.Some? ::
        o.channel.value < |chans| && !chans[o.channel.value].owned && chans[o.channel.value].closed == Open
      modifies this
      ensures Valid() && Grown(old(View()), View()) && s == |old(subs)| < |subs|
      ensures !subs[s].external ==> subs[s].ch == |old(chans)| < |chans| && chans[subs[s].ch].owned
      ensures forall k | LastChannel(opts, k) && opts[k].WithBufferSize? ::
        !subs[s].external && chans[subs[s].ch].capacity == if opts[k].size > 0 then opts[k].size else 0
      ensures !subs[s].external && (forall k | LastChannel(opts, k) :: !opts[k].WithBufferSize?) ==>
        chans[subs[s].ch].capacity == 1
      ensures subs[s].external <==> exists k :: LastChannel(opts, k) && opts[k] == WithCustomChannel(Some(subs[s].ch))
      ensures forall k | LastTimeout(opts, k) :: subs[s].mode == ModeOf(opts[k].timeout)
      ensures (forall k :: !LastTimeout(opts, k)) ==> subs[s].mode == BestEffort
      ensures forall k | LastTimeout(opts, k) ::
        (subs[s].mode == Guaranteed <==> opts[k].timeout < 0) && (subs[s].mode == Timed <==> opts[k].timeout > 0)
      ensures if done then subs[s].stored && subs[s].armed
        && |old(log)| <= subs[s].storedAt <= |log| else !subs[s].stored
      ensures done && !subs[s].cancelled ==> (Listed(View(), s) <==> Undisturbed(s))
    {
      hide Valid, Listed;
      var origin, mode, external := Resolve(opts);
      if origin.External? {
        ghost var k :| LastChannel(opts, k) && opts[k] == WithCustomChannel(Some(origin.c));
        assert opts[k] in opts;
      }
      s := |subs|;
      Do(Join(Begin(origin, mode)));
      hide LastChannel, LastTimeout, ModeOf;
      done := Register(s, world);
    }

    // ---------- ending a subscription ----------

    /** The AfterFunc callback of an ended subscription. */
    method Remove(s: nat, world: nat -> seq<Label>) returns (done: bool)
      requires Valid() && s < |subs| && subs[s].armed && subs[s].cancelled && !subs[s].fired
      modifies this
      ensures Valid() && Grown(old(View()), View())
      ensures done ==> subs[s].fired && mutex == Free && subs[s].ch < |chans|
      ensures done ==> (chans[subs[s].ch].closed == ByManager <==> !subs[s].external)
      ensures done ==> subs[s].ch !in subscribers
    {
      hide Valid, Invariant, Safe;
      Yield(Callback(s), world(0));
      if mutex != Free { return false; }
      SubReady(View(), s) by { Reached(); }
      Do(Leave(Leaving.Remove(s)));
      if mutex.Closing? {
        Yield(Remover(s), world(1));
        SubReady(View(), s) by { Reached(); }
        Do(Leave(Close));
      }
      done := true;
      RemovedNow(View(), s) by { Reached(); }
    }

    /** Locks, visits every entry of the table in any order, waits for the senders it left
        behind and unlocks. `done` is false when the mutex was never free or a sender is
        still parked; otherwise broadcast `n` has reached every live guaranteed subscriber
        stored before the call. */
    method Broadcast(value: string, world: nat -> seq<Label>) returns (n: nat, done: bool)
      requires Valid()
      modifies this
      ensures Valid() && Grown(old(View()), View())
      ensures done ==> mutex == Free && |old(log)| <= n && |log| == n + 1 && log[n] == value
      ensures done ==> forall i | 0 <= i < |old(subs)| && old(subs)[i].stored
        && subs[i].mode == Guaranteed && !subs[i].cancelled && Undisturbed(i) :: n in subs[i].sent
      ensures done ==> forall i | 0 <= i < |old(subs)| && old(subs)[i].stored && !subs[i].cancelled && Undisturbed(i) ::
        n in subs[i].sent <==> !Missed(i, n)
    {
      hide Valid, Invariant, Safe;
      forall i | 0 <= i < |subs| && subs[i].stored ensures subs[i].storedAt <= |log| {
        StoredBefore(View(), i) by { Reached(); }
      }
      Yield(Outsider, world(0));
      n := |log|;
      if mutex != Free { return n, false; }
      Do(Cast(Lock(value)));
      done := FanOut(n, world);
      if done {
        Do(Cast(Unlock));
        forall i | 0 <= i < |old(subs)| && old(subs)[i].stored { Reaches(i, n); }
      }
    }

    lemma Reaches(i: nat, n: nat)
      requires Valid() && mutex == Free && |log| == n + 1 && i < |subs| && subs[i].stored && subs[i].storedAt <= n
      ensures subs[i].mode == Guaranteed && !subs[i].cancelled && Undisturbed(i) ==> n in subs[i].sent
      ensures !subs[i].cancelled && Undisturbed(i) ==> (n in subs[i].sent <==> !Missed(i, n))
    {
      hide Valid, Listed, Undisturbed, Missed;
      InPlace(i);
      if !subs[i].cancelled && Undisturbed(i) { MissedExactly(i, n); }
      if subs[i].mode == Guaranteed && !subs[i].cancelled && Undisturbed(i) {
        HasBeenSent(View(), i, n) by { Reached(); }
      }
    }

    method FanOut(n: nat, world: nat -> seq<Label>) returns (done: bool)
      requires Valid() && mutex.Sending? && |log| == n + 1
      modifies this
      ensures Valid() && Grown(old(View()), View()) && log == old(log)
      ensures mutex.Sending? && mutex.unvisited == {}
      ensures done <==> mutex.pending == {}
    {
      hide Valid, Invariant, Safe, Grown;
      var clock := 1;
      GrownSelf(View());
      while mutex.unvisited != {}
        invariant Valid() && mutex.Sending? && log == old(log) && Grown(old(View()), View())
        decreases mutex.unvisited
      {
        var s :| s in mutex.unvisited;
        VisitReady(View(), s) by { Reached(); }
        GrownTransitive(old(View()), View(), Step(View(), Cast(Visit(s))));
        Do(Cast(Visit(s)));
        label Visited:
        Yield(Caster, world(clock));
        GrownTransitive(old(View()), old@Visited(View()), View());
        clock := clock + 1;
      }
      label Waiting:
      Yield(Caster, world(clock));
      GrownTransitive(old(View()), old@Waiting(View()), View());
      done := mutex.pending == {};
    }

    // ---------- UnsubscribeAll ----------

    /** Signals every subscription, then sweeps the table under the mutex. `done` is false
        when the mutex was never free; even then a broadcast that has held it throughout is
        left waiting for nobody who is not cancelled. Once done the table is empty and every
        subscription ever stored has ended. */
    method UnsubscribeAll(world: nat -> seq<Label>, more: nat -> seq<nat>) returns (done: bool)
      requires Valid()
      modifies this
      ensures Valid() && Grown(old(View()), View())
      ensures done ==> subscribers == map[] && mutex == Free
      ensures done ==> forall i | 0 <= i < |subs| ::
        && subs[i].ch < |chans|
        && (subs[i].stored ==> (chans[subs[i].ch].closed == ByManager <==> !subs[i].external))
        && (subs[i].stored && Undisturbed(i) ==> subs[i].cancelled)
      ensures !done && old(mutex).Sending? && mutex.Sending? && |log| == |old(log)| ==>
        AllCancelled(View(), Waiting(View()))
    {
      hide Valid, Invariant, Safe, AllCancelled, Waiting, Grown;
      if mutex.Sending? { LogStarted(View()) by { Reached(); } }
      var u := |teardowns|;
      BeginGrown(View());
      Do(Tear(TearBegin));
      label Begun:
      SignalAll(u, world, more);
      GrownTransitive(old(View()), old@Begun(View()), View());
      label Signalled:
      done := Sweep(u, world);
      GrownTransitive(old(View()), old@Signalled(View()), View());
      if !done && old(mutex).Sending? && mutex.Sending? && |log| == |old(log)| {
        Reached();
        ghost var ls := FirstPassReleases(View(), u, |old(log)| - 1);
      }
    }

    /** The first pass takes no mutex. It meets every entry that is in the table throughout,
        and any of the `more` that have been stored, each once. */
    method SignalAll(u: nat, world: nat -> seq<Label>, more: nat -> seq<nat>)
      requires Valid() && u < |teardowns| && teardowns[u].FirstPass?
      modifies this
      ensures Valid() && Grown(old(View()), View())
      ensures u < |teardowns| && teardowns[u] == Contending(old(teardowns[u].behind))
    {
      hide Valid, Invariant, Safe, Grown;
      var clock := 0;
      GrownSelf(View());
      while !(teardowns[u].present * Stored(View()) <= teardowns[u].seen)
        invariant Valid() && u < |teardowns| && teardowns[u].FirstPass?
          && teardowns[u].behind == old(teardowns[u].behind)
        invariant Grown(old(View()), View())
        decreases teardowns[u].present - teardowns[u].seen
      {
        var missed := teardowns[u].present * Stored(View());
        assert exists s :: s in missed && s !in teardowns[u].seen;
        var s :| s in missed && s !in teardowns[u].seen;
        SignalReady(View(), u, s) by { Reached(); }
        GrownTransitive(old(View()), View(), Step(View(), Tear(Signal(u, s))));
        Do(Tear(Signal(u, s)));
        label Met:
        Yield(Tearer(u), world(clock));
        GrownTransitive(old(View()), old@Met(View()), View());
        label Others:
        SignalMore(u, more(clock));
        GrownTransitive(old(View()), old@Others(View()), View());
        clock := clock + 1;
      }
      GrownSame(old(View()), View(), TearStep(View(), SignalEnd(u)));
      Do(Tear(SignalEnd(u)));
    }

    method SignalMore(u: nat, more: seq<nat>)
      requires Valid() && u < |teardowns| && teardowns[u].FirstPass?
      modifies this
      ensures Valid() && Grown(old(View()), View())
      ensures u < |teardowns| && teardowns[u].FirstPass? && old(teardowns[u]).seen <= teardowns[u].seen
      ensures teardowns[u] == old(teardowns[u]).(seen := teardowns[u].seen)
    {
      hide Valid, Invariant, Safe, Grown;
      GrownSelf(View());
      for k := 0 to |more|
        invariant Valid() && Grown(old(View()), View()) && u < |teardowns| && teardowns[u].FirstPass?
        invariant teardowns[u] == old(teardowns[u]).(seen := teardowns[u].seen)
        invariant old(teardowns[u]).seen <= teardowns[u].seen
      {
        var s := more[k];
        if s < |subs| && subs[s].stored && s !in teardowns[u].seen {
          SignalReady(View(), u, s) by { Reached(); }
          GrownTransitive(old(View()), View(), Step(View(), Tear(Signal(u, s))));
          Do(Tear(Signal(u, s)));
        }
      }
    }

    method Sweep(u: nat, world: nat -> seq<Label>) returns (done: bool)
      requires Valid() && u < |teardowns| && teardowns[u].Contending?
      modifies this
      ensures Valid() && Grown(old(View()), View())
      ensures !done ==> u < |teardowns| && teardowns[u] == old(teardowns[u])
      ensures done ==> subscribers == map[] && mutex == Free
      ensures done ==> forall i | 0 <= i < |subs| ::
        && subs[i].ch < |chans|
        && (subs[i].stored ==> (chans[subs[i].ch].closed == ByManager <==> !subs[i].external))
        && (subs[i].stored && Undisturbed(i) ==> subs[i].cancelled)
    {
      hide Valid, Invariant, Safe, Grown;
      Yield(Tearer(u), world(0));
      if mutex != Free { return false; }
      GrownSame(old(View()), View(), TearStep(View(), SweepLock(u)));
      Do(Tear(SweepLock(u)));
      var clock := 1;
      while mutex.todo != {}
        invariant Valid() && Grown(old(View()), View()) && mutex.Draining? && mutex.at == Next
        decreases mutex.todo
      {
        label Turn:
        clock := SweepOne(world, clock);
        GrownTransitive(old(View()), old@Turn(View()), View());
      }
      SweepReady(View()) by { Reached(); }
      SweepOutcome(View()) by { Reached(); }
      GrownSame(old(View()), View(), TearStep(View(), SweepUnlock));
      Do(Tear(SweepUnlock));
      forall i | 0 <= i < |subs| && subs[i].stored { InPlace(i); }
      done := true;
    }

    /** One entry of the table: cancelled, taken out, and closed if the manager owns it. */
    method SweepOne(world: nat -> seq<Label>, clock0: nat) returns (clock: nat)
      requires Valid() && mutex.Draining? && mutex.at == Next && mutex.todo != {}
      modifies this
      ensures Valid() && Grown(old(View()), View())
      ensures mutex.Draining? && mutex.at == Next && mutex.todo < old(mutex.todo)
    {
      hide Valid, Invariant, Safe, Grown;
      clock := clock0;
      GrownSelf(View());
      var s :| s in mutex.todo;
      SweepTurn(View(), SweepCancel(s)) by { Reached(); }
      clock := Turn(SweepCancel(s), world, clock);
      label Canceled:
      SweepTurn(View(), SweepDelete) by { Reached(); }
      clock := Turn(SweepDelete, world, clock);
      GrownTransitive(old(View()), old@Canceled(View()), View());
      if mutex.at.Deleted? {
        label Gone:
        SweepTurn(View(), SweepClose) by { Reached(); }
        clock := Turn(SweepClose, world, clock);
        GrownTransitive(old(View()), old@Gone(View()), View());
      }
    }

    /** One of the sweep's own steps, and whatever runs before the next. */
    method Turn(l: Tearing, world: nat -> seq<Label>, clock0: nat) returns (clock: nat)
      requires Valid() && TearEnabled(View(), l) && TearStep(View(), l).mutex.Draining?
      modifies this
      ensures Valid() && Grown(old(View()), View()) && mutex == TearStep(old(View()), l).mutex
    {
      hide Valid, Invariant, Safe, Grown, TearEnabled, TearStep;
      TearGrown(View(), l) by { Reached(); }
      Do(Tear(l));
      label Taken:
      Yield(Sweeper, world(clock0));
      GrownTransitive(old(View()), old@Taken(View()), View());
      clock := clock0 + 1;
    }
  }

  /** Nothing a record holds has changed. */
  lemma GrownSame(m: State, m1: State, m2: State)
    requires Grown(m, m1) && m2.subs == m1.subs && m2.chans == m1.chans && m2.log == m1.log
    ensures Grown(m, m2)
  {
  }

  lemma BeginGrown(m: State)
    ensures Grown(m, TearStep(m, TearBegin))
  {
  }

  lemma TearGrown(m: State, l: Tearing)
    requires Safe(m) && TearEnabled(m, l)
    ensures Grown(m, TearStep(m, l))
  {
    StepGrown(m, Tear(l));
  }

  lemma LogStarted(m: State)
    requires Safe(m) && m.mutex.Sending?
    ensures m.log != []
  {
  }

  lemma SignalReady(m: State, u: nat, s: nat)
    requires Safe(m) && u < |m.teardowns| && m.teardowns[u].FirstPass? && s !in m.teardowns[u].seen
    requires s in Stored(m) || (s < |m.subs| && m.subs[s].stored)
    ensures TearEnabled(m, Signal(u, s)) && Grown(m, TearStep(m, Signal(u, s)))
  {
    StepGrown(m, Tear(Signal(u, s)));
  }

  lemma SweepReady(m: State)
    requires Safe(m) && m.mutex.Draining? && m.mutex.at == Next && m.mutex.todo == {}
    ensures TearEnabled(m, SweepUnlock)
  {
  }

  /** The sweep's next step is always enabled. */
  lemma SweepTurn(m: State, l: Tearing)
    requires Safe(m) && m.mutex.Draining?
    requires match m.mutex.at
      case Next => l.SweepCancel? && l.s in m.mutex.todo
      case Signalled(_) => l.SweepDelete?
      case Deleted(_) => l.SweepClose?
    ensures TearEnabled(m, l) && TearStep(m, l).mutex.Draining?
    ensures TearStep(m, l).mutex.todo == if l.SweepCancel? then m.mutex.todo - {l.s} else m.mutex.todo
    ensures TearStep(m, l).mutex.at == match l
      case SweepCancel(s) => Signalled(s)
      case SweepDelete => if MustClose(m, m.mutex.at.v) then Deleted(m.mutex.at.v) else Next
      case _ => Next
  {
  }

  lemma VisitReady(m: State, s: nat)
    requires Safe(m) && m.mutex.Sending? && s in m.mutex.unvisited
    ensures CastEnabled(m, Visit(s)) && Grown(m, CastStep(m, Visit(s)))
    ensures var m' := CastStep(m, Visit(s));
      m'.mutex.Sending? && m'.mutex.unvisited == m.mutex.unvisited - {s} && m'.log == m.log
  {
    assert Listed(m, s);
    StepGrown(m, Cast(Visit(s)));
    hide Safe, Grown;
  }

  lemma RemovedNow(m: State, s: nat)
    requires Reachable(m) && s < |m.subs| && m.subs[s].fired && m.mutex == Free
    requires m.subs[s].ch !in m.table
    ensures m.subs[s].ch < |m.chans| && (m.chans[m.subs[s].ch].closed == ByManager <==> !m.subs[s].external)
  {
    ReachableInvariant(m);
    hide Complete, Passes, Ordered;
  }

  lemma HasBeenSent(m: State, i: nat, n: nat)
    requires Reachable(m) && i < |m.subs| && m.mutex == Free && |m.log| == n + 1 && Listed(m, i)
    requires m.subs[i].storedAt <= n && m.subs[i].mode == Guaranteed && !m.subs[i].cancelled
    ensures n in m.subs[i].sent
  {
    GuaranteedDelivery(m, i);
    assert m.subs[i].sent[n - m.subs[i].storedAt] == n;
  }

  lemma StoredBefore(m: State, i: nat)
    requires Reachable(m) && i < |m.subs|
    ensures m.subs[i].stored ==> m.subs[i].storedAt <= |m.log|
  {
    ReachableInvariant(m);
    hide Safe, Live, Complete, Passes;
    assert RecordOk(m.subs[i], |m.log|);
  }

  lemma SubReady(m: State, s: nat)
    requires Reachable(m) && s < |m.subs|
    ensures SubOk(m, s) && (m.subs[s].armed ==> m.subs[s].stored)
  {
    ReachableInvariant(m);
    InvariantSafe(m);
    hide Invariant;
  }

  lemma GrownSelf(m: State)
    ensures Grown(m, m)
  {
  }
}
