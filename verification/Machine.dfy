/** The machine under its write lock (fsm.go), and its persistent record (json.go). */
module StateMachine {
  import opened Basics
  import opened Sorting
  import opened TransitionTable
  import opened RegistrySpec
  import opened RegistryLaws
  import opened HookRegistry

  datatype FsmError =
    | Canceled
    | InvalidConfiguration
    | CurrentStateIncorrect
    | InvalidStateTransition
    | CallbackFailed(failure: Failure)
    | EmptyState
    | EmptyTransitions
    | InvalidJSONTransitions(table: ConfigError)

  /** What one operation did: its error, the hooks it called, and how many interleaving
      points of each phase have passed. */
  datatype Report = Report(
    err: Option<FsmError>, guards: seq<HookEntry>, actions: seq<HookEntry>, preClock: nat, postClock: nat)

  function Refused(err: FsmError): Report { Report(Some(err), [], [], 0, 0) }

  class Machine {
    var state: string
    const transitions: Config
    const callbacks: Registry?
    /** Every state the machine has had, oldest first. */
    ghost var history: seq<string>

    ghost predicate Valid()
      reads this, transitions, callbacks, if callbacks == null then {} else callbacks.owned
    {
      && transitions.Valid()
      && (callbacks != null ==> callbacks.Valid())
      && history != [] && history[|history| - 1] == state
      && forall s | s in history :: s in transitions.config
    }

    ghost function Footprint(): set<object>
      reads this, callbacks
    {
      {this} + if callbacks == null then {} else {callbacks} + callbacks.owned
    }

    /** The registry as a value; a machine without one behaves as with an empty one. */
    ghost function Hooked(): Hooks
      reads this, callbacks
    {
      if callbacks == null then Hooks(None, map[], [], 0) else callbacks.Model()
    }

    constructor Raw(initialState: string, trans: Config, callbacks: Registry?)
      requires trans.Valid() && initialState in trans.config && (callbacks != null ==> callbacks.Valid())
      ensures Valid() && state == initialState && history == [initialState]
      ensures transitions == trans && this.callbacks == callbacks
    {
      state, transitions, this.callbacks := initialState, trans, callbacks;
      history := [initialState];
    }

    static method New(initialState: string, trans: Config?, callbacks: Registry?)
      returns (m: Machine?, err: Option<FsmError>)
      requires trans != null ==> trans.Valid()
      requires callbacks != null ==> callbacks.Valid()
      ensures m != null <==> trans != null && initialState in trans.config
      ensures m != null ==> fresh(m) && m.Valid() && m.history == [initialState]
      ensures m != null ==> m.transitions == trans && m.callbacks == callbacks
      ensures err == if m == null then Some(InvalidConfiguration) else None
    {
      if trans == null {
        return null, Some(InvalidConfiguration);
      }
      IndexExact(trans.config);
      if !trans.HasState(initialState) {
        return null, Some(InvalidConfiguration);
      }
      m := new Machine.Raw(initialState, trans, callbacks);
      err := None;
    }

    // ---------- reads ----------

    /** Scans the state list, yet gives the one ascending list of the destinations of the
        current state, which is what the table's own lookup gives. */
    method AvailableTransitions() returns (available: seq<string>)
      requires Valid()
      ensures Ascending(available, Successors(transitions.config, state))
      ensures forall xs :: Ascending(xs, Successors(transitions.config, state)) ==> xs == available
    {
      hide Registry.Valid;
      var allStates := transitions.GetAllStates();
      available := KeepAllowed(state, allStates);
      available := SortNames(available, Successors(transitions.config, state));
      forall xs | Ascending(xs, Successors(transitions.config, state)) ensures xs == available {
        AscendingUnique(xs, available, Successors(transitions.config, state));
      }
    }

    method KeepAllowed(current: string, allStates: seq<string>) returns (available: seq<string>)
      requires transitions.Valid() && current in transitions.config
      requires Ascending(allStates, transitions.config.Keys)
      ensures Lists(available, Successors(transitions.config, current))
    {
      hide Ascending, StrLess;
      AscendingLists(allStates, transitions.config.Keys);
      IndexExact(transitions.config);
      ghost var targets := Successors(transitions.config, current);
      available := [];
      for i := 0 to |allStates|
        invariant forall x :: x in available <==> x in allStates[..i] && x in targets
        invariant forall j, k :: 0 <= j < k < |available| ==> available[j] != available[k]
      {
        assert allStates[..i + 1] == allStates[..i] + [allStates[i]];
        if transitions.IsTransitionAllowed(current, allStates[i]) {
          available := available + [allStates[i]];
        }
      }
      assert allStates[..|allStates|] == allStates;
    }

    /** Scans the state list, yet agrees with the table's own answer for the current state. */
    method IsTerminal() returns (terminal: bool)
      requires Valid()
      ensures terminal == transitions.IsTerminal(state)
      ensures terminal <==> forall x :: !Allowed(transitions.config, state, x)
    {
      var current := state;
      var allStates := transitions.GetAllStates();
      IndexExact(transitions.config);
      LookupsExact(transitions, current, current);
      for i := 0 to |allStates|
        invariant forall k :: 0 <= k < i ==> !Allowed(transitions.config, current, allStates[k])
      {
        if transitions.IsTransitionAllowed(current, allStates[i]) {
          return false;
        }
      }
      assert forall x | Allowed(transitions.config, current, x) :: x in allStates;
      terminal := true;
    }

    // ---------- operations ----------

    /** The guards, none if there is no registry. */
    method RunGuards(from: string, to: string, pre: World)
      returns (failed: Option<Failure>, guards: seq<HookEntry>, clock: nat)
      requires Valid()
      modifies Footprint() - {this}
      ensures Valid() && Ran(Pre, Pick(old(Hooked()).log, Running(Pre, from, to)), pre, failed, guards)
      ensures ByName(old(Hooked()), Pre, from, to, Pick(old(Hooked()).log, Running(Pre, from, to)))
      ensures Hooked() == Evolved(old(Hooked()), pre, clock) && fresh(Footprint() - old(Footprint()))
    {
      hide Consistent, Evolved, Pick, WellFormed, ByName;
      if callbacks == null {
        NoHooks(from, to);
        NoNames(Hooked(), Pre, from, to);
        NothingYet(Hooked(), pre);
        return None, [], 0;
      }
      hide Registry.Valid;
      failed, guards, clock := callbacks.ExecutePreTransitionHooks(from, to, pre);
    }

    /** The actions, none if there is no registry. */
    method RunActions(from: string, to: string, post: World) returns (actions: seq<HookEntry>, clock: nat)
      requires Valid()
      modifies Footprint() - {this}
      ensures Valid() && actions == Pick(old(Hooked()).log, Running(Post, from, to))
      ensures ByName(old(Hooked()), Post, from, to, actions)
      ensures Hooked() == Evolved(old(Hooked()), post, clock) && fresh(Footprint() - old(Footprint()))
    {
      hide Consistent, Evolved, Pick, WellFormed, ByName;
      if callbacks == null {
        NoHooks(from, to);
        NoNames(Hooked(), Post, from, to);
        NothingYet(Hooked(), post);
        return [], 0;
      }
      hide Registry.Valid;
      actions, clock := callbacks.ExecutePostTransitionHooks(from, to, post);
    }

    /** SetState ignores the relation and the guards but not the state set, and still runs
        the actions. */
    method SetState(canceled: bool, to: string, post: World) returns (r: Report)
      requires Valid()
      modifies Footprint()
      ensures Valid() && r.guards == []
      ensures r.err ==
        if canceled then Some(Canceled) else if to !in transitions.config then Some(InvalidConfiguration) else None
      ensures r.err.Some? ==> history == old(history) && r.actions == []
      ensures r.err.None? ==> history == old(history) + [to]
      ensures r.err.None? ==> r.actions == Pick(old(Hooked()).log, Running(Post, old(state), to))
      ensures r.err.None? ==> ByName(old(Hooked()), Post, old(state), to, r.actions)
      ensures Hooked() == if r.err.None? then Evolved(old(Hooked()), post, r.postClock) else old(Hooked())
    {
      hide Registry.Valid, Consistent, Evolved, Pick, WellFormed, ByName;
      if canceled {
        return Refused(Canceled);
      }
      LookupsExact(transitions, to, to);
      if !transitions.HasState(to) {
        return Refused(InvalidConfiguration);
      }
      var from := state;
      state, history := to, history + [to];
      var actions, clock := RunActions(from, to, post);
      r := Report(None, [], actions, 0, clock);
    }

    /** A run to completion: either the state is left alone and no action runs, or the new
        state is stored and every action live after the guards have run is called once. */
    method Transition(canceled: bool, to: string, pre: World, post: World) returns (r: Report)
      requires Valid()
      modifies Footprint()
      ensures Valid()
      ensures RunToCompletion(
        old(Hooked()), old(state), to, canceled, Allowed(transitions.config, old(state), to), pre, r)
      ensures history == if r.err.None? then old(history) + [to] else old(history)
      ensures Hooked() == Evolved(Evolved(old(Hooked()), pre, r.preClock), post, r.postClock)
    {
      hide Registry.Valid, Consistent, Evolved, Pick, WellFormed, RunToCompletion, ByName;
      NothingYet(Hooked(), pre);
      NothingYet(Hooked(), post);
      EarlyRefusals(Hooked(), state, to, pre);
      LookupsExact(transitions, state, to);
      if canceled {
        return Refused(Canceled);
      }
      if !transitions.IsTransitionAllowed(state, to) {
        return Refused(InvalidStateTransition);
      }
      r := Proceed(to, pre, post);
    }

    /** Guards, the store, then the actions. */
    method Proceed(to: string, pre: World, post: World) returns (r: Report)
      requires Valid() && Allowed(transitions.config, state, to)
      modifies Footprint()
      ensures Valid()
      ensures RunToCompletion(old(Hooked()), old(state), to, false, true, pre, r)
      ensures history == if r.err.None? then old(history) + [to] else old(history)
      ensures Hooked() == Evolved(Evolved(old(Hooked()), pre, r.preClock), post, r.postClock)
    {
      hide Registry.Valid, Consistent, Evolved, Pick, WellFormed, ByName;
      AllowedStays(transitions.config, state, to);
      var from := state;
      var failed, guards, preClock := RunGuards(from, to, pre);
      NothingYet(Hooked(), post);
      if failed.Some? {
        return Report(Some(CallbackFailed(failed.value)), guards, [], preClock, 0);
      }
      state, history := to, history + [to];
      var actions, postClock := RunActions(from, to, post);
      r := Report(None, guards, actions, preClock, postClock);
    }

    /** Compare-and-swap: a success consumed the expected state. */
    method TransitionIfCurrentState(canceled: bool, from: string, to: string, pre: World, post: World)
      returns (r: Report)
      requires Valid()
      modifies Footprint()
      ensures Valid()
      ensures old(state) != from ==> r == Refused(CurrentStateIncorrect) && history == old(history)
      ensures old(state) == from ==>
        RunToCompletion(old(Hooked()), from, to, canceled, Allowed(transitions.config, from, to), pre, r)
      ensures history == if r.err.None? then old(history) + [to] else old(history)
      ensures r.err.None? ==> old(state) == from && Allowed(transitions.config, from, to)
      ensures Hooked() == Evolved(Evolved(old(Hooked()), pre, r.preClock), post, r.postClock)
    {
      hide Registry.Valid, Consistent, Evolved, Pick, WellFormed, ByName;
      if state != from {
        NothingYet(Hooked(), pre);
        NothingYet(Hooked(), post);
        return Refused(CurrentStateIncorrect);
      }
      r := Transition(canceled, to, pre, post);
    }

    // ---------- persistence ----------

    method MarshalState() returns (p: PersistentState)
      ensures p.state == state && p.transitions == transitions.config
      ensures Describes(p.hooks, Hooked().byName, Hooked().byName.Keys)
    {
      var m := transitions.AsMap();
      p := PersistentState(state, m, []);
      if callbacks != null {
        var infos := callbacks.GetHooks();
        p := p.(hooks := infos);
      }
    }

    /** The hooks of the record are dropped; everything else is checked again. */
    static method NewFromJSON(p: PersistentState, callbacks: Registry?) returns (m: Machine?, err: Option<FsmError>)
      requires callbacks != null ==> callbacks.Valid()
      ensures m != null <==>
        p.state != "" && p.transitions.Keys != {} && WellFormed(p.transitions) && p.state in p.transitions
      ensures m != null ==> fresh(m) && m.Valid() && m.history == [p.state]
      ensures m != null ==> m.transitions.config == p.transitions && m.callbacks == callbacks
      ensures p.state == "" ==> err == Some(EmptyState)
      ensures p.state != "" && p.transitions.Keys == {} ==> err == Some(EmptyTransitions)
      ensures p.state != "" && p.transitions.Keys != {} && !WellFormed(p.transitions) ==>
        err.Some? && err.value.InvalidJSONTransitions?
      ensures m != null ==> err.None?
    {
      if p.state == "" { return null, Some(EmptyState); }
      if |p.transitions| == 0 { return null, Some(EmptyTransitions); }
      var table, bad := Config.New(p.transitions);
      if table == null { return null, Some(InvalidJSONTransitions(bad.value)); }
      IndexExact(table.config);
      if !table.HasState(p.state) { return null, Some(InvalidConfiguration); }
      m, err := New(p.state, table, callbacks);
    }

    /** Persisting and rebuilding always succeeds and gives a machine with the same state
        and the same table, so the same hook-free runs. */
    method RoundTrip(callbacks': Registry?) returns (m: Machine?, err: Option<FsmError>)
      requires Valid()
      requires callbacks' != null ==> callbacks'.Valid()
      ensures m != null && err.None? && fresh(m) && m.Valid()
      ensures m.state == state && m.transitions.config == transitions.config
      ensures forall run :: Accepts(m.transitions.config, m.state, run) <==> Accepts(transitions.config, state, run)
    {
      ValidNameExactly(state);
      var p := MarshalState();
      m, err := NewFromJSON(p, callbacks');
    }
  }

  /** What MarshalJSON fills and NewFromJSON reads, dropping the hooks. */
  datatype PersistentState = PersistentState(state: string, transitions: ConfigMap, hooks: seq<HookInfo>)

  ghost function Successors(c: ConfigMap, from: string): set<string>
    requires from in c
  {
    set t | t in c[from]
  }

  lemma AscendingLists(xs: seq<string>, s: set<string>)
    requires Ascending(xs, s)
    ensures Lists(xs, s)
  {
    forall i, j | 0 <= i < j < |xs| ensures xs[i] != xs[j] { StrLessIrreflexive(xs[i]); }
  }

  ghost predicate Accepts(c: ConfigMap, from: string, run: seq<string>)
    decreases |run|
  {
    run == [] || (Allowed(c, from, run[0]) && Accepts(c, run[0], run[1..]))
  }

  /** What a transition reports. Guards: exactly those live at the start that match, up to
      and including the first that does not pass. Actions: none after a refusal, otherwise
      exactly those live once the guards have run. */
  ghost predicate RunToCompletion(
    h: Hooks, from: string, to: string, canceled: bool, allowed: bool, pre: World, r: Report)
  {
    var guards := Pick(h.log, Running(Pre, from, to));
    if canceled then r == Refused(Canceled)
    else if !allowed then r == Refused(InvalidStateTransition)
    else match r.err
      case None =>
        && r.guards == guards && ByName(h, Pre, from, to, guards)
        && (forall k :: 0 <= k < |guards| ==> pre.outcome(k) == Passed)
        && r.actions == Pick(Evolved(h, pre, r.preClock).log, Running(Post, from, to))
        && ByName(Evolved(h, pre, r.preClock), Post, from, to, r.actions)
      case Some(CallbackFailed(f)) =>
        && f.index < |guards| && r.guards == guards[..f.index + 1] && ByName(h, Pre, from, to, guards)
        && (forall k :: 0 <= k < f.index ==> pre.outcome(k) == Passed)
        && pre.outcome(f.index) == (if f.panicked then Panicked else Failed)
        && r.actions == []
      case Some(_) => false
  }

  lemma AllowedStays(c: ConfigMap, from: string, to: string)
    requires WellFormed(c) && Allowed(c, from, to)
    ensures to in c
  {
  }

  lemma NothingYet(h: Hooks, world: World)
    ensures Evolved(h, world, 0) == h
  {
  }

  lemma EarlyRefusals(h: Hooks, from: string, to: string, pre: World)
    ensures forall allowed :: RunToCompletion(h, from, to, true, allowed, pre, Refused(Canceled))
    ensures RunToCompletion(h, from, to, false, false, pre, Refused(InvalidStateTransition))
  {
  }

  lemma NoHooks(from: string, to: string)
    ensures Pick([], Running(Pre, from, to)) == [] && Pick([], Running(Post, from, to)) == []
  {
  }

  lemma NoNames(h: Hooks, t: HookType, from: string, to: string)
    requires h.byName == map[]
    ensures ByName(h, t, from, to, [])
  {
  }
}
