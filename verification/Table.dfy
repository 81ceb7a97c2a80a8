/** The transition table: validation, the lookup index and the sorted views
    (transitions/config.go). */
module TransitionTable {
  import opened Basics
  import opened Sorting

  type ConfigMap = map<string, seq<string>>
  type Index = map<string, set<string>>

  // ---------- state names ----------

  predicate IsSpace(c: char) {
    || '\t' <= c <= '\r' || c == ' ' || c == '\U{85}' || c == '\U{A0}' || c == '\U{1680}'
    || '\U{2000}' <= c <= '\U{200A}' || c == '\U{2028}' || c == '\U{2029}' || c == '\U{202F}'
    || c == '\U{205F}' || c == '\U{3000}'
  }

  function TrimLeft(s: string): string {
    if s != [] && IsSpace(s[0]) then TrimLeft(s[1..]) else s
  }

  function TrimRight(s: string): string {
    if s != [] && IsSpace(s[|s| - 1]) then TrimRight(s[..|s| - 1]) else s
  }

  function TrimSpace(s: string): string { TrimRight(TrimLeft(s)) }

  datatype NameError = NameEmpty | NameBlank | NamePadded | NameReserved

  function ValidateStateName(state: string): Option<NameError> {
    if state == "" then Some(NameEmpty)
    else if TrimSpace(state) == "" then Some(NameBlank)
    else if TrimSpace(state) != state then Some(NamePadded)
    else if state == WILDCARD then Some(NameReserved)
    else None
  }

  predicate ValidName(state: string) { ValidateStateName(state).None? }

  lemma {:induction false} TrimLeftShrinks(s: string)
    ensures |TrimLeft(s)| <= |s|
    ensures |TrimLeft(s)| == |s| ==> TrimLeft(s) == s
    ensures TrimLeft(s) == s <==> s == [] || !IsSpace(s[0])
  {
    if s != [] && IsSpace(s[0]) { TrimLeftShrinks(s[1..]); }
  }

  lemma {:induction false} TrimRightShrinks(s: string)
    ensures |TrimRight(s)| <= |s|
    ensures TrimRight(s) == s <==> s == [] || !IsSpace(s[|s| - 1])
  {
    if s != [] && IsSpace(s[|s| - 1]) { TrimRightShrinks(s[..|s| - 1]); }
  }

  /** A name passes exactly when it is not empty, starts and ends with visible
      characters and is not the wildcard. */
  lemma ValidNameExactly(s: string)
    ensures ValidName(s) <==> s != [] && !IsSpace(s[0]) && !IsSpace(s[|s| - 1]) && s != WILDCARD
  {
    TrimLeftShrinks(s);
    TrimRightShrinks(TrimLeft(s));
  }

  // ---------- what a configuration means ----------

  /** Every name is valid and every destination is also a source. */
  ghost predicate WellFormed(c: ConfigMap) {
    forall f | f in c :: ValidName(f) && forall t | t in c[f] :: ValidName(t) && t in c
  }

  function Targets(tos: seq<string>): set<string> { set t | t in tos && ValidName(t) }

  function IndexOf(c: ConfigMap): Index {
    map f | f in c && ValidName(f) :: Targets(c[f])
  }

  /** Validly named destinations, listed under validly named sources, that are no source. */
  ghost function Undefined(c: ConfigMap): set<string> {
    set f, t | f in c && ValidName(f) && t in c[f] && ValidName(t) && t !in c :: t
  }

  ghost predicate Allowed(c: ConfigMap, from: string, to: string) {
    from in c && to in c[from]
  }

  // ---------- building the index ----------

  datatype BuildError =
    | InvalidSource(source: string)
    | InvalidDestination(destination: string)
    | UndefinedDestinations(names: seq<string>)

  ghost predicate BadSource(c: ConfigMap, f: string) { f in c && !ValidName(f) }

  ghost predicate BadDestination(c: ConfigMap, t: string) {
    !ValidName(t) && exists f :: f in c && ValidName(f) && t in c[f]
  }

  /** The joined errors name exactly what is wrong with the configuration. */
  ghost predicate ErrorsExact(c: ConfigMap, errs: seq<BuildError>) {
    && (forall f :: InvalidSource(f) in errs <==> BadSource(c, f))
    && (forall t :: InvalidDestination(t) in errs <==> BadDestination(c, t))
    && (Undefined(c) == {} <==> forall e | e in errs :: !e.UndefinedDestinations?)
    && (forall e | e in errs && e.UndefinedDestinations? :: Ascending(e.names, Undefined(c)))
  }

  /** One source: validate its destinations, collecting the targets, the undefined
      names and the errors. */
  method IndexSource(config: ConfigMap, tos: seq<string>, undefined0: set<string>, errs0: seq<BuildError>)
    returns (targets: set<string>, undefined: set<string>, errs: seq<BuildError>)
    ensures targets == Targets(tos)
    ensures undefined == undefined0 + (set t | t in tos && ValidName(t) && t !in config)
    ensures forall e ::
      e in errs <==> e in errs0 || (e.InvalidDestination? && e.destination in tos && !ValidName(e.destination))
  {
    targets, undefined, errs := {}, undefined0, errs0;
    for i := 0 to |tos|
      invariant targets == Targets(tos[..i])
      invariant undefined == undefined0 + (set t | t in tos[..i] && ValidName(t) && t !in config)
      invariant forall e ::
        e in errs <==> e in errs0 || (e.InvalidDestination? && e.destination in tos[..i] && !ValidName(e.destination))
    {
      assert tos[..i + 1] == tos[..i] + [tos[i]];
      var to := tos[i];
      if ValidateStateName(to).Some? {
        errs := errs + [InvalidDestination(to)];
        continue;
      }
      targets := targets + {to};
      if to !in config {
        undefined := undefined + {to};
      }
    }
    assert tos[..|tos|] == tos;
  }

  // The same notions over the sources walked so far.

  function IndexOn(c: ConfigMap, done: set<string>): Index {
    map f | f in c && f in done && ValidName(f) :: Targets(c[f])
  }

  ghost function UndefinedOn(c: ConfigMap, done: set<string>): set<string> {
    set f, t | f in c && f in done && ValidName(f) && t in c[f] && ValidName(t) && t !in c :: t
  }

  ghost predicate BadDestinationOn(c: ConfigMap, done: set<string>, t: string) {
    !ValidName(t) && exists f :: f in c && f in done && ValidName(f) && t in c[f]
  }

  ghost predicate ErrorsOn(c: ConfigMap, done: set<string>, errs: seq<BuildError>) {
    && (forall f :: InvalidSource(f) in errs <==> f in done && BadSource(c, f))
    && (forall t :: InvalidDestination(t) in errs <==> BadDestinationOn(c, done, t))
    && (forall e | e in errs :: !e.UndefinedDestinations?)
  }

  /** The index and the verdict do not depend on the order in which the map is walked. */
  method BuildIndex(config: ConfigMap) returns (index: Index, errs: seq<BuildError>)
    ensures index == IndexOf(config)
    ensures ErrorsExact(config, errs)
    ensures errs == [] <==> WellFormed(config)
  {
    index, errs := map[], [];
    var undefined: set<string> := {};
    var rest := config.Keys;
    ghost var done := {};
    while rest != {}
      invariant done == config.Keys - rest && rest <= config.Keys
      invariant index == IndexOn(config, done)
      invariant undefined == UndefinedOn(config, done)
      invariant ErrorsOn(config, done, errs)
      decreases rest
    {
      var from :| from in rest;
      rest := rest - {from};
      ghost var before := done;
      done := done + {from};
      if ValidateStateName(from).Some? {
        SkipSource(config, before, from, errs);
        errs := errs + [InvalidSource(from)];
      } else {
        var targets, undefined', errs' := IndexSource(config, config[from], undefined, errs);
        AddSource(config, before, from);
        AddErrors(config, before, from, errs, errs');
        index, undefined, errs := index[from := targets], undefined', errs';
      }
    }
    assert done == config.Keys;
    WalkedAll(config, errs);
    if undefined != {} {
      var names := Collect(undefined);
      names := SortNames(names, undefined);
      ghost var walked := errs;
      errs := errs + [UndefinedDestinations(names)];
      JoinUndefined(config, walked, names);
    }
    NoErrors(config, errs);
  }

  lemma SkipSource(c: ConfigMap, done: set<string>, from: string, errs: seq<BuildError>)
    requires from in c && !ValidName(from) && ErrorsOn(c, done, errs)
    ensures IndexOn(c, done + {from}) == IndexOn(c, done)
    ensures UndefinedOn(c, done + {from}) == UndefinedOn(c, done)
    ensures ErrorsOn(c, done + {from}, errs + [InvalidSource(from)])
  {
  }

  lemma AddSource(c: ConfigMap, done: set<string>, from: string)
    requires from in c && ValidName(from)
    ensures IndexOn(c, done + {from}) == IndexOn(c, done)[from := Targets(c[from])]
    ensures UndefinedOn(c, done + {from}) == UndefinedOn(c, done) + (set t | t in c[from] && ValidName(t) && t !in c)
  {
    var new_ := set t | t in c[from] && ValidName(t) && t !in c;
    forall t ensures t in UndefinedOn(c, done + {from}) <==> t in UndefinedOn(c, done) + new_ {
      if t in new_ { assert from in c && from in done + {from}; }
    }
  }

  lemma AddErrors(c: ConfigMap, done: set<string>, from: string, errs: seq<BuildError>, errs': seq<BuildError>)
    requires from in c && ValidName(from) && ErrorsOn(c, done, errs)
    requires forall e ::
      e in errs' <==> e in errs || (e.InvalidDestination? && e.destination in c[from] && !ValidName(e.destination))
    ensures ErrorsOn(c, done + {from}, errs')
  {
    forall t ensures InvalidDestination(t) in errs' <==> BadDestinationOn(c, done + {from}, t) {
      if t in c[from] && !ValidName(t) { assert from in c && from in done + {from}; }
    }
  }

  lemma WalkedAll(c: ConfigMap, errs: seq<BuildError>)
    requires ErrorsOn(c, c.Keys, errs)
    ensures IndexOn(c, c.Keys) == IndexOf(c)
    ensures UndefinedOn(c, c.Keys) == Undefined(c)
    ensures Undefined(c) == {} ==> ErrorsExact(c, errs)
  {
    forall t ensures BadDestinationOn(c, c.Keys, t) <==> BadDestination(c, t) {
    }
  }

  lemma JoinUndefined(c: ConfigMap, errs: seq<BuildError>, names: seq<string>)
    requires ErrorsOn(c, c.Keys, errs)
    requires Undefined(c) != {} && Ascending(names, Undefined(c))
    ensures ErrorsExact(c, errs + [UndefinedDestinations(names)])
  {
    var all := errs + [UndefinedDestinations(names)];
    assert UndefinedDestinations(names) in all;
    forall t ensures InvalidDestination(t) in all <==> BadDestination(c, t) {
      assert BadDestinationOn(c, c.Keys, t) <==> BadDestination(c, t);
    }
  }

  lemma NoErrors(c: ConfigMap, errs: seq<BuildError>)
    requires ErrorsExact(c, errs)
    ensures errs == [] <==> WellFormed(c)
  {
    if errs != [] {
      var e := errs[0];
      assert e in errs;
      if e.UndefinedDestinations? && Undefined(c) != {} { var t :| t in Undefined(c); }
    }
    if errs == [] {
      assert Undefined(c) == {};
      forall f | f in c ensures ValidName(f) && forall t | t in c[f] :: ValidName(t) && t in c {
        assert !BadSource(c, f);
        forall t | t in c[f] ensures ValidName(t) && t in c {
          assert !BadDestination(c, t);
          assert t !in Undefined(c);
        }
      }
    }
  }

  // ---------- the table object ----------

  datatype ConfigError = EmptyConfig | InvalidConfig(errs: seq<BuildError>)

  /** Config keeps the map it was given and the index built from it. */
  class Config {
    var config: ConfigMap
    var index: Index

    ghost predicate Valid()
      reads this
    {
      config.Keys != {} && WellFormed(config) && index == IndexOf(config)
    }

    constructor Raw(config: ConfigMap, index: Index)
      ensures this.config == config && this.index == index
    {
      this.config, this.index := config, index;
    }

    /** New keeps a copy of the map and builds the index from the copy. */
    static method New(config: ConfigMap) returns (t: Config?, err: Option<ConfigError>)
      ensures t != null <==> config.Keys != {} && WellFormed(config)
      ensures t != null ==> fresh(t) && t.Valid() && t.config == config && err.None?
      ensures config.Keys == {} <==> err == Some(EmptyConfig)
      ensures config.Keys != {} && !WellFormed(config) ==>
        err.Some? && err.value.InvalidConfig? && ErrorsExact(config, err.value.errs)
    {
      if |config| == 0 {
        return null, Some(EmptyConfig);
      }
      var stored := config;
      var index, errs := BuildIndex(stored);
      if errs != [] {
        return null, Some(InvalidConfig(errs));
      }
      t := new Config.Raw(stored, index);
      err := None;
    }

    /** Decoding over an existing table replaces it entirely or leaves it alone. */
    method UnmarshalJSON(decoded: ConfigMap) returns (err: Option<ConfigError>)
      modifies this
      ensures err.None? <==> decoded.Keys != {} && WellFormed(decoded)
      ensures err.None? ==> Valid() && config == decoded
      ensures err.Some? ==> unchanged(this)
    {
      if |decoded| == 0 {
        return Some(EmptyConfig);
      }
      var built, errs := BuildIndex(decoded);
      if errs != [] {
        return Some(InvalidConfig(errs));
      }
      config, index := decoded, built;
      err := None;
    }

    predicate IsTransitionAllowed(from: string, to: string)
      reads this
    {
      from in index && to in index[from]
    }

    predicate HasState(state: string)
      reads this
    {
      state in index
    }

    predicate IsTerminal(state: string)
      reads this
    {
      state in index && |index[state]| == 0
    }

    method GetAllowedTransitions(from: string) returns (targets: seq<string>, known: bool)
      requires Valid()
      ensures known <==> from in config
      ensures known ==> Ascending(targets, set t | t in config[from])
      ensures !known ==> targets == []
    {
      IndexExact(config);
      if from !in index {
        return [], false;
      }
      targets := Collect(index[from]);
      targets := SortNames(targets, index[from]);
      known := true;
    }

    static method AddAll(states: set<string>, tos: seq<string>) returns (all: set<string>)
      ensures all == states + (set t | t in tos)
    {
      all := states;
      for i := 0 to |tos|
        invariant all == states + (set t | t in tos[..i])
      {
        assert tos[..i + 1] == tos[..i] + [tos[i]];
        all := all + {tos[i]};
      }
      assert tos[..|tos|] == tos;
    }

    method GetAllStates() returns (states: seq<string>)
      requires Valid()
      ensures Ascending(states, config.Keys)
    {
      var stateSet := {};
      var rest := config.Keys;
      while rest != {}
        invariant rest <= config.Keys && stateSet == config.Keys - rest
        decreases rest
      {
        var from :| from in rest;
        stateSet, rest := stateSet + {from}, rest - {from};
      }
      rest := config.Keys;
      while rest != {}
        invariant rest <= config.Keys && config.Keys <= stateSet
        invariant stateSet == config.Keys + (set f, t | f in config && f !in rest && t in config[f] :: t)
        decreases rest
      {
        var from :| from in rest;
        stateSet := AddAll(stateSet, config[from]);
        rest := rest - {from};
      }
      assert stateSet == config.Keys;
      states := Collect(stateSet);
      states := SortNames(states, stateSet);
    }

    method AsMap() returns (result: ConfigMap)
      ensures result == config
    {
      result := config;
    }
  }

  /** In a well-formed table the index denotes exactly the relation of the map. */
  lemma IndexExact(c: ConfigMap)
    requires WellFormed(c)
    ensures IndexOf(c).Keys == c.Keys
    ensures forall f | f in c :: IndexOf(c)[f] == set t | t in c[f]
    ensures forall f, t :: Allowed(c, f, t) <==> f in IndexOf(c) && t in IndexOf(c)[f]
    ensures forall f, t | Allowed(c, f, t) :: f in c && t in c
  {
  }

  /** The lookups answer for the relation of the configuration, over every pair of names. */
  lemma LookupsExact(t: Config, from: string, to: string)
    requires t.Valid()
    ensures t.IsTransitionAllowed(from, to) <==> Allowed(t.config, from, to)
    ensures t.HasState(from) <==> from in t.config
    ensures t.IsTerminal(from) <==> from in t.config && forall x :: !Allowed(t.config, from, x)
  {
    IndexExact(t.config);
    if from in t.config && |t.index[from]| != 0 {
      var x :| x in t.index[from];
      assert Allowed(t.config, from, x);
    }
    if from in t.config && t.index[from] == {} {
      forall x ensures !Allowed(t.config, from, x) { assert x !in t.index[from]; }
    }
  }
}
