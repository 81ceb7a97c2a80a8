/** What the hook registry means: a log of live entries in registration order, and the
    queries an executor asks of it. The heap-level registry refines this. */
module RegistrySpec {
  import opened Basics

  datatype HookType = Pre | Post

  /** `registrationSeq` is unique among live entries and stands for the entry's address. */
  datatype HookEntry = HookEntry(
    callback: nat, fromStates: seq<string>, toStates: seq<string>, hookType: HookType, registrationSeq: nat)

  predicate HasWildcardPattern(e: HookEntry) { WILDCARD in e.fromStates || WILDCARD in e.toStates }

  predicate Matches(e: HookEntry, from: string, to: string) {
    && (WILDCARD in e.fromStates || from in e.fromStates)
    && (WILDCARD in e.toStates || to in e.toStates)
  }

  /** An index slot, a wildcard list, or everything one transition must run. */
  datatype Query =
    | Indexed(hookType: HookType, from: string, to: string)
    | Wildcards(hookType: HookType)
    | Running(hookType: HookType, from: string, to: string)

  predicate Wants(q: Query, e: HookEntry) {
    && e.hookType == q.hookType
    && match q
       case Indexed(_, from, to) => !HasWildcardPattern(e) && from in e.fromStates && to in e.toStates
       case Wildcards(_) => HasWildcardPattern(e)
       case Running(_, from, to) => Matches(e, from, to)
  }

  /** The entries of the log a query wants, in registration order, each once. */
  function Pick(log: seq<HookEntry>, q: Query): seq<HookEntry> {
    if log == [] then []
    else
      var n := |log| - 1;
      Pick(log[..n], q) + (if Wants(q, log[n]) then [log[n]] else [])
  }

  function Without(log: seq<HookEntry>, e: HookEntry): seq<HookEntry> {
    if log == [] then []
    else
      var n := |log| - 1;
      Without(log[..n], e) + (if log[n] == e then [] else [log[n]])
  }

  /** Registration order: strictly rising sequence numbers. */
  ghost predicate InOrder(log: seq<HookEntry>) {
    forall i, j :: 0 <= i < j < |log| ==> log[i].registrationSeq < log[j].registrationSeq
  }

  // ---------- the abstract registry ----------

  datatype Hooks = Hooks(
    states: Option<set<string>>, byName: map<string, HookEntry>, log: seq<HookEntry>, nextSeq: nat)

  datatype HookConfig = HookConfig(
    name: string, from: seq<string>, to: seq<string>, callback: Option<nat>, hookType: HookType)

  datatype HookError =
    | HookNameEmpty | StateListEmpty | HookFuncNil | HookNameAlreadyExists
    | WildcardWithoutTable | UnknownState | HookNotFound

  /** What the registry tells of one hook: everything but its callback and its number. */
  datatype HookInfo = HookInfo(name: string, fromStates: seq<string>, toStates: seq<string>, hookType: HookType)

  /** The infos tell of exactly the named hooks, each once, in any order. */
  ghost predicate Describes(infos: seq<HookInfo>, byName: map<string, HookEntry>, names: set<string>) {
    && names <= byName.Keys
    && (forall n | n in names :: exists x :: x in infos && x.name == n)
    && (forall x | x in infos :: x.name in names
          && var e := byName[x.name];
             x.fromStates == e.fromStates && x.toStates == e.toStates && x.hookType == e.hookType)
    && forall i, j :: 0 <= i < j < |infos| ==> infos[i].name != infos[j].name
  }

  lemma DescribesMore(infos: seq<HookInfo>, byName: map<string, HookEntry>, names: set<string>, n: string, x: HookInfo)
    requires Describes(infos, byName, names) && n in byName && n !in names
    requires var e := byName[n]; x == HookInfo(n, e.fromStates, e.toStates, e.hookType)
    ensures Describes(infos + [x], byName, names + {n})
  {
    var more := infos + [x];
    assert x in more;
    forall k | k in names + {n} ensures exists y :: y in more && y.name == k {
      if k != n {
        var y :| y in infos && y.name == k;
        assert y in more;
      }
    }
  }

  predicate Unknown(states: Option<set<string>>, names: seq<string>) {
    states.Some? && exists s :: s in names && s !in states.value
  }

  function NewEntry(cfg: HookConfig, seqNo: nat): HookEntry {
    HookEntry(if cfg.callback.Some? then cfg.callback.value else 0, cfg.from, cfg.to, cfg.hookType, seqNo)
  }

  function RegisterError(h: Hooks, cfg: HookConfig): Option<HookError> {
    if cfg.name == "" then Some(HookNameEmpty)
    else if cfg.from == [] || cfg.to == [] then Some(StateListEmpty)
    else if cfg.callback.None? then Some(HookFuncNil)
    else if cfg.name in h.byName then Some(HookNameAlreadyExists)
    else if WILDCARD in cfg.from || WILDCARD in cfg.to then
      if h.states.None? then Some(WildcardWithoutTable) else None
    else if Unknown(h.states, cfg.from) || Unknown(h.states, cfg.to) then Some(UnknownState)
    else None
  }

  function Register(h: Hooks, cfg: HookConfig): Hooks {
    if RegisterError(h, cfg).Some? then h
    else
      var e := NewEntry(cfg, h.nextSeq);
      h.(byName := h.byName[cfg.name := e], log := h.log + [e], nextSeq := h.nextSeq + 1)
  }

  function Remove(h: Hooks, name: string): Hooks {
    if name !in h.byName then h
    else h.(byName := h.byName - {name}, log := Without(h.log, h.byName[name]))
  }

  function Clear(h: Hooks): Hooks { h.(byName := map[], log := [], nextSeq := 0) }

  datatype Edit = DoRegister(cfg: HookConfig) | DoRemove(name: string) | DoClear

  function Apply(h: Hooks, e: Edit): Hooks {
    match e
    case DoRegister(cfg) => Register(h, cfg)
    case DoRemove(name) => Remove(h, name)
    case DoClear => Clear(h)
  }

  function ApplyAll(h: Hooks, es: seq<Edit>): Hooks
    decreases |es|
  {
    if es == [] then h else ApplyAll(Apply(h, es[0]), es[1..])
  }

  ghost predicate Consistent(h: Hooks) {
    && InOrder(h.log)
    && (forall e | e in h.log :: e.registrationSeq < h.nextSeq)
    && (forall n | n in h.byName :: h.byName[n] in h.log)
    && (forall n, m | n in h.byName && m in h.byName && h.byName[n] == h.byName[m] :: n == m)
    && (forall e | e in h.log :: exists n :: n in h.byName && h.byName[n] == e)
  }

  // ---------- laws of picking and removing ----------

  lemma PickAppend(log: seq<HookEntry>, e: HookEntry, q: Query)
    ensures Pick(log + [e], q) == if Wants(q, e) then Pick(log, q) + [e] else Pick(log, q)
  {
    assert (log + [e])[..|log|] == log;
  }

  lemma WithoutAppend(log: seq<HookEntry>, e: HookEntry, d: HookEntry)
    ensures Without(log + [e], d) == if e == d then Without(log, d) else Without(log, d) + [e]
  {
    assert (log + [e])[..|log|] == log;
  }

  lemma {:induction false} PickMembers(log: seq<HookEntry>, q: Query)
    ensures forall e :: e in Pick(log, q) <==> e in log && Wants(q, e)
  {
    if log != [] {
      PickMembers(log[..|log| - 1], q);
      assert log == log[..|log| - 1] + [log[|log| - 1]];
    }
  }

  lemma {:induction false} PickInOrder(log: seq<HookEntry>, q: Query)
    requires InOrder(log)
    ensures InOrder(Pick(log, q))
  {
    if log != [] {
      var n := |log| - 1;
      PickInOrder(log[..n], q);
      PickMembers(log[..n], q);
      var p := Pick(log[..n], q);
      forall i | 0 <= i < |p| ensures p[i].registrationSeq < log[n].registrationSeq {
        assert p[i] in p;
        assert p[i] in log[..n];
      }
    }
  }

  lemma {:induction false} WithoutMembers(log: seq<HookEntry>, d: HookEntry)
    ensures forall e :: e in Without(log, d) <==> e in log && e != d
  {
    if log != [] {
      WithoutMembers(log[..|log| - 1], d);
      assert log == log[..|log| - 1] + [log[|log| - 1]];
    }
  }

  lemma {:induction false} WithoutAbsent(log: seq<HookEntry>, d: HookEntry)
    requires d !in log
    ensures Without(log, d) == log
  {
    if log != [] {
      var n := |log| - 1;
      assert log == log[..n] + [log[n]];
      assert log[n] in log;
      WithoutAbsent(log[..n], d);
      WithoutAppend(log[..n], log[n], d);
    }
  }

  lemma {:induction false} PickWithout(log: seq<HookEntry>, q: Query, d: HookEntry)
    ensures Pick(Without(log, d), q) == Without(Pick(log, q), d)
  {
    if log != [] {
      var n := |log| - 1;
      PickWithout(log[..n], q, d);
      var w, p := Without(log[..n], d), Pick(log[..n], q);
      PickAppend(w, log[n], q);
      WithoutAppend(p, log[n], d);
      assert Without(log, d) == if log[n] == d then w else w + [log[n]];
      assert Pick(log, q) == if Wants(q, log[n]) then p + [log[n]] else p;
    }
  }

  /** `xs` is what is left of `ys` after dropping entries: `at` says where each came from. */
  ghost predicate Keeps(xs: seq<HookEntry>, ys: seq<HookEntry>, at: seq<nat>) {
    && |at| == |xs|
    && (forall i :: 0 <= i < |at| ==> at[i] < |ys| && xs[i] == ys[at[i]])
    && forall i, j :: 0 <= i < j < |at| ==> at[i] < at[j]
  }

  /** Removal keeps the relative order of the hooks that are left. */
  lemma {:induction false} WithoutKeepsOrder(log: seq<HookEntry>, d: HookEntry) returns (at: seq<nat>)
    ensures Keeps(Without(log, d), log, at)
  {
    at := [];
    if log != [] {
      var n := |log| - 1;
      at := WithoutKeepsOrder(log[..n], d);
      if log[n] != d { at := at + [n]; }
    }
  }

  lemma WithoutInOrder(log: seq<HookEntry>, d: HookEntry)
    requires InOrder(log)
    ensures InOrder(Without(log, d))
  {
    var at := WithoutKeepsOrder(log, d);
    var xs := Without(log, d);
    forall i, j | 0 <= i < j < |xs| ensures xs[i].registrationSeq < xs[j].registrationSeq {
      assert at[i] < at[j];
      assert log[at[i]].registrationSeq < log[at[j]].registrationSeq;
    }
  }

  // ---------- every edit keeps the registry consistent ----------

  lemma RegisterConsistent(h: Hooks, cfg: HookConfig)
    requires Consistent(h)
    ensures Consistent(Register(h, cfg))
  {
    if RegisterError(h, cfg).None? {
      FreshEntry(h, cfg);
      RegisterSucceeds(h, cfg);
      hide RegisterError, Register;
      AppendConsistent(h, Register(h, cfg), cfg.name, NewEntry(cfg, h.nextSeq));
    }
  }

  /** A new name for a new entry, numbered after all others. */
  lemma AppendConsistent(h: Hooks, h': Hooks, name: string, e: HookEntry)
    requires Consistent(h) && name !in h.byName && e !in h.log && e.registrationSeq == h.nextSeq
    requires h' == Hooks(h.states, h.byName[name := e], h.log + [e], h.nextSeq + 1)
    ensures Consistent(h')
  {
    forall x | x in h'.log ensures exists n :: n in h'.byName && h'.byName[n] == x {
      if x != e {
        var n :| n in h.byName && h.byName[n] == x;
        assert n in h'.byName && h'.byName[n] == x;
      } else {
        assert name in h'.byName && h'.byName[name] == x;
      }
    }
    forall i, j | 0 <= i < j < |h'.log| ensures h'.log[i].registrationSeq < h'.log[j].registrationSeq {
      if j == |h.log| { assert h'.log[i] in h.log; }
    }
  }

  lemma RemoveConsistent(h: Hooks, name: string)
    requires Consistent(h)
    ensures Consistent(Remove(h, name))
  {
    if name in h.byName {
      var d, h' := h.byName[name], Remove(h, name);
      WithoutInOrder(h.log, d);
      WithoutMembers(h.log, d);
      forall x | x in h'.log ensures exists n :: n in h'.byName && h'.byName[n] == x {
        var n :| n in h.byName && h.byName[n] == x;
        assert n in h'.byName && h'.byName[n] == x;
      }
    }
  }

  /** Whatever is registered, removed or cleared, in any order, the registry stays consistent. */
  lemma {:induction false} EditsConsistent(h: Hooks, es: seq<Edit>)
    requires Consistent(h)
    ensures Consistent(ApplyAll(h, es))
    decreases |es|
  {
    if es != [] {
      EditConsistent(h, es[0]);
      EditsConsistent(Apply(h, es[0]), es[1..]);
    }
  }

  lemma EditConsistent(h: Hooks, e: Edit)
    requires Consistent(h)
    ensures Consistent(Apply(h, e))
  {
    match e
    case DoRegister(cfg) => RegisterConsistent(h, cfg);
    case DoRemove(name) => RemoveConsistent(h, name);
    case DoClear =>
  }

  lemma {:induction false} ApplyAllAppend(h: Hooks, es: seq<Edit>, fs: seq<Edit>)
    ensures ApplyAll(h, es + fs) == ApplyAll(ApplyAll(h, es), fs)
    decreases |es|
  {
    if es == [] {
      assert es + fs == fs;
    } else {
      assert (es + fs)[1..] == es[1..] + fs;
      ApplyAllAppend(Apply(h, es[0]), es[1..], fs);
    }
  }

  /** Registering a hook and removing it again by name restores the names, the log and
      hence what every query selects; a failed registration changes nothing. */
  lemma RemoveInvertsRegister(h: Hooks, cfg: HookConfig)
    requires Consistent(h)
    ensures RegisterError(h, cfg).Some? ==> Register(h, cfg) == h
    ensures RegisterError(h, cfg).None? ==>
      var back := Remove(Register(h, cfg), cfg.name);
      back.byName == h.byName && back.log == h.log
  {
    if RegisterError(h, cfg).None? {
      FreshEntry(h, cfg);
      UndoRegister(h, cfg, NewEntry(cfg, h.nextSeq));
    }
  }

  lemma FreshEntry(h: Hooks, cfg: HookConfig)
    requires Consistent(h)
    ensures NewEntry(cfg, h.nextSeq) !in h.log
  {
  }

  lemma RegisterSucceeds(h: Hooks, cfg: HookConfig)
    requires RegisterError(h, cfg).None?
    ensures cfg.name !in h.byName
    ensures var e := NewEntry(cfg, h.nextSeq);
      Register(h, cfg) == Hooks(h.states, h.byName[cfg.name := e], h.log + [e], h.nextSeq + 1)
  {
  }

  lemma UndoRegister(h: Hooks, cfg: HookConfig, e: HookEntry)
    requires RegisterError(h, cfg).None? && e == NewEntry(cfg, h.nextSeq) && e !in h.log
    ensures var back := Remove(Register(h, cfg), cfg.name);
      back.byName == h.byName && back.log == h.log
  {
    RegisterSucceeds(h, cfg);
    WithoutAppend(h.log, e, e);
    WithoutAbsent(h.log, e);
    assert h.byName[cfg.name := e] - {cfg.name} == h.byName;
  }

  // ---------- merging the index slot with the wildcard list ----------

  function Matching(xs: seq<HookEntry>, from: string, to: string): seq<HookEntry> {
    if xs == [] then []
    else
      var n := |xs| - 1;
      Matching(xs[..n], from, to) + (if Matches(xs[n], from, to) then [xs[n]] else [])
  }

  lemma MatchingAppend(xs: seq<HookEntry>, e: HookEntry, from: string, to: string)
    ensures Matching(xs + [e], from, to)
      == if Matches(e, from, to) then Matching(xs, from, to) + [e] else Matching(xs, from, to)
  {
    assert (xs + [e])[..|xs|] == xs;
  }

  ghost predicate MergeHolds(log: seq<HookEntry>, t: HookType, from: string, to: string) {
    multiset(Pick(log, Indexed(t, from, to))) + multiset(Matching(Pick(log, Wildcards(t)), from, to))
      == multiset(Pick(log, Running(t, from, to)))
  }

  lemma {:induction false} MergeMultiset(log: seq<HookEntry>, t: HookType, from: string, to: string)
    ensures MergeHolds(log, t, from, to)
  {
    if log != [] {
      hide *;
      var n := |log| - 1;
      assert log[..n] + [log[n]] == log;
      MergeMultiset(log[..n], t, from, to);
      MergeStep(log[..n], log[n], t, from, to);
    }
  }

  lemma MergeStep(log: seq<HookEntry>, e: HookEntry, t: HookType, from: string, to: string)
    requires MergeHolds(log, t, from, to)
    ensures MergeHolds(log + [e], t, from, to)
  {
    MergeLast(log, e, t, from, to);
    EitherKind(e, t, from, to);
  }

  lemma EitherKind(e: HookEntry, t: HookType, from: string, to: string)
    ensures Wants(Running(t, from, to), e)
      <==> Wants(Indexed(t, from, to), e) || (Wants(Wildcards(t), e) && Matches(e, from, to))
    ensures !(Wants(Indexed(t, from, to), e) && Wants(Wildcards(t), e))
  {
  }

  lemma MergeLast(log: seq<HookEntry>, e: HookEntry, t: HookType, from: string, to: string)
    ensures multiset(Pick(log + [e], Indexed(t, from, to)))
         == multiset(Pick(log, Indexed(t, from, to)))
          + (if Wants(Indexed(t, from, to), e) then multiset{e} else multiset{})
    ensures multiset(Matching(Pick(log + [e], Wildcards(t)), from, to))
         == multiset(Matching(Pick(log, Wildcards(t)), from, to))
          + (if Wants(Wildcards(t), e) && Matches(e, from, to) then multiset{e} else multiset{})
    ensures multiset(Pick(log + [e], Running(t, from, to)))
         == multiset(Pick(log, Running(t, from, to)))
          + (if Wants(Running(t, from, to), e) then multiset{e} else multiset{})
  {
    PickAppend(log, e, Indexed(t, from, to));
    PickAppend(log, e, Running(t, from, to));
    PickAppend(log, e, Wildcards(t));
    MatchingAppend(Pick(log, Wildcards(t)), e, from, to);
  }

  predicate SeqLeq(a: HookEntry, b: HookEntry) { a.registrationSeq <= b.registrationSeq }

  /** An unstable sort is enough: distinct sequence numbers leave one sorted arrangement. */
  lemma {:induction false} SortedIsUnique(xs: seq<HookEntry>, ys: seq<HookEntry>)
    requires multiset(xs) == multiset(ys)
    requires forall i, j :: 0 <= i < j < |xs| ==> SeqLeq(xs[i], xs[j])
    requires InOrder(ys)
    ensures xs == ys
    decreases |xs|
  {
    MultisetMembers(xs, ys);
    if xs != [] {
      var n := |xs| - 1;
      SameLast(xs, ys);
      SameFront(xs, ys);
      SortedIsUnique(xs[..n], ys[..n]);
      assert xs == xs[..n] + [xs[n]] && ys == ys[..n] + [ys[n]];
    }
  }

  lemma SameFront(xs: seq<HookEntry>, ys: seq<HookEntry>)
    requires multiset(xs) == multiset(ys) && |xs| == |ys| > 0 && xs[|xs| - 1] == ys[|ys| - 1]
    requires InOrder(ys)
    ensures multiset(xs[..|xs| - 1]) == multiset(ys[..|ys| - 1]) && InOrder(ys[..|ys| - 1])
  {
    DropLast(xs);
    DropLast(ys);
  }

  lemma DropLast(xs: seq<HookEntry>)
    requires xs != []
    ensures multiset(xs[..|xs| - 1]) == multiset(xs) - multiset{xs[|xs| - 1]}
  {
    assert xs == xs[..|xs| - 1] + [xs[|xs| - 1]];
  }

  lemma SameLast(xs: seq<HookEntry>, ys: seq<HookEntry>)
    requires |xs| == |ys| > 0 && forall x :: x in xs <==> x in ys
    requires forall i, j :: 0 <= i < j < |xs| ==> SeqLeq(xs[i], xs[j])
    requires InOrder(ys)
    ensures xs[|xs| - 1] == ys[|ys| - 1]
  {
    var n := |xs| - 1;
    assert xs[n] in xs && ys[n] in ys;
    LastIsLatest(xs, ys[n]);
    LastIsLatest(ys, xs[n]);
    LastAlone(ys, xs[n]);
  }

  lemma LastIsLatest(xs: seq<HookEntry>, x: HookEntry)
    requires x in xs && forall i, j :: 0 <= i < j < |xs| ==> SeqLeq(xs[i], xs[j])
    ensures SeqLeq(x, xs[|xs| - 1])
  {
    var k :| 0 <= k < |xs| && xs[k] == x;
    assert k < |xs| - 1 ==> SeqLeq(xs[k], xs[|xs| - 1]);
  }

  lemma LastAlone(ys: seq<HookEntry>, y: HookEntry)
    requires y in ys && InOrder(ys)
    ensures y.registrationSeq == ys[|ys| - 1].registrationSeq ==> y == ys[|ys| - 1]
  {
    var k :| 0 <= k < |ys| && ys[k] == y;
    assert k < |ys| - 1 ==> ys[k].registrationSeq < ys[|ys| - 1].registrationSeq;
  }

  /** The slow path: merging the slot with the matching wildcards and sorting selects
      exactly the live hooks of the type that match, in registration order. */
  lemma MergeAndSort(h: Hooks, t: HookType, from: string, to: string, merged: seq<HookEntry>, sorted: seq<HookEntry>)
    requires Consistent(h)
    requires merged == Pick(h.log, Indexed(t, from, to)) + Matching(Pick(h.log, Wildcards(t)), from, to)
    requires multiset(sorted) == multiset(merged)
    requires forall i, j :: 0 <= i < j < |sorted| ==> SeqLeq(sorted[i], sorted[j])
    ensures sorted == Pick(h.log, Running(t, from, to))
  {
    MergeMultiset(h.log, t, from, to);
    PickInOrder(h.log, Running(t, from, to));
    SortedIsUnique(sorted, Pick(h.log, Running(t, from, to)));
  }

  /** The fast path: with no wildcard hook the slot alone is the selection. */
  lemma FastPath(h: Hooks, t: HookType, from: string, to: string)
    requires Consistent(h)
    requires Pick(h.log, Wildcards(t)) == []
    ensures Pick(h.log, Indexed(t, from, to)) == Pick(h.log, Running(t, from, to))
  {
    var slot := Pick(h.log, Indexed(t, from, to));
    PickInOrder(h.log, Indexed(t, from, to));
    assert slot == slot + Matching(Pick(h.log, Wildcards(t)), from, to);
    MergeAndSort(h, t, from, to, slot, slot);
  }
}
