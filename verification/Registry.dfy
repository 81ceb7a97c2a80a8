/** The hook registry on the heap (hooks/registry.go): index slots and wildcard lists held
    as Go slices, and executors that read slices they captured earlier while other
    goroutines, and the hooks themselves, keep editing the registry. */
module HookRegistry {
  import opened Basics
  import opened Sorting
  import opened RegistrySpec
  import opened RegistryLaws
  import opened GoSlices

  /** A slice an executor holds, with the entries it had when it was captured. */
  datatype Snapshot = Snapshot(slice: Slice, content: seq<HookEntry>)

  class Registry {
    /** The states of the table given by WithTransitions; a table never changes. */
    const states: Option<set<string>>
    const nil: array<HookEntry>

    /** Both index maps and both wildcard lists, told apart by the query they answer. */
    var slots: map<Query, Slice>
    var hooks: map<string, HookEntry>
    var nextSeq: nat

    /** Live entries in registration order. */
    ghost var log: seq<HookEntry>
    /** What each slot holds, as values. */
    ghost var contents: Contents
    /** Every slice captured by an executor so far. */
    ghost var snapshots: set<Snapshot>
    /** The slot each backing array was made for, for every array a slot ever had. */
    ghost var home: map<array<HookEntry>, Query>
    ghost var owned: set<array<HookEntry>>

    ghost function Model(): Hooks
      reads this
    {
      Hooks(states, hooks, log, nextSeq)
    }

    /** Slots hold their contents, and no two slots share an array. */
    ghost predicate SlotsStored()
      reads `slots, `contents, `home, `owned, owned
    {
      && slots.Keys == contents.Keys && home.Keys <= owned
      && forall q | q in slots ::
        && slots[q].arr in home && home[slots[q].arr] == q
        && Fits(slots[q]) && Elems(slots[q]) == contents[q]
    }

    /** No captured slice has changed since its capture. */
    ghost predicate SnapshotsIntact()
      reads `snapshots, `owned, owned
    {
      forall s | s in snapshots :: s.slice.arr in owned && Fits(s.slice) && Elems(s.slice) == s.content
    }

    /** A snapshot on a slot's current array never reaches past the slot. */
    ghost predicate SnapshotsCovered()
      reads `snapshots, `slots, `home
    {
      forall s | s in snapshots && s.slice.arr in home ::
        var q := home[s.slice.arr];
        q in slots && slots[q].arr == s.slice.arr ==> s.slice.len <= slots[q].len
    }

    ghost predicate Storage()
      reads `slots, `contents, `snapshots, `home, `owned, owned
    {
      nil.Length == 0 && nil in owned && SlotsStored() && SnapshotsIntact() && SnapshotsCovered()
    }

    ghost predicate Valid()
      reads this, owned
    {
      Storage() && Consistent(Model()) && SlotsExact(contents, log)
    }

    constructor (states: Option<set<string>>)
      ensures Valid() && this.states == states && fresh(owned)
      ensures Model() == Hooks(states, map[], [], 0) && snapshots == {}
    {
      this.states := states;
      nil := new HookEntry[0];
      slots, hooks, nextSeq := map[], map[], 0;
      log, contents, snapshots, home := [], map[], {}, map[];
      new;
      owned := {nil};
    }

    function Lookup(q: Query): Slice
      reads this
    {
      if q in slots then slots[q] else Slice(nil, 0)
    }

    // ---------- slots on the heap ----------

    /** Points a slot at a slice: its own array no shorter than before, or a new array. */
    method Install(q: Query, s: Slice, ghost content: seq<HookEntry>)
      requires Storage() && Fits(s) && Elems(s) == content
      requires s.arr !in owned || (q in slots && s.arr == slots[q].arr && s.len >= slots[q].len)
      modifies `slots, `contents, `home, `owned
      ensures Storage() && owned == old(owned) + {s.arr}
      ensures contents == old(contents)[q := content]
    {
      slots := slots[q := s];
      contents := contents[q := content];
      home := home[s.arr := q];
      owned := owned + {s.arr};
    }

    /** The heap half of an append: the new element lies past every slot and snapshot. */
    method Extend(q: Query, e: HookEntry) returns (grown: Slice)
      requires Storage()
      modifies owned
      ensures Storage() && Fits(grown) && Elems(grown) == Held(contents, q) + [e]
      ensures fresh(grown.arr)
        || (grown.arr in owned && q in slots && grown.arr == slots[q].arr && grown.len > slots[q].len)
    {
      grown := Append(Lookup(q), e);
    }

    /** Appends to one slot, in place or on a fresh array. */
    method AppendAt(q: Query, e: HookEntry)
      requires Storage()
      modifies `slots, `contents, `home, `owned, owned
      ensures Storage() && owned >= old(owned) && (forall a | a in owned :: a in old(owned) || fresh(a))
      ensures contents == old(contents)[q := Held(old(contents), q) + [e]]
    {
      hide SlotsStored, SnapshotsIntact, SnapshotsCovered;
      var grown := Extend(q, e);
      Install(q, grown, Held(contents, q) + [e]);
    }

    /** Takes an entry out of one slot without writing an existing array. */
    method RemoveAt(q: Query, e: HookEntry)
      requires Storage() && q in contents
      modifies `slots, `contents, `home, `owned
      ensures Storage() && owned >= old(owned) && (forall a | a in owned :: a in old(owned) || fresh(a))
      ensures contents == old(contents)[q := Without(old(contents)[q], e)]
    {
      var rest := RemoveFrom(slots[q], e);
      Install(q, rest, Without(contents[q], e));
    }

    // ---------- registration ----------

    method ValidateUniqueStates(patterns: seq<string>) returns (ok: bool, unique: seq<string>)
      ensures ok <==> !Unknown(states, patterns)
      ensures ok ==> Lists(unique, set s | s in patterns)
    {
      var seen := {};
      unique := [];
      for i := 0 to |patterns|
        invariant !Unknown(states, patterns[..i])
        invariant seen == set s | s in patterns[..i]
        invariant Lists(unique, seen)
      {
        assert patterns[..i + 1] == patterns[..i] + [patterns[i]];
        var pattern := patterns[i];
        if states.Some? && pattern !in states.value {
          assert pattern in patterns;
          return false, [];
        }
        if pattern in seen {
          assert seen + {pattern} == seen;
        } else {
          seen, unique := seen + {pattern}, unique + [pattern];
        }
      }
      assert patterns[..|patterns|] == patterns;
      ok := true;
    }

    method BuildConcreteIndexKeys(t: HookType, from: seq<string>, to: seq<string>) returns (ok: bool, keys: seq<Query>)
      ensures ok <==> !Unknown(states, from) && !Unknown(states, to)
      ensures ok ==> forall k :: k in keys <==> k.Indexed? && k.hookType == t && k.from in from && k.to in to
      ensures ok ==> forall i, j :: 0 <= i < j < |keys| ==> keys[i] != keys[j]
    {
      var fromStates, toStates;
      ok, fromStates := ValidateUniqueStates(from);
      if !ok { return false, []; }
      ok, toStates := ValidateUniqueStates(to);
      if !ok { return false, []; }
      keys := [];
      for i := 0 to |fromStates|
        invariant forall k ::
          k in keys <==> k.Indexed? && k.hookType == t && k.from in fromStates[..i] && k.to in toStates
        invariant forall a, b :: 0 <= a < b < |keys| ==> keys[a] != keys[b]
      {
        assert fromStates[..i + 1] == fromStates[..i] + [fromStates[i]];
        keys := AddRow(keys, t, fromStates, i, toStates);
      }
      assert fromStates[..|fromStates|] == fromStates;
    }

    static method AddRow(keys0: seq<Query>, t: HookType, froms: seq<string>, i: nat, tos: seq<string>)
      returns (keys: seq<Query>)
      requires i < |froms| && froms[i] !in froms[..i]
      requires forall k :: k in keys0 <==> k.Indexed? && k.hookType == t && k.from in froms[..i] && k.to in tos
      requires forall a, b :: 0 <= a < b < |keys0| ==> keys0[a] != keys0[b]
      requires forall a, b :: 0 <= a < b < |tos| ==> tos[a] != tos[b]
      ensures forall k ::
        k in keys <==> k in keys0 || (k.Indexed? && k.hookType == t && k.from == froms[i] && k.to in tos)
      ensures forall a, b :: 0 <= a < b < |keys| ==> keys[a] != keys[b]
    {
      keys := keys0;
      for j := 0 to |tos|
        invariant forall k ::
          k in keys <==> k in keys0 || (k.Indexed? && k.hookType == t && k.from == froms[i] && k.to in tos[..j])
        invariant forall a, b :: 0 <= a < b < |keys| ==> keys[a] != keys[b]
      {
        assert tos[..j + 1] == tos[..j] + [tos[j]];
        assert Indexed(t, froms[i], tos[j]) !in keys;
        keys := keys + [Indexed(t, froms[i], tos[j])];
      }
      assert tos[..|tos|] == tos;
    }

    /** registerHookEntry: all validation first, then the name, the sequence number and the
        index together. A rejected registration leaves every field and every array alone. */
    method Register(cfg: HookConfig) returns (err: Option<HookError>)
      requires Valid()
      modifies this, owned
      ensures err == RegisterError(old(Model()), cfg) && Verdict(old(Model()), cfg, err)
      ensures err.Some? ==> unchanged(this) && unchanged(owned)
      ensures err.None? ==> Named(cfg, old(hooks), hooks)
      ensures err.None? ==> forall t, from, to ::
        Added(cfg, t, from, to, Pick(old(log), Running(t, from, to)), Pick(log, Running(t, from, to)))
      ensures Valid() && snapshots == old(snapshots)
      ensures Model() == RegistrySpec.Register(old(Model()), cfg)
      ensures owned >= old(owned) && (forall a | a in owned :: a in old(owned) || fresh(a))
    {
      hide Storage, Consistent, SlotsExact, Verdict, Named, Added;
      RegisterVerdict(Model(), cfg);
      if cfg.name == "" { return Some(HookNameEmpty); }
      if |cfg.from| == 0 || |cfg.to| == 0 { return Some(StateListEmpty); }
      if cfg.callback.None? { return Some(HookFuncNil); }
      if cfg.name in hooks { return Some(HookNameAlreadyExists); }
      var isWildcard := WILDCARD in cfg.from || WILDCARD in cfg.to;
      var keys := [Wildcards(cfg.hookType)];
      if isWildcard {
        if states.None? { return Some(WildcardWithoutTable); }
      } else {
        var ok;
        ok, keys := BuildConcreteIndexKeys(cfg.hookType, cfg.from, cfg.to);
        if !ok { return Some(UnknownState); }
      }
      RegisterConsistent(Model(), cfg);
      RegisterAdds(Model(), cfg);
      var entry := NewEntry(cfg, nextSeq);
      nextSeq := nextSeq + 1;
      hooks := hooks[cfg.name := entry];
      IndexEntry(entry, keys);
      log := log + [entry];
      err := None;
    }

    /** Appends the entry to each of its slots. */
    method AppendToSlots(entry: HookEntry, keys: seq<Query>)
      requires Storage()
      requires forall i, j :: 0 <= i < j < |keys| ==> keys[i] != keys[j]
      modifies `slots, `contents, `home, `owned, owned
      ensures Storage() && Appended(old(contents), contents, keys, entry)
      ensures owned >= old(owned) && (forall a | a in owned :: a in old(owned) || fresh(a))
    {
      hide Storage, Appended;
      NoneAppended(contents, entry);
      assert keys[..0] == [];
      for i := 0 to |keys|
        invariant Storage() && Appended(old(contents), contents, keys[..i], entry)
        invariant owned >= old(owned) && (forall a | a in owned :: a in old(owned) || fresh(a))
      {
        ghost var mid := contents;
        AppendAt(keys[i], entry);
        AppendedNext(old(contents), mid, contents, keys, i, entry);
      }
      assert keys[..|keys|] == keys;
    }

    method IndexEntry(entry: HookEntry, keys: seq<Query>)
      requires Storage() && SlotsExact(contents, log)
      requires forall i, j :: 0 <= i < j < |keys| ==> keys[i] != keys[j]
      requires forall q: Query :: q in keys <==> !q.Running? && Wants(q, entry)
      modifies `slots, `contents, `home, `owned, owned
      ensures Storage() && SlotsExact(contents, log + [entry])
      ensures owned >= old(owned) && (forall a | a in owned :: a in old(owned) || fresh(a))
    {
      hide Storage, SlotsExact;
      ghost var before := contents;
      AppendToSlots(entry, keys);
      AppendedExact(before, contents, log, keys, entry);
    }

    // ---------- removal ----------

    /** Takes the entry out of the given slots, in any order. */
    method RemoveFromSlots(entry: HookEntry, keys: set<Query>)
      requires Storage() && keys <= contents.Keys
      modifies `slots, `contents, `home, `owned
      ensures Storage() && Removed(old(contents), contents, keys, entry)
      ensures owned >= old(owned) && (forall a | a in owned :: a in old(owned) || fresh(a))
    {
      hide Storage;
      var rest := keys;
      while rest != {}
        invariant rest <= keys <= contents.Keys && Storage()
        invariant Removed(old(contents), contents, keys - rest, entry)
        invariant owned >= old(owned) && (forall a | a in owned :: a in old(owned) || fresh(a))
        decreases rest
      {
        var q :| q in rest;
        RemoveAt(q, entry);
        rest := rest - {q};
      }
    }

    /** The scan over the slots of the entry's type. */
    method UnindexEntry(entry: HookEntry)
      requires Storage() && SlotsExact(contents, log)
      modifies `slots, `contents, `home, `owned
      ensures Storage() && SlotsExact(contents, Without(log, entry))
      ensures owned >= old(owned) && (forall a | a in owned :: a in old(owned) || fresh(a))
    {
      hide SlotsExact, SnapshotsIntact, SnapshotsCovered;
      ghost var before := contents;
      var typed := set q | q in slots && q.hookType == entry.hookType;
      RemoveFromSlots(entry, typed);
      RemovedExact(before, contents, log, typed, entry);
    }

    /** RemoveHook writes no existing array at all. */
    method RemoveHook(name: string) returns (err: Option<HookError>)
      requires Valid()
      modifies this
      ensures err == if name in old(hooks) then None else Some(HookNotFound)
      ensures err.Some? ==> unchanged(this)
      ensures Valid() && snapshots == old(snapshots)
      ensures Model() == Remove(old(Model()), name)
      ensures err.None? ==> hooks == old(hooks) - {name} && forall t, from, to ::
        Taken(old(hooks)[name], Pick(old(log), Running(t, from, to)), Pick(log, Running(t, from, to)))
      ensures owned >= old(owned) && (forall a | a in owned :: a in old(owned) || fresh(a))
    {
      hide Storage, Consistent, SlotsExact;
      if name !in hooks { return Some(HookNotFound); }
      RemoveConsistent(Model(), name);
      RemoveTakes(Model(), name);
      hide Taken;
      var entry := hooks[name];
      UnindexEntry(entry);
      hooks := hooks - {name};
      log := Without(log, entry);
      err := None;
    }

    method Clear()
      requires Valid()
      modifies this
      ensures Valid() && snapshots == old(snapshots)
      ensures Model() == RegistrySpec.Clear(old(Model()))
      ensures hooks == map[] && forall t, from, to :: Pick(log, Running(t, from, to)) == []
      ensures owned == old(owned)
    {
      slots, hooks, nextSeq := map[], map[], 0;
      log, contents := [], map[];
    }

    /** GetHooks walks the names in any order. */
    method GetHooks() returns (infos: seq<HookInfo>)
      ensures Describes(infos, hooks, hooks.Keys)
    {
      infos := [];
      var rest := hooks.Keys;
      while rest != {}
        invariant rest <= hooks.Keys && Describes(infos, hooks, hooks.Keys - rest)
        decreases rest
      {
        hide Describes;
        var name :| name in rest;
        var entry := hooks[name];
        var info := HookInfo(name, entry.fromStates, entry.toStates, entry.hookType);
        DescribesMore(infos, hooks, hooks.Keys - rest, name, info);
        infos := infos + [info];
        rest := rest - {name};
        assert hooks.Keys - rest == (hooks.Keys - rest - {name}) + {name};
      }
      assert hooks.Keys - rest == hooks.Keys;
    }

    // ---------- executors and everything that runs meanwhile ----------

    method Perform(step: Step)
      requires Valid()
      modifies this, owned
      ensures Valid() && snapshots >= old(snapshots)
      ensures Model() == Effect(old(Model()), step)
      ensures owned >= old(owned) && (forall a | a in owned :: a in old(owned) || fresh(a))
    {
      hide Storage, Consistent, SlotsExact;
      match step
      case Editing(DoRegister(cfg)) =>
        var _ := Register(cfg);
      case Editing(DoRemove(name)) =>
        var _ := RemoveHook(name);
      case Editing(DoClear) =>
        Clear();
      case Capturing(t, from, to) =>
        var _ := Capture(Indexed(t, from, to));
        var _ := Capture(Wildcards(t));
    }

    /** Any number of edits and captures, in any order: every slice captured before still
        holds exactly the entries it was captured with. */
    method Interleave(steps: seq<Step>)
      requires Valid()
      modifies this, owned
      ensures Valid() && Model() == Effects(old(Model()), steps)
      ensures snapshots >= old(snapshots)
      ensures forall s | s in old(snapshots) :: Fits(s.slice) && Elems(s.slice) == s.content == old(Elems(s.slice))
      ensures owned >= old(owned) && (forall a | a in owned :: a in old(owned) || fresh(a))
    {
      hide Consistent, SlotsExact, Effect;
      assert forall s | s in snapshots :: Elems(s.slice) == s.content;
      for i := 0 to |steps|
        invariant Valid() && snapshots >= old(snapshots)
        invariant Model() == Effects(old(Model()), steps[..i])
        invariant owned >= old(owned) && (forall a | a in owned :: a in old(owned) || fresh(a))
      {
        EffectsNext(old(Model()), steps, i);
        Perform(steps[i]);
      }
      assert steps[..|steps|] == steps;
    }

    /** Reading one slot under the read lock. */
    method Capture(q: Query) returns (s: Slice)
      requires Valid() && !q.Running?
      modifies `snapshots
      ensures Valid() && Fits(s) && Elems(s) == Pick(log, q)
      ensures snapshots == old(snapshots) + {Snapshot(s, Pick(log, q))}
    {
      s := Lookup(q);
      assert Held(contents, q) == Pick(log, q);
      snapshots := snapshots + {Snapshot(s, Pick(log, q))};
    }

    /** One point at which others may run. */
    method Yield(world: World, clock: nat, ghost start: Hooks) returns (next: nat)
      requires Valid() && Model() == Evolved(start, world, clock)
      modifies this, owned
      ensures next == clock + 1
      ensures Valid() && Model() == Evolved(start, world, next) && snapshots >= old(snapshots)
      ensures owned >= old(owned) && (forall a | a in owned :: a in old(owned) || fresh(a))
    {
      hide Storage, Consistent, SlotsExact, Effects;
      Interleave(world.steps(clock));
      next := clock + 1;
    }

    /** Copies out a captured slice element by element while others run. */
    method ReadOut(s: Slice, ghost content: seq<HookEntry>, world: World, clock0: nat, ghost start: Hooks)
      returns (xs: seq<HookEntry>, clock: nat)
      requires Valid() && Snapshot(s, content) in snapshots && Model() == Evolved(start, world, clock0)
      modifies this, owned
      ensures xs == content
      ensures Valid() && Model() == Evolved(start, world, clock) && snapshots >= old(snapshots)
      ensures owned >= old(owned) && (forall a | a in owned :: a in old(owned) || fresh(a))
    {
      hide Consistent, SlotsExact, Evolved, SlotsStored, SnapshotsCovered;
      xs, clock := [], clock0;
      for i := 0 to s.len
        invariant Valid() && Model() == Evolved(start, world, clock) && snapshots >= old(snapshots)
        invariant |content| == s.len && xs == content[..i]
        invariant owned >= old(owned) && (forall a | a in owned :: a in old(owned) || fresh(a))
      {
        clock := Yield(world, clock, start);
        assert s.arr[..s.len][i] == content[i];
        xs := xs + [s.arr[i]];
      }
    }

    /** Runs hooks straight out of the captured slice, re-reading the array each time. */
    method RunSlice(t: HookType, s: Slice, ghost content: seq<HookEntry>, world: World, clock0: nat, ghost start: Hooks)
      returns (failed: Option<Failure>, calls: seq<HookEntry>, clock: nat)
      requires Valid() && Snapshot(s, content) in snapshots && Model() == Evolved(start, world, clock0)
      modifies this, owned
      ensures Ran(t, content, world, failed, calls)
      ensures Valid() && Model() == Evolved(start, world, clock) && snapshots >= old(snapshots)
      ensures owned >= old(owned) && (forall a | a in owned :: a in old(owned) || fresh(a))
    {
      hide Consistent, SlotsExact, Evolved, SlotsStored, SnapshotsCovered;
      failed, calls, clock := None, [], clock0;
      for i := 0 to s.len
        invariant Valid() && Model() == Evolved(start, world, clock) && snapshots >= old(snapshots)
        invariant |content| == s.len && calls == content[..i]
        invariant t.Pre? ==> forall k :: 0 <= k < i ==> world.outcome(k) == Passed
        invariant owned >= old(owned) && (forall a | a in owned :: a in old(owned) || fresh(a))
      {
        assert s.arr[..s.len][i] == content[i];
        calls := calls + [s.arr[i]];
        clock := Yield(world, clock, start);
        if t.Pre? && world.outcome(i) != Passed {
          failed := Some(Failure(i, world.outcome(i) == Panicked));
          return;
        }
      }
    }

    /** Runs hooks from the executor's own merged and sorted list. */
    method RunList(t: HookType, list: seq<HookEntry>, world: World, clock0: nat, ghost start: Hooks)
      returns (failed: Option<Failure>, calls: seq<HookEntry>, clock: nat)
      requires Valid() && Model() == Evolved(start, world, clock0)
      modifies this, owned
      ensures Ran(t, list, world, failed, calls)
      ensures Valid() && Model() == Evolved(start, world, clock) && snapshots >= old(snapshots)
      ensures owned >= old(owned) && (forall a | a in owned :: a in old(owned) || fresh(a))
    {
      hide Storage, Consistent, SlotsExact, Evolved;
      failed, calls, clock := None, [], clock0;
      for i := 0 to |list|
        invariant Valid() && Model() == Evolved(start, world, clock) && snapshots >= old(snapshots)
        invariant calls == list[..i]
        invariant t.Pre? ==> forall k :: 0 <= k < i ==> world.outcome(k) == Passed
        invariant owned >= old(owned) && (forall a | a in owned :: a in old(owned) || fresh(a))
      {
        calls := calls + [list[i]];
        clock := Yield(world, clock, start);
        if t.Pre? && world.outcome(i) != Passed {
          failed := Some(Failure(i, world.outcome(i) == Panicked));
          return;
        }
      }
    }

    method KeepMatching(xs: seq<HookEntry>, from: string, to: string) returns (ys: seq<HookEntry>)
      ensures ys == Matching(xs, from, to)
    {
      ys := [];
      for i := 0 to |xs|
        invariant ys == Matching(xs[..i], from, to)
      {
        assert xs[..i + 1] == xs[..i] + [xs[i]];
        MatchingAppend(xs[..i], xs[i], from, to);
        if Matches(xs[i], from, to) { ys := ys + [xs[i]]; }
      }
      assert xs[..|xs|] == xs;
    }

    method SortBySeq(xs: seq<HookEntry>) returns (ys: seq<HookEntry>)
      ensures multiset(ys) == multiset(xs)
      ensures forall i, j :: 0 <= i < j < |ys| ==> SeqLeq(ys[i], ys[j])
    {
      ys := Sort(xs, SeqLeq);
    }

    /** The captured slot, then the captured wildcard hooks that match. */
    method Gather(concrete: Slice, ghost slot: seq<HookEntry>, wildcards: Slice, ghost wild: seq<HookEntry>,
                  from: string, to: string, world: World, clock0: nat, ghost start: Hooks)
      returns (allEntries: seq<HookEntry>, clock: nat)
      requires Valid() && Snapshot(concrete, slot) in snapshots && Snapshot(wildcards, wild) in snapshots
      requires Model() == Evolved(start, world, clock0)
      modifies this, owned
      ensures allEntries == slot + Matching(wild, from, to)
      ensures Valid() && Model() == Evolved(start, world, clock) && snapshots >= old(snapshots)
      ensures owned >= old(owned) && (forall a | a in owned :: a in old(owned) || fresh(a))
    {
      hide Storage, Consistent, SlotsExact, Evolved;
      var others;
      allEntries, clock := ReadOut(concrete, slot, world, clock0, start);
      others, clock := ReadOut(wildcards, wild, world, clock, start);
      others := KeepMatching(others, from, to);
      allEntries := allEntries + others;
    }

    /** The body both executors share: capture the slot and the wildcard list, take the fast
        path or merge and sort, then run. Others may edit the registry at every step, yet
        exactly the hooks live at the capture that match are run, in registration order. */
    method Execute(t: HookType, from: string, to: string, world: World)
      returns (failed: Option<Failure>, calls: seq<HookEntry>, clock: nat)
      requires Valid()
      modifies this, owned
      ensures Ran(t, Pick(old(log), Running(t, from, to)), world, failed, calls)
      ensures ByName(old(Model()), t, from, to, Pick(old(log), Running(t, from, to)))
      ensures Valid() && Model() == Evolved(old(Model()), world, clock) && snapshots >= old(snapshots)
      ensures owned >= old(owned) && (forall a | a in owned :: a in old(owned) || fresh(a))
    {
      hide Storage, Consistent, SlotsExact, Ran, ByName;
      ghost var start := Model();
      SelectionMeaning(start, t, from, to);
      var concrete := Capture(Indexed(t, from, to));
      var wildcards := Capture(Wildcards(t));
      ghost var slot, wild := Pick(log, Indexed(t, from, to)), Pick(log, Wildcards(t));
      assert |wild| == wildcards.len;
      clock := Yield(world, 0, start);
      if wildcards.len == 0 {
        FastPath(start, t, from, to);
        failed, calls, clock := RunSlice(t, concrete, slot, world, clock, start);
        return;
      }
      var allEntries;
      allEntries, clock := Gather(concrete, slot, wildcards, wild, from, to, world, clock, start);
      var sorted := SortBySeq(allEntries);
      MergeAndSort(start, t, from, to, allEntries, sorted);
      failed, calls, clock := RunList(t, sorted, world, clock, start);
    }

    /** Guards run in order up to and including the first that fails or panics. */
    method ExecutePreTransitionHooks(from: string, to: string, world: World)
      returns (failed: Option<Failure>, calls: seq<HookEntry>, clock: nat)
      requires Valid()
      modifies this, owned
      ensures ByName(old(Model()), Pre, from, to, Pick(old(log), Running(Pre, from, to)))
      ensures var sel := Pick(old(log), Running(Pre, from, to));
        match failed
        case None => calls == sel && forall k :: 0 <= k < |sel| ==> world.outcome(k) == Passed
        case Some(f) =>
          && f.index < |sel| && calls == sel[..f.index + 1]
          && (forall k :: 0 <= k < f.index ==> world.outcome(k) == Passed)
          && world.outcome(f.index) == (if f.panicked then Panicked else Failed)
      ensures Valid() && Model() == Evolved(old(Model()), world, clock) && snapshots >= old(snapshots)
      ensures owned >= old(owned) && (forall a | a in owned :: a in old(owned) || fresh(a))
    {
      hide Storage, Consistent, SlotsExact, Evolved, ByName;
      failed, calls, clock := Execute(Pre, from, to, world);
    }

    /** Every action runs exactly once, in order, whatever panics. */
    method ExecutePostTransitionHooks(from: string, to: string, world: World)
      returns (calls: seq<HookEntry>, clock: nat)
      requires Valid()
      modifies this, owned
      ensures calls == Pick(old(log), Running(Post, from, to)) && ByName(old(Model()), Post, from, to, calls)
      ensures Valid() && Model() == Evolved(old(Model()), world, clock) && snapshots >= old(snapshots)
      ensures owned >= old(owned) && (forall a | a in owned :: a in old(owned) || fresh(a))
    {
      hide Storage, Consistent, SlotsExact, Evolved, ByName;
      var failed;
      failed, calls, clock := Execute(Post, from, to, world);
    }
  }

  // ---------- runs ----------

  /** What other goroutines, or a hook itself, may do to the registry. */
  datatype Step = Editing(edit: Edit) | Capturing(hookType: HookType, from: string, to: string)

  function Effect(h: Hooks, s: Step): Hooks { if s.Editing? then Apply(h, s.edit) else h }

  function Effects(h: Hooks, steps: seq<Step>): Hooks {
    if steps == [] then h
    else
      var n := |steps| - 1;
      Effect(Effects(h, steps[..n]), steps[n])
  }

  lemma EffectsNext(h: Hooks, steps: seq<Step>, i: nat)
    requires i < |steps|
    ensures Effects(h, steps[..i + 1]) == Effect(Effects(h, steps[..i]), steps[i])
  {
    assert steps[..i + 1][..i] == steps[..i];
  }

  datatype Outcome = Passed | Failed | Panicked

  /** How the callbacks of one execution behave, and what happens to the registry between
      any two of the executor's steps; a hook's own edits are among them. */
  datatype World = World(steps: nat -> seq<Step>, outcome: nat -> Outcome)

  datatype Failure = Failure(index: nat, panicked: bool)

  function Evolved(h: Hooks, world: World, clock: nat): Hooks {
    if clock == 0 then h else Effects(Evolved(h, world, clock - 1), world.steps(clock - 1))
  }

  /** Calls made for the list `sel`: guards stop at the first that does not pass. */
  ghost predicate Ran(t: HookType, sel: seq<HookEntry>, world: World, failed: Option<Failure>, calls: seq<HookEntry>) {
    match failed
    case None => calls == sel && (t.Pre? ==> forall k :: 0 <= k < |sel| ==> world.outcome(k) == Passed)
    case Some(f) =>
      && t.Pre? && f.index < |sel| && calls == sel[..f.index + 1]
      && (forall k :: 0 <= k < f.index ==> world.outcome(k) == Passed)
      && world.outcome(f.index) == (if f.panicked then Panicked else Failed)
  }

  // ---------- what the slots hold, as values ----------

  type Contents = map<Query, seq<HookEntry>>

  ghost function Held(contents: Contents, q: Query): seq<HookEntry> {
    if q in contents then contents[q] else []
  }

  /** Each slot holds what its query picks from the log; an absent slot picks nothing. */
  ghost predicate SlotsExact(contents: Contents, log: seq<HookEntry>) {
    && (forall q | q in contents :: !q.Running?)
    && forall q: Query :: !q.Running? ==> Held(contents, q) == Pick(log, q)
  }

  ghost predicate Appended(before: Contents, after: Contents, keys: seq<Query>, e: HookEntry) {
    && after.Keys == before.Keys + (set q | q in keys)
    && forall q :: Held(after, q) == if q in keys then Held(before, q) + [e] else Held(before, q)
  }

  lemma NoneAppended(before: Contents, e: HookEntry)
    ensures Appended(before, before, [], e)
  {
  }

  lemma AppendedNext(before: Contents, mid: Contents, after: Contents, keys: seq<Query>, i: nat, e: HookEntry)
    requires i < |keys| && Appended(before, mid, keys[..i], e) && after == mid[keys[i] := Held(mid, keys[i]) + [e]]
    requires forall j, k :: 0 <= j < k < |keys| ==> keys[j] != keys[k]
    ensures Appended(before, after, keys[..i + 1], e)
  {
    assert keys[..i + 1] == keys[..i] + [keys[i]];
  }

  lemma AppendedExact(before: Contents, after: Contents, log: seq<HookEntry>, keys: seq<Query>, e: HookEntry)
    requires SlotsExact(before, log) && Appended(before, after, keys, e)
    requires forall q: Query :: q in keys <==> !q.Running? && Wants(q, e)
    ensures SlotsExact(after, log + [e])
  {
    forall q: Query | !q.Running? ensures Held(after, q) == Pick(log + [e], q) { PickAppend(log, e, q); }
  }

  ghost predicate Removed(before: Contents, after: Contents, done: set<Query>, e: HookEntry) {
    && after.Keys == before.Keys
    && forall q | q in before :: after[q] == if q in done then Without(before[q], e) else before[q]
  }

  lemma RemovedExact(before: Contents, after: Contents, log: seq<HookEntry>, done: set<Query>, e: HookEntry)
    requires SlotsExact(before, log) && Removed(before, after, done, e)
    requires forall q :: q in done <==> q in before && q.hookType == e.hookType
    ensures SlotsExact(after, Without(log, e))
  {
    forall q: Query | !q.Running? ensures Held(after, q) == Pick(Without(log, e), q) {
      assert Held(before, q) == Pick(log, q);
      PickWithout(log, q, e);
      PickMembers(log, q);
      if q.hookType != e.hookType { WithoutAbsent(Pick(log, q), e); }
    }
  }
}
