/** What registering, removing and selecting mean to a caller, in terms of the names and
    lists the caller gave, whatever the registry stores. */
module RegistryLaws {
  import opened Basics
  import opened RegistrySpec

  // ---------- what is selected ----------

  /** `sel` is, in registration order and each once, every registered hook of the phase whose
      From list holds `from` or "*" and whose To list holds `to` or "*". */
  ghost predicate ByName(h: Hooks, t: HookType, from: string, to: string, sel: seq<HookEntry>) {
    && (forall n | n in h.byName ::
          var e := h.byName[n];
          e in sel <==>
            e.hookType == t && (from in e.fromStates || "*" in e.fromStates) && (to in e.toStates || "*" in e.toStates))
    && (forall e | e in sel :: exists n :: n in h.byName && h.byName[n] == e)
    && InOrder(sel)
  }

  lemma SelectionMeaning(h: Hooks, t: HookType, from: string, to: string)
    requires Consistent(h)
    ensures ByName(h, t, from, to, Pick(h.log, Running(t, from, to)))
  {
    PickInOrder(h.log, Running(t, from, to));
    PickMembers(h.log, Running(t, from, to));
  }

  /** There is only one such list. */
  lemma ByNameUnique(h: Hooks, t: HookType, from: string, to: string, xs: seq<HookEntry>, ys: seq<HookEntry>)
    requires Consistent(h) && ByName(h, t, from, to, xs) && ByName(h, t, from, to, ys)
    ensures xs == ys
  {
    forall x ensures x in xs <==> x in ys { }
    SameMembersSame(xs, ys);
  }

  lemma {:induction false} SameMembersSame(xs: seq<HookEntry>, ys: seq<HookEntry>)
    requires InOrder(xs) && InOrder(ys) && forall x :: x in xs <==> x in ys
    ensures xs == ys
    decreases |xs|
  {
    assert (xs != [] ==> xs[0] in xs) && (ys != [] ==> ys[0] in ys);
    if xs != [] {
      var n, m := |xs| - 1, |ys| - 1;
      SameLast(xs, ys);
      FrontMembers(xs);
      FrontMembers(ys);
      hide InOrder;
      forall x ensures x in xs[..n] <==> x in ys[..m] { assert x in xs <==> x in ys; }
      SameMembersSame(xs[..n], ys[..m]);
      assert xs == xs[..n] + [xs[n]] && ys == ys[..m] + [ys[m]];
    }
  }

  lemma SameLast(xs: seq<HookEntry>, ys: seq<HookEntry>)
    requires InOrder(xs) && InOrder(ys) && xs != [] && ys != [] && forall x :: x in xs <==> x in ys
    ensures xs[|xs| - 1] == ys[|ys| - 1]
  {
    var x, y := xs[|xs| - 1], ys[|ys| - 1];
    assert x in xs && y in ys;
    LatestLast(xs, y);
    LatestLast(ys, x);
  }

  lemma LatestLast(xs: seq<HookEntry>, x: HookEntry)
    requires InOrder(xs) && x in xs
    ensures x == xs[|xs| - 1] || x.registrationSeq < xs[|xs| - 1].registrationSeq
  {
    var k :| 0 <= k < |xs| && xs[k] == x;
  }

  lemma FrontMembers(xs: seq<HookEntry>)
    requires InOrder(xs) && xs != []
    ensures InOrder(xs[..|xs| - 1])
    ensures forall x :: x in xs[..|xs| - 1] <==> x in xs && x != xs[|xs| - 1]
  {
    var n := |xs| - 1;
    forall x ensures x in xs[..n] <==> x in xs && x != xs[n] {
      if x in xs[..n] {
        var k :| 0 <= k < n && xs[k] == x;
        assert xs[k].registrationSeq < xs[n].registrationSeq;
      }
    }
  }

  // ---------- a wildcard stands for all the states of the table ----------

  /** The same hooks, told by what identifies them. */
  function Numbers(xs: seq<HookEntry>): seq<(nat, nat)> {
    seq(|xs|, i requires 0 <= i < |xs| => (xs[i].registrationSeq, xs[i].callback))
  }

  lemma NumbersNext(xs: seq<HookEntry>, e: HookEntry)
    ensures Numbers(xs + [e]) == Numbers(xs) + [(e.registrationSeq, e.callback)]
  {
  }

  /** Writing out all the states for "*" changes nothing between defined states. */
  lemma WildcardIsAll(log: seq<HookEntry>, k: nat, all: seq<string>, t: HookType, from: string, to: string)
    requires k < |log| && from in all && to in all
    ensures var q := Running(t, from, to);
      && ("*" in log[k].fromStates ==>
            Numbers(Pick(log[k := log[k].(fromStates := all)], q)) == Numbers(Pick(log, q)))
      && ("*" in log[k].toStates ==>
            Numbers(Pick(log[k := log[k].(toStates := all)], q)) == Numbers(Pick(log, q)))
  {
    var q := Running(t, from, to);
    if "*" in log[k].fromStates { PickSwap(log, k, log[k].(fromStates := all), q); }
    if "*" in log[k].toStates { PickSwap(log, k, log[k].(toStates := all), q); }
  }

  lemma {:induction false} PickSwap(log: seq<HookEntry>, k: nat, e: HookEntry, q: Query)
    requires k < |log| && (Wants(q, e) <==> Wants(q, log[k]))
    requires e.registrationSeq == log[k].registrationSeq && e.callback == log[k].callback
    ensures Numbers(Pick(log[k := e], q)) == Numbers(Pick(log, q))
  {
    var n := |log| - 1;
    assert log == log[..n] + [log[n]];
    PickAppend(log[..n], log[n], q);
    NumbersNext(Pick(log[..n], q), log[n]);
    if k == n {
      assert log[k := e] == log[..n] + [e];
      PickAppend(log[..n], e, q);
      NumbersNext(Pick(log[..n], q), e);
    } else {
      var front := log[..n][k := e];
      assert log[k := e] == front + [log[n]];
      PickAppend(front, log[n], q);
      NumbersNext(Pick(front, q), log[n]);
      PickSwap(log[..n], k, e, q);
    }
  }

  // ---------- registering ----------

  /** What is wrong with a registration. */
  ghost predicate Faulty(h: Hooks, cfg: HookConfig, err: HookError) {
    match err
    case HookNameEmpty => cfg.name == ""
    case StateListEmpty => |cfg.from| == 0 || |cfg.to| == 0
    case HookFuncNil => cfg.callback == None
    case HookNameAlreadyExists => cfg.name in h.byName
    case WildcardWithoutTable => h.states == None && ("*" in cfg.from || "*" in cfg.to)
    case UnknownState =>
      && h.states.Some? && "*" !in cfg.from && "*" !in cfg.to
      && exists s :: s in cfg.from + cfg.to && s !in h.states.value
    case HookNotFound => false
  }

  /** The order in which faults are looked for. */
  function Rank(err: HookError): nat {
    match err
    case HookNameEmpty => 0
    case StateListEmpty => 1
    case HookFuncNil => 2
    case HookNameAlreadyExists => 3
    case WildcardWithoutTable => 4
    case UnknownState => 5
    case HookNotFound => 6
  }

  /** A registration is accepted exactly if nothing is wrong with it, and otherwise reports
      the first fault. */
  ghost predicate Verdict(h: Hooks, cfg: HookConfig, err: Option<HookError>) {
    match err
    case None => forall d :: !Faulty(h, cfg, d)
    case Some(e) => Faulty(h, cfg, e) && forall d | Faulty(h, cfg, d) :: Rank(e) <= Rank(d)
  }

  lemma RegisterVerdict(h: Hooks, cfg: HookConfig)
    ensures Verdict(h, cfg, RegisterError(h, cfg))
  {
  }

  /** The selection before and after a registration: one hook more, at the end, carrying the
      callback that was given, exactly if the lists that were given hold the two states. */
  ghost predicate Added(cfg: HookConfig, t: HookType, from: string, to: string,
                        before: seq<HookEntry>, after: seq<HookEntry>)
  {
    if t == cfg.hookType && (from in cfg.from || "*" in cfg.from) && (to in cfg.to || "*" in cfg.to) then
      && |after| == |before| + 1 && after[..|before|] == before
      && Some(after[|before|].callback) == cfg.callback && after[|before|].hookType == t
    else
      after == before
  }

  /** The entry stored under the new name is the caller's; every other name keeps its own. */
  ghost predicate Named(cfg: HookConfig, before: map<string, HookEntry>, after: map<string, HookEntry>) {
    && after.Keys == before.Keys + {cfg.name}
    && (forall n | n in before :: after[n] == before[n])
    && var e := after[cfg.name];
       && e.fromStates == cfg.from && e.toStates == cfg.to
       && e.hookType == cfg.hookType && Some(e.callback) == cfg.callback
  }

  lemma RegisterAdds(h: Hooks, cfg: HookConfig)
    requires RegisterError(h, cfg).None?
    ensures Named(cfg, h.byName, Register(h, cfg).byName)
    ensures forall t, from, to ::
      Added(cfg, t, from, to, Pick(h.log, Running(t, from, to)), Pick(Register(h, cfg).log, Running(t, from, to)))
  {
    var e := NewEntry(cfg, h.nextSeq);
    RegisterVerdict(h, cfg);
    assert !Faulty(h, cfg, HookFuncNil) && !Faulty(h, cfg, HookNameAlreadyExists);
    forall t, from, to ensures
        Added(cfg, t, from, to, Pick(h.log, Running(t, from, to)), Pick(Register(h, cfg).log, Running(t, from, to)))
    {
      PickAppend(h.log, e, Running(t, from, to));
    }
  }

  // ---------- removing ----------

  /** The selection before and after a removal: `d` is taken out, the rest keeps its order. */
  ghost predicate Taken(d: HookEntry, before: seq<HookEntry>, after: seq<HookEntry>) {
    (forall x :: x in after <==> x in before && x != d) && InOrder(after)
  }

  lemma RemoveTakes(h: Hooks, name: string)
    requires Consistent(h) && name in h.byName
    ensures Remove(h, name).byName == h.byName - {name}
    ensures forall t, from, to ::
      Taken(h.byName[name], Pick(h.log, Running(t, from, to)), Pick(Remove(h, name).log, Running(t, from, to)))
  {
    RemoveConsistent(h, name);
    forall t, from, to ensures
        Taken(h.byName[name], Pick(h.log, Running(t, from, to)), Pick(Remove(h, name).log, Running(t, from, to)))
    {
      var q, d := Running(t, from, to), h.byName[name];
      PickWithout(h.log, q, d);
      WithoutMembers(Pick(h.log, q), d);
      PickInOrder(Remove(h, name).log, q);
    }
  }

  /** After Clear nothing is selected and no name is taken. */
  lemma ClearEmpties(h: Hooks)
    ensures Clear(h).byName == map[] && Clear(h).states == h.states
    ensures forall t, from, to :: Pick(Clear(h).log, Running(t, from, to)) == []
  {
  }
}
