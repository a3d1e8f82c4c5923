/** Zone-aware pod disruption budgets and the cache that holds the observed ones. */
module Budgets {
  import opened Kube

  /** `captures` stands for the pod-name partition regex: the capture group of every pod name it
      matches, or `None` when no regex is configured. */
  datatype Budget = Budget(
    name: string,
    generation: int,
    maxUnavailable: nat,
    maxUnavailablePercentage: nat,
    matchLabels: map<string, string>,
    captures: Option<map<string, string>>,
    crossZoneEvictionDelay: nat)

  predicate MatchesPod(budget: Budget, labels: map<string, string>) {
    forall k | k in budget.matchLabels :: k in labels && labels[k] == budget.matchLabels[k]
  }

  /** The number of pods a zone may have unavailable; zero forbids voluntary evictions. */
  function MaxUnavailablePods(budget: Budget, sts: StatefulSet): nat {
    if budget.maxUnavailable > 0 then
      budget.maxUnavailable
    else if budget.maxUnavailablePercentage > 0 && sts.specReplicas.Some? && sts.specReplicas.value > 0 then
      var replicas := Min(sts.specReplicas.value, sts.statusReplicas);
      if replicas == 0 then 0 else Max(1, budget.maxUnavailablePercentage * replicas / 100)
    else
      0
  }

  /** An absolute limit wins. A percentage is rounded down to whole pods of the smaller replica count, but
      allows at least one pod of a set that has any. Everything else forbids voluntary evictions. */
  lemma LimitMeaning(budget: Budget, sts: StatefulSet)
    requires ValidBudget(budget)
    ensures var r := MaxUnavailablePods(budget, sts);
            var p := budget.maxUnavailablePercentage;
            var n := if sts.specReplicas.Some? then Min(sts.specReplicas.value, sts.statusReplicas) else 0;
            && (budget.maxUnavailable > 0 ==> r == budget.maxUnavailable)
            && (budget.maxUnavailable == 0 ==> (r == 0 <==> p == 0 || n == 0) && r <= n)
            && (budget.maxUnavailable == 0 && r > 1 ==> 100 * r <= p * n < 100 * (r + 1))
            && (budget.maxUnavailable == 0 && r == 1 ==> p * n < 200)
  {
    var p := budget.maxUnavailablePercentage;
    var n := if sts.specReplicas.Some? then Min(sts.specReplicas.value, sts.statusReplicas) else 0;
    if budget.maxUnavailable == 0 && n > 0 {
      assert p * n <= 100 * n;
    }
  }

  lemma {:induction false} ProductGrows(p: nat, m: nat, n: nat)
    requires m <= n
    ensures p * m <= p * n
  {
    if m < n {
      ProductGrows(p, m, n - 1);
      assert p * n == p * (n - 1) + p;
    }
  }

  lemma QuotientGrows(x: nat, y: nat)
    requires x <= y
    ensures x / 100 <= y / 100
  {
  }

  lemma PercentGrows(p: nat, m: nat, n: nat)
    requires m <= n
    ensures p * m / 100 <= p * n / 100
  {
    ProductGrows(p, m, n);
    QuotientGrows(p * m, p * n);
  }

  /** The partition of a pod: empty without a regex, `None` when the regex does not extract one. */
  function PodPartition(budget: Budget, podName: string): Option<string> {
    match budget.captures
    case None => Some("")
    case Some(m) => if podName in m && m[podName] != "" then Some(m[podName]) else None
  }

  /** Without a regex every pod is in the one nameless partition; with one, a pod is in the non-empty partition that
      its name yields, if any. */
  lemma PartitionMeaning(budget: Budget, podName: string)
    ensures budget.captures.None? ==> PodPartition(budget, podName) == Some("")
    ensures budget.captures.Some? ==>
              forall p ::
                PodPartition(budget, podName) == Some(p) <==> p != "" && (podName, p) in budget.captures.value.Items
  {
  }

  // ----- configuration cache -----

  type Configs = map<string, Budget>

  predicate KeyedByName(entries: Configs) {
    forall n | n in entries :: entries[n].name == n
  }

  function Delivered(entries: Configs, budget: Budget): Configs {
    if budget.name in entries && entries[budget.name].generation >= budget.generation
    then entries
    else entries[budget.name := budget]
  }

  function DeliveredAll(entries: Configs, deliveries: seq<Budget>): Configs {
    if deliveries == [] then entries
    else Delivered(DeliveredAll(entries, deliveries[..|deliveries| - 1]), deliveries[|deliveries| - 1])
  }

  /** `entries` holds, for exactly the names that were delivered, a delivered budget of the highest generation. */
  ghost predicate HoldsHighest(entries: Configs, deliveries: seq<Budget>) {
    && (forall n | n in entries :: entries[n] in deliveries && entries[n].name == n)
    && (forall b | b in deliveries :: b.name in entries && b.generation <= entries[b.name].generation)
  }

  lemma {:induction false} DeliveriesLeaveHighestGeneration(deliveries: seq<Budget>)
    ensures HoldsHighest(DeliveredAll(map[], deliveries), deliveries)
  {
    if deliveries != [] {
      var front, last := deliveries[..|deliveries| - 1], deliveries[|deliveries| - 1];
      DeliveriesLeaveHighestGeneration(front);
      var before, after := DeliveredAll(map[], front), DeliveredAll(map[], deliveries);
      forall b | b in deliveries ensures b.name in after && b.generation <= after[b.name].generation {
        assert b == last || b in front;
      }
      forall n | n in after ensures after[n] in deliveries && after[n].name == n {
        assert after[n] == last || (n in before && after[n] == before[n] && before[n] in front);
      }
    }
  }

  /** A generation of a budget has one content: the API server bumps it on every change. */
  ghost predicate OneContentPerGeneration(deliveries: seq<Budget>) {
    forall a, b | a in deliveries && b in deliveries && a.name == b.name && a.generation == b.generation :: a == b
  }

  ghost function Elements(deliveries: seq<Budget>): set<Budget> {
    set b | b in deliveries
  }

  lemma HighestAgree(x: Configs, y: Configs, first: seq<Budget>, second: seq<Budget>, n: string)
    requires HoldsHighest(x, first) && HoldsHighest(y, second)
    requires OneContentPerGeneration(first)
    requires Elements(first) == Elements(second)
    requires n in x
    ensures n in y && x[n] == y[n]
  {
    var b := x[n];
    assert b in Elements(first) && b in Elements(second);
    var c := y[n];
    assert c in Elements(second) && c in Elements(first);
  }

  lemma SameContents(first: seq<Budget>, second: seq<Budget>)
    requires OneContentPerGeneration(first) && Elements(first) == Elements(second)
    ensures OneContentPerGeneration(second)
  {
    forall b | b in second ensures b in first {
      assert b in Elements(second) && b in Elements(first);
    }
  }

  lemma HighestKeysAgree(x: Configs, y: Configs, first: seq<Budget>, second: seq<Budget>)
    requires HoldsHighest(x, first) && HoldsHighest(y, second)
    requires OneContentPerGeneration(first) && Elements(first) == Elements(second)
    ensures x.Keys <= y.Keys && forall n | n in x :: x[n] == y[n]
  {
    forall n | n in x ensures n in y && x[n] == y[n] {
      HighestAgree(x, y, first, second, n);
    }
  }

  /** Order and duplication of add/update deliveries do not matter. */
  lemma DeliveryOrderIrrelevant(first: seq<Budget>, second: seq<Budget>)
    requires OneContentPerGeneration(first)
    requires Elements(first) == Elements(second)
    ensures DeliveredAll(map[], first) == DeliveredAll(map[], second)
  {
    var x, y := DeliveredAll(map[], first), DeliveredAll(map[], second);
    DeliveriesLeaveHighestGeneration(first);
    DeliveriesLeaveHighestGeneration(second);
    SameContents(first, second);
    HighestKeysAgree(x, y, first, second);
    HighestKeysAgree(y, x, second, first);
  }

  datatype Lookup = NoBudget | Ambiguous | Found(budget: Budget)

  ghost function MatchingNames(entries: Configs, labels: map<string, string>): set<string> {
    set n | n in entries && MatchesPod(entries[n], labels)
  }

  /** Two matching budgets are an error, as in the native eviction controller. */
  ghost function Find(entries: Configs, labels: map<string, string>): Lookup {
    var names := MatchingNames(entries, labels);
    if names == {} then NoBudget
    else if |names| > 1 then Ambiguous
    else var n :| n in names; Found(entries[n])
  }

  /** Every label the budget asks for is one of the pod's. */
  predicate Selects(budget: Budget, labels: map<string, string>) {
    budget.matchLabels.Items <= labels.Items
  }

  lemma SelectsIsMatching(budget: Budget, labels: map<string, string>)
    ensures Selects(budget, labels) <==> MatchesPod(budget, labels)
  {
    if Selects(budget, labels) {
      forall k | k in budget.matchLabels ensures k in labels && labels[k] == budget.matchLabels[k] {
        assert (k, budget.matchLabels[k]) in budget.matchLabels.Items;
      }
    }
  }

  predicate NoneSelects(entries: Configs, labels: map<string, string>) {
    forall n | n in entries :: !Selects(entries[n], labels)
  }

  predicate OnlySelects(entries: Configs, labels: map<string, string>, n: string) {
    n in entries && Selects(entries[n], labels) && forall m | m in entries && m != n :: !Selects(entries[m], labels)
  }

  ghost predicate TwoSelect(entries: Configs, labels: map<string, string>) {
    exists m, n | m in entries && n in entries && m != n :: Selects(entries[m], labels) && Selects(entries[n], labels)
  }

  /** No budget, the only one, or an error for two. */
  lemma LookupMeaning(entries: Configs, labels: map<string, string>)
    ensures Find(entries, labels).NoBudget? <==> NoneSelects(entries, labels)
    ensures Find(entries, labels).Ambiguous? <==> TwoSelect(entries, labels)
    ensures forall n | OnlySelects(entries, labels, n) :: Find(entries, labels) == Found(entries[n])
    ensures Find(entries, labels).Found? ==> exists n :: OnlySelects(entries, labels, n)
  {
    var names := MatchingNames(entries, labels);
    forall n | n in entries ensures n in names <==> Selects(entries[n], labels) {
      SelectsIsMatching(entries[n], labels);
    }
    forall n | OnlySelects(entries, labels, n) ensures names == {n} {}
    if names != {} {
      var n :| n in names;
      if |names| == 1 {
        Singleton(names, n);
        assert OnlySelects(entries, labels, n);
      } else {
        assert names - {n} != {};
        var m :| m in names - {n};
        TwoElements(names, m, n);
      }
    }
    if m, n :| m in names && n in names && m != n {
      TwoElements(names, m, n);
    }
  }

  ghost function MatchingBudgets(entries: Configs, labels: map<string, string>): set<Budget> {
    set n | n in MatchingNames(entries, labels) :: entries[n]
  }

  /** A lookup depends on nothing but the set of matching budgets. */
  lemma LookupDependsOnMatchesOnly(a: Configs, b: Configs, labels: map<string, string>)
    requires KeyedByName(a) && KeyedByName(b)
    requires MatchingBudgets(a, labels) == MatchingBudgets(b, labels)
    ensures Find(a, labels) == Find(b, labels)
  {
    SameMatchingNames(a, b, labels);
    SameMatchingNames(b, a, labels);
    var names := MatchingNames(a, labels);
    assert names == MatchingNames(b, labels);
    if |names| == 1 {
      var n :| n in names;
      Singleton(names, n);
      Singleton(MatchingNames(b, labels), n);
      assert a[n] in MatchingBudgets(b, labels);
      var m :| m in MatchingNames(b, labels) && b[m] == a[n];
      assert m == n;
    }
  }

  lemma SameMatchingNames(a: Configs, b: Configs, labels: map<string, string>)
    requires KeyedByName(a) && KeyedByName(b)
    requires MatchingBudgets(a, labels) == MatchingBudgets(b, labels)
    ensures MatchingNames(a, labels) <= MatchingNames(b, labels)
  {
    forall n | n in MatchingNames(a, labels) ensures n in MatchingNames(b, labels) {
      assert a[n] in MatchingBudgets(b, labels);
      var m :| m in MatchingNames(b, labels) && b[m] == a[n];
      assert m == b[m].name == a[n].name == n;
    }
  }

  lemma Singleton<T>(s: set<T>, x: T)
    requires |s| == 1 && x in s
    ensures s == {x}
  {
    assert |s - {x}| == 0;
    assert s - {x} == {};
  }

  class ConfigCache {
    var entries: Configs

    constructor ()
      ensures entries == map[]
    {
      entries := map[];
    }

    method AddOrUpdate(pdb: Budget) returns (updated: bool, generation: int)
      modifies this
      ensures entries == Delivered(old(entries), pdb)
      ensures updated <==> pdb.name !in old(entries) || old(entries)[pdb.name].generation < pdb.generation
      ensures entries == if updated then old(entries)[pdb.name := pdb] else old(entries)
      ensures pdb.name in entries && entries[pdb.name].generation == generation >= pdb.generation
    {
      if pdb.name in entries && entries[pdb.name].generation >= pdb.generation {
        return false, entries[pdb.name].generation;
      }
      entries := entries[pdb.name := pdb];
      return true, pdb.generation;
    }

    /** A delete older than the cached entry is ignored. */
    method Delete(generation: int, name: string) returns (removed: bool, cached: int)
      modifies this
      ensures removed <==> name in old(entries) && old(entries)[name].generation <= generation
      ensures entries == if removed then old(entries) - {name} else old(entries)
      ensures cached == if name in old(entries) then old(entries)[name].generation else -1
    {
      if name !in entries {
        return false, -1;
      }
      var oldCfg := entries[name];
      if oldCfg.generation > generation {
        return false, oldCfg.generation;
      }
      entries := entries - {name};
      return true, oldCfg.generation;
    }

    /** The entries are visited in an arbitrary order. */
    method FindForPod(labels: map<string, string>) returns (r: Lookup)
      ensures r == Find(entries, labels)
      ensures r.NoBudget? <==> NoneSelects(entries, labels)
      ensures r.Ambiguous? <==> TwoSelect(entries, labels)
      ensures r.Found? ==> exists n :: OnlySelects(entries, labels, n) && r.budget == entries[n]
    {
      LookupMeaning(entries, labels);
      var todo := entries.Keys;
      var best: Option<string> := None;
      ghost var names := MatchingNames(entries, labels);
      while todo != {}
        invariant todo <= entries.Keys
        invariant forall m :: m in names && m !in todo <==> best == Some(m)
        decreases todo
      {
        var n :| n in todo;
        todo := todo - {n};
        if MatchesPod(entries[n], labels) {
          if best.Some? {
            TwoElements(names, n, best.value);
            return Ambiguous;
          }
          best := Some(n);
        }
      }
      match best
      case None =>
        r := NoBudget;
      case Some(n) =>
        assert names == {n};
        r := Found(entries[n]);
    }
  }

  lemma TwoElements<T>(s: set<T>, x: T, y: T)
    requires x in s && y in s && x != y
    ensures |s| > 1
  {
    assert |s| == |s - {x}| + 1;
    assert y in s - {x};
    assert |s - {x}| == |s - {x} - {y}| + 1;
  }

  // ----- configuration parsing -----

  const BUDGET_KIND := "ZoneAwarePodDisruptionBudget"

  /** A compiled regex: what the whole match and each of its groups capture, by pod name. */
  datatype Compiled = Compiled(whole: map<string, string>, groups: seq<map<string, string>>)

  /** A budget resource after YAML decoding; `None` inside an option is a value of the wrong type. `compiled` is
      the regex, if it compiles. */
  datatype RawSpec = RawSpec(
    kind: string,
    hasSpec: bool,
    name: string,
    generation: int,
    maxUnavailable: Option<Option<int>>,
    maxUnavailablePercentage: Option<Option<int>>,
    regex: Option<Option<string>>,
    regexGroup: Option<Option<int>>,
    compiled: Option<Compiled>,
    matchLabels: Option<map<string, string>>,
    crossZoneEvictionDelay: Option<Option<int>>)

  /** An absent or empty regex is none. */
  predicate RegexGiven(raw: RawSpec) {
    raw.regex.Some? && raw.regex.value != Some("")
  }

  /** The regex compiles and has groups, and the group index is given if there are several and not beyond them. */
  predicate RegexUsable(raw: RawSpec) {
    && raw.regex.Some? && raw.regex.value.Some? && raw.compiled.Some?
    && (raw.regexGroup.Some? ==> raw.regexGroup.value.Some?)
    && var groups := |raw.compiled.value.groups|;
       if raw.regexGroup.Some? then 1 <= groups && raw.regexGroup.value.value <= groups else groups == 1
  }

  /** What a group captures: group 0 is the whole match. A negative index is accepted and captures nothing. */
  function GroupCaptures(compiled: Compiled, group: int): map<string, string>
    requires group <= |compiled.groups|
  {
    if group < 0 then map[] else if group == 0 then compiled.whole else compiled.groups[group - 1]
  }

  /** What the chosen group captures. */
  function CapturesOf(raw: RawSpec): Option<map<string, string>>
    requires RegexGiven(raw) ==> RegexUsable(raw)
  {
    if !RegexGiven(raw) then None
    else
      var group := if raw.regexGroup.Some? then raw.regexGroup.value.value else 1;
      Some(GroupCaptures(raw.compiled.value, group))
  }

  /** `None` is an error, `Some(None)` no regex. */
  method ValueAsRegex(raw: RawSpec) returns (r: Option<Option<map<string, string>>>)
    ensures r.Some? <==> (RegexGiven(raw) ==> RegexUsable(raw))
    ensures r.Some? ==> r.value == CapturesOf(raw)
  {
    if raw.regex.None? {
      return Some(None);
    }
    if raw.regex.value.None? {
      return None;
    }
    if |raw.regex.value.value| == 0 {
      return Some(None);
    }
    var group, groupSet := 1, false;
    if raw.regexGroup.Some? {
      if raw.regexGroup.value.None? {
        return None;
      }
      group, groupSet := raw.regexGroup.value.value, true;
    }
    if raw.compiled.None? {
      return None;
    }
    var subexpressions := |raw.compiled.value.groups|;
    if subexpressions == 0 || (subexpressions > 1 && !groupSet) || subexpressions < group {
      return None;
    }
    return Some(Some(GroupCaptures(raw.compiled.value, group)));
  }

  /** What every accepted configuration satisfies. */
  predicate ValidBudget(b: Budget) {
    && b.maxUnavailablePercentage <= 100
    && (b.maxUnavailablePercentage > 0 ==> b.maxUnavailable == 0 && b.captures.None?)
    && (b.crossZoneEvictionDelay > 0 ==> b.captures.Some?)
  }

  /** A field that is absent, or a number of at least zero. */
  predicate AbsentOrNatural(field: Option<Option<int>>) {
    field.Some? ==> field.value.Some? && field.value.value >= 0
  }

  /** The specs that are accepted. */
  predicate Acceptable(raw: RawSpec) {
    && raw.hasSpec && raw.kind == BUDGET_KIND
    && AbsentOrNatural(raw.maxUnavailable) && AbsentOrNatural(raw.maxUnavailablePercentage)
    && AbsentOrNatural(raw.crossZoneEvictionDelay)
    && !(raw.maxUnavailable.Some? && raw.maxUnavailablePercentage.Some?)
    && (raw.maxUnavailablePercentage.Some? ==> raw.maxUnavailablePercentage.value.value <= 100)
    && (RegexGiven(raw) ==> RegexUsable(raw))
    && raw.matchLabels.Some?
    && (raw.crossZoneEvictionDelay.Some? && raw.crossZoneEvictionDelay.value.value > 0 ==> RegexGiven(raw))
    && (raw.maxUnavailablePercentage.Some? && raw.maxUnavailablePercentage.value.value > 0 ==> !RegexGiven(raw))
  }

  function NaturalOr(field: Option<Option<int>>, default: nat): nat
    requires AbsentOrNatural(field)
  {
    if field.Some? then field.value.value else default
  }

  /** Accepts exactly the consistent specs. The limit is 1 unless either form of it is given. */
  method ParseAndValidate(raw: RawSpec) returns (r: Option<Budget>)
    ensures r.Some? <==> Acceptable(raw)
    ensures r.Some? ==> ValidBudget(r.value)
    ensures r.Some? ==>
              r.value == Budget(raw.name, raw.generation,
                                NaturalOr(raw.maxUnavailable, if raw.maxUnavailablePercentage.Some? then 0 else 1),
                                NaturalOr(raw.maxUnavailablePercentage, 0),
                                raw.matchLabels.value,
                                CapturesOf(raw),
                                NaturalOr(raw.crossZoneEvictionDelay, 0))
  {
    if !raw.hasSpec || raw.kind != BUDGET_KIND {
      return None;
    }
    var maxUnavailable, percentage := 1, 0;
    if raw.maxUnavailable.Some? && raw.maxUnavailablePercentage.Some? {
      return None;
    }
    if raw.maxUnavailable.Some? {
      if raw.maxUnavailable.value.None? || raw.maxUnavailable.value.value < 0 {
        return None;
      }
      maxUnavailable := raw.maxUnavailable.value.value;
    } else if raw.maxUnavailablePercentage.Some? {
      if raw.maxUnavailablePercentage.value.None? {
        return None;
      }
      percentage := raw.maxUnavailablePercentage.value.value;
      maxUnavailable := 0;
      if percentage < 0 || percentage > 100 {
        return None;
      }
    }
    var regex := ValueAsRegex(raw);
    if regex.None? {
      return None;
    }
    var captures := regex.value;
    if raw.matchLabels.None? {
      return None;
    }
    var delay := 0;
    if raw.crossZoneEvictionDelay.Some? {
      if raw.crossZoneEvictionDelay.value.None? || raw.crossZoneEvictionDelay.value.value < 0 {
        return None;
      }
      delay := raw.crossZoneEvictionDelay.value.value;
    }
    if delay > 0 && captures.None? {
      return None;
    }
    if percentage > 0 && captures.Some? {
      return None;
    }
    return Some(Budget(raw.name, raw.generation, maxUnavailable, percentage, raw.matchLabels.value, captures, delay));
  }
}
