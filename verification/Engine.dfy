/** The decision engine (internal/core/domain/engine.go).

    The engine sorts the applicable rules and takes the first.  The library sort is
    free to order rules that compare equal, so what it returns is specified as any
    sorted permutation; `DesiredOf`, which mentions neither sorting nor order, is what
    the winner's state is proved to be. */
module Engine {
  import opened Domain
  import Scopes
  import Windows
  import opened Guardrails

  const MINUTE := 60_000_000_000

  // ---------------------------------------------------------------- the comparator

  /** Bytewise string order. */
  predicate Less(a: string, b: string) {
    b != [] && (a == [] || a[0] < b[0] || (a[0] == b[0] && Less(a[1..], b[1..])))
  }

  /** Priority, then "on" before "off", then specificity, then the newest, then the name. */
  function Compare(a: EvaluatedRule, b: EvaluatedRule): int {
    if a.ref.priority != b.ref.priority then (if a.ref.priority > b.ref.priority then -1 else 1)
    else if a.state != b.state then (if a.state.On? then -1 else 1)
    else if a.specificity != b.specificity then (if a.specificity > b.specificity then -1 else 1)
    else if a.ref.createdAt != b.ref.createdAt then (if a.ref.createdAt > b.ref.createdAt then -1 else 1)
    else if Less(a.ref.name, b.ref.name) then -1
    else if Less(b.ref.name, a.ref.name) then 1
    else 0
  }

  predicate Leq(a: EvaluatedRule, b: EvaluatedRule) {
    Compare(a, b) <= 0
  }

  lemma {:induction false} LessTotal(a: string, b: string)
    ensures !(Less(a, b) && Less(b, a))
    ensures Less(a, b) || Less(b, a) || a == b
  {
    if a != [] && b != [] && a[0] == b[0] {
      LessTotal(a[1..], b[1..]);
      if a[1..] == b[1..] {
        assert a == [a[0]] + a[1..] && b == [b[0]] + b[1..];
      }
    }
  }

  lemma {:induction false} LessTransitive(a: string, b: string, c: string)
    requires Less(a, b) && Less(b, c)
    ensures Less(a, c)
  {
    if a != [] && a[0] == b[0] == c[0] {
      LessTransitive(a[1..], b[1..], c[1..]);
    }
  }

  /** The comparator is a total preorder, and only rules that agree on priority, state,
      specificity, age and name compare equal. */
  lemma CompareIsTotalPreorder(a: EvaluatedRule, b: EvaluatedRule, c: EvaluatedRule)
    ensures Leq(a, a)
    ensures Leq(a, b) || Leq(b, a)
    ensures Leq(a, b) && Leq(b, c) ==> Leq(a, c)
    ensures Leq(a, b) && Leq(b, a) <==>
              a.ref.priority == b.ref.priority && a.state == b.state && a.specificity == b.specificity
              && a.ref.createdAt == b.ref.createdAt && a.ref.name == b.ref.name
  {
    LessTotal(a.ref.name, a.ref.name);
    LessTotal(a.ref.name, b.ref.name);
    LessTotal(b.ref.name, c.ref.name);
    LessTotal(a.ref.name, c.ref.name);
    if Less(a.ref.name, b.ref.name) && Less(b.ref.name, c.ref.name) {
      LessTransitive(a.ref.name, b.ref.name, c.ref.name);
    }
  }

  /** What comes first: the higher priority, then "on", then the more specific, then the
      newer, then the smaller name. */
  lemma CompareMeans(a: EvaluatedRule, b: EvaluatedRule)
    ensures Compare(a, b) < 0 <==>
              || a.ref.priority > b.ref.priority
              || (a.ref.priority == b.ref.priority &&
                  (|| (a.state == On && b.state == Off)
                   || (a.state == b.state &&
                       (|| a.specificity > b.specificity
                        || (a.specificity == b.specificity &&
                            (|| a.ref.createdAt > b.ref.createdAt
                             || (a.ref.createdAt == b.ref.createdAt && Smaller(a.ref.name, b.ref.name))))))))
    ensures Compare(a, b) > 0 <==> Compare(b, a) < 0
  {
    LessIsSmaller(a.ref.name, b.ref.name);
    LessIsSmaller(b.ref.name, a.ref.name);
    LessTotal(a.ref.name, b.ref.name);
  }

  /** `a` is a proper prefix of `b`, or smaller at the first place they differ. */
  ghost predicate Smaller(a: string, b: string) {
    exists k: nat :: FirstDifference(a, b, k) && (k == |a| || a[k] < b[k])
  }

  ghost predicate FirstDifference(a: string, b: string, k: nat) {
    k <= |a| && k < |b| && a[..k] == b[..k] && (k < |a| ==> a[k] != b[k])
  }

  lemma {:induction false} LessIsSmaller(a: string, b: string)
    ensures Less(a, b) <==> Smaller(a, b)
  {
    if b != [] {
      if a == [] || a[0] != b[0] {
        assert FirstDifference(a, b, 0);
        forall k: nat
          ensures FirstDifference(a, b, k) ==> k == 0
        {
          DifferAtOnce(a, b, k);
        }
      } else {
        LessIsSmaller(a[1..], b[1..]);
        forall k: nat
          ensures FirstDifference(a, b, k + 1) <==> FirstDifference(a[1..], b[1..], k)
        {
          OneFurther(a, b, k);
        }
        assert !FirstDifference(a, b, 0);
        if Smaller(a, b) {
          var k: nat :| FirstDifference(a, b, k) && (k == |a| || a[k] < b[k]);
          assert FirstDifference(a[1..], b[1..], k - 1);
        }
        if Smaller(a[1..], b[1..]) {
          var k: nat :| FirstDifference(a[1..], b[1..], k) && (k == |a[1..]| || a[1..][k] < b[1..][k]);
          assert FirstDifference(a, b, k + 1);
        }
      }
    }
  }

  lemma DifferAtOnce(a: string, b: string, k: nat)
    requires a == [] || b == [] || a[0] != b[0]
    ensures FirstDifference(a, b, k) ==> k == 0
  {
    if 0 < k <= |a| && k <= |b| {
      assert a[..k][0] == a[0] && b[..k][0] == b[0];
    }
  }

  lemma OneFurther(a: string, b: string, k: nat)
    requires a != [] && b != [] && a[0] == b[0]
    ensures FirstDifference(a, b, k + 1) <==> FirstDifference(a[1..], b[1..], k)
  {
    if k + 1 <= |a| && k + 1 <= |b| {
      assert a[..k + 1] == [a[0]] + a[1..][..k] && b[..k + 1] == [b[0]] + b[1..][..k];
      assert a[..k + 1] == b[..k + 1] ==> a[1..][..k] == a[..k + 1][1..] && b[1..][..k] == b[..k + 1][1..];
    }
  }

  // ---------------------------------------------------------------- applicable rules

  function PolicyRule(policy: PolicySpec, now: int): EvaluatedRule {
    var specificity := Scopes.ComputeSpecificity(policy.scope);
    EvaluatedRule(
      RuleRef(PowerPolicy, policy.name, policy.namespace, policy.priority, specificity, policy.description, policy.createdAt),
      Windows.EvaluateSchedule(policy.schedule, now / MINUTE), specificity)
  }

  function OverrideRule(override: OverrideSpec): EvaluatedRule {
    var specificity := Scopes.ComputeSpecificity(override.scope);
    EvaluatedRule(
      RuleRef(PowerOverride, override.name, override.namespace, override.priority, specificity, override.reason, override.createdAt),
      override.state, specificity)
  }

  function PolicyRules(target: Target, policies: seq<PolicySpec>, now: int): seq<EvaluatedRule> {
    if policies == [] then []
    else
      var last := policies[|policies| - 1];
      PolicyRules(target, policies[..|policies| - 1], now)
      + if Scopes.MatchesScope(target, last.scope) then [PolicyRule(last, now)] else []
  }

  predicate OverrideApplies(target: Target, override: OverrideSpec, now: int) {
    !override.IsExpired(now) && Scopes.MatchesScope(target, override.scope)
  }

  function OverrideRules(target: Target, overrides: seq<OverrideSpec>, now: int): seq<EvaluatedRule> {
    if overrides == [] then []
    else
      var last := overrides[|overrides| - 1];
      OverrideRules(target, overrides[..|overrides| - 1], now)
      + if OverrideApplies(target, last, now) then [OverrideRule(last)] else []
  }

  function Applicable(target: Target, policies: seq<PolicySpec>, overrides: seq<OverrideSpec>, now: int): seq<EvaluatedRule> {
    PolicyRules(target, policies, now) + OverrideRules(target, overrides, now)
  }

  method CollectApplicableRules(target: Target, policies: seq<PolicySpec>, overrides: seq<OverrideSpec>, now: int)
    returns (rules: seq<EvaluatedRule>)
    ensures rules == Applicable(target, policies, overrides, now)
  {
    rules := [];
    for i := 0 to |policies|
      invariant rules == PolicyRules(target, policies[..i], now)
    {
      assert policies[..i + 1][..i] == policies[..i];
      if Scopes.MatchesScope(target, policies[i].scope) {
        rules := rules + [PolicyRule(policies[i], now)];
      }
    }
    assert policies[..|policies|] == policies;
    ghost var byPolicy := rules;
    for i := 0 to |overrides|
      invariant rules == byPolicy + OverrideRules(target, overrides[..i], now)
    {
      assert overrides[..i + 1][..i] == overrides[..i];
      if !overrides[i].IsExpired(now) && Scopes.MatchesScope(target, overrides[i].scope) {
        rules := rules + [OverrideRule(overrides[i])];
      }
    }
    assert overrides[..|overrides|] == overrides;
  }

  // ---------------------------------------------------------------- priority resolution

  ghost predicate SortedRules(rules: seq<EvaluatedRule>) {
    forall i, j :: 0 <= i < j < |rules| ==> Leq(rules[i], rules[j])
  }

  /** A sort of the rules, one insertion at a time. */
  method SortRules(rules: seq<EvaluatedRule>) returns (sorted: seq<EvaluatedRule>)
    ensures multiset(sorted) == multiset(rules) && SortedRules(sorted)
  {
    sorted := [];
    for i := 0 to |rules|
      invariant multiset(sorted) == multiset(rules[..i])
      invariant SortedRules(sorted)
    {
      var k := 0;
      while k < |sorted| && Leq(sorted[k], rules[i])
        invariant 0 <= k <= |sorted|
        invariant forall j :: 0 <= j < k ==> Leq(sorted[j], rules[i])
      {
        k := k + 1;
      }
      InsertKeepsSorted(sorted, k, rules[i]);
      assert rules[..i + 1] == rules[..i] + [rules[i]];
      assert sorted == sorted[..k] + sorted[k..];
      sorted := sorted[..k] + [rules[i]] + sorted[k..];
    }
    assert rules[..|rules|] == rules;
  }

  lemma InsertKeepsSorted(sorted: seq<EvaluatedRule>, k: nat, rule: EvaluatedRule)
    requires SortedRules(sorted) && k <= |sorted|
    requires forall j :: 0 <= j < k ==> Leq(sorted[j], rule)
    requires k < |sorted| ==> !Leq(sorted[k], rule)
    ensures SortedRules(sorted[..k] + [rule] + sorted[k..])
  {
    var s := sorted[..k] + [rule] + sorted[k..];
    forall i, j | 0 <= i < j < |s|
      ensures Leq(s[i], s[j])
    {
      if i == k {
        CompareIsTotalPreorder(rule, sorted[k], sorted[j - 1]);
        assert j - 1 == k || Leq(sorted[k], sorted[j - 1]);
      } else if j != k {
        var i', j' := if i < k then i else i - 1, if j < k then j else j - 1;
        assert s[i] == sorted[i'] && s[j] == sorted[j'];
      }
    }
  }

  /** Winner first, everything else suppressed, nothing lost or duplicated. */
  ghost predicate Resolved(rules: seq<EvaluatedRule>, winner: EvaluatedRule, suppressed: seq<EvaluatedRule>) {
    multiset([winner] + suppressed) == multiset(rules) && SortedRules([winner] + suppressed)
  }

  method ResolvePriority(rules: seq<EvaluatedRule>) returns (winner: Option<EvaluatedRule>, suppressed: seq<EvaluatedRule>)
    ensures if rules == [] then winner.None? && suppressed == []
            else winner.Some? && Resolved(rules, winner.value, suppressed)
  {
    if |rules| == 0 {
      return None, [];
    }
    if |rules| == 1 {
      assert rules == [rules[0]] + [];
      return Some(rules[0]), [];
    }
    var sorted := SortRules(rules);
    SameSize(sorted, rules);
    assert sorted == [sorted[0]] + sorted[1..];
    return Some(sorted[0]), sorted[1..];
  }

  lemma SameSize(a: seq<EvaluatedRule>, b: seq<EvaluatedRule>)
    requires multiset(a) == multiset(b)
    ensures |a| == |b|
  {
    assert |multiset(a)| == |a| && |multiset(b)| == |b|;
  }

  // ---------------------------------------------------------------- the decision

  /** Nothing applicable has a higher priority. */
  predicate Top(rules: seq<EvaluatedRule>, r: EvaluatedRule) {
    r in rules && forall i :: 0 <= i < |rules| ==> rules[i].ref.priority <= r.ref.priority
  }

  /** "Off" exactly when every applicable rule of maximal priority says so. */
  function DesiredOf(rules: seq<EvaluatedRule>): PowerState {
    if exists i :: 0 <= i < |rules| && rules[i].state.On? && Top(rules, rules[i]) then On else Off
  }

  /** Among the rules of maximal priority with the winner's state none is more specific, of
      that specificity none is newer, and of that age none has a smaller name. */
  ghost predicate Preferred(rules: seq<EvaluatedRule>, winner: EvaluatedRule) {
    forall i :: 0 <= i < |rules| && Top(rules, rules[i]) && rules[i].state == winner.state ==>
      && rules[i].specificity <= winner.specificity
      && (rules[i].specificity == winner.specificity ==> rules[i].ref.createdAt <= winner.ref.createdAt)
      && (rules[i].specificity == winner.specificity && rules[i].ref.createdAt == winner.ref.createdAt ==>
            !Smaller(rules[i].ref.name, winner.ref.name))
  }

  lemma WinnerDecides(rules: seq<EvaluatedRule>, winner: EvaluatedRule, suppressed: seq<EvaluatedRule>)
    requires Resolved(rules, winner, suppressed)
    ensures winner in rules && Top(rules, winner) && winner.state == DesiredOf(rules)
    ensures forall i :: 0 <= i < |rules| ==> Leq(winner, rules[i])
    ensures Preferred(rules, winner)
  {
    var all := [winner] + suppressed;
    forall r: EvaluatedRule
      ensures r in rules <==> r in all
    {
      assert r in rules <==> r in multiset(rules);
      assert r in all <==> r in multiset(all);
    }
    assert all[0] == winner;
    forall i | 0 <= i < |rules|
      ensures Leq(winner, rules[i])
    {
      assert rules[i] in all;
      var j :| 0 <= j < |all| && all[j] == rules[i];
      if j > 0 {
        assert Leq(all[0], all[j]);
      } else {
        CompareIsTotalPreorder(winner, winner, winner);
      }
    }
    assert winner in all && winner in rules;
    var k :| 0 <= k < |rules| && rules[k] == winner;
    if winner.state.On? {
      assert rules[k].state.On? && Top(rules, rules[k]);
    }
    LeastIsPreferred(rules, winner);
  }

  lemma LeastIsPreferred(rules: seq<EvaluatedRule>, winner: EvaluatedRule)
    requires Top(rules, winner) && forall i :: 0 <= i < |rules| ==> Leq(winner, rules[i])
    ensures Preferred(rules, winner)
  {
    hide Compare;
    var k :| 0 <= k < |rules| && rules[k] == winner;
    forall i | 0 <= i < |rules| && Top(rules, rules[i]) && rules[i].state == winner.state
      ensures && rules[i].specificity <= winner.specificity
              && (rules[i].specificity == winner.specificity ==> rules[i].ref.createdAt <= winner.ref.createdAt)
              && (rules[i].specificity == winner.specificity && rules[i].ref.createdAt == winner.ref.createdAt ==>
                    !Smaller(rules[i].ref.name, winner.ref.name))
    {
      assert rules[i].ref.priority == winner.ref.priority;
      assert Leq(winner, rules[i]);
      CompareMeans(rules[i], winner);
      CompareMeans(winner, rules[i]);
    }
  }

  function Refs(rules: seq<EvaluatedRule>): seq<RuleRef> {
    seq(|rules|, i requires 0 <= i < |rules| => rules[i].ref)
  }

  /** What a decision must be, up to the choice among rules that compare equal. */
  ghost predicate IsDecision(target: Target, policies: seq<PolicySpec>, overrides: seq<OverrideSpec>,
                             config: GuardrailConfig, now: int, d: Decision) {
    var rules := Applicable(target, policies, overrides, now);
    if IsExempt(target, config) || rules == [] then d == UNMANAGED
    else
      var desired := DesiredOf(rules);
      var blocks := if desired.Off? then Blocks(target, config) else [];
      && (exists winner: EvaluatedRule, suppressed: seq<EvaluatedRule> ::
            Resolved(rules, winner, suppressed) && d.winner == Some(winner.ref) && d.suppressed == Refs(suppressed))
      && d.desired == Some(desired)
      && d.blocks == blocks
      && d.divergent == (PowerStateFromObserved(target.observed, target.ref.kind) != desired && blocks == [])
      && d.snapshotRequired == (desired.Off? && blocks == [] && !target.hasSnapshot)
  }

  method ComputeDecision(target: Target, policies: seq<PolicySpec>, overrides: seq<OverrideSpec>,
                         config: GuardrailConfig, now: int) returns (d: Decision)
    ensures IsDecision(target, policies, overrides, config, now, d)
  {
    if IsExempt(target, config) {
      return UNMANAGED;
    }
    var rules := CollectApplicableRules(target, policies, overrides, now);
    if |rules| == 0 {
      return UNMANAGED;
    }
    var winner, suppressed := ResolvePriority(rules);
    WinnerDecides(rules, winner.value, suppressed);
    var refs: seq<RuleRef> := [];
    for i := 0 to |suppressed|
      invariant refs == Refs(suppressed[..i])
    {
      refs := refs + [suppressed[i].ref];
    }
    assert suppressed[..|suppressed|] == suppressed;
    var blocks: seq<BlockReason> := [];
    if winner.value.state.Off? {
      blocks := EvaluateGuardrails(target, config);
    }
    var observed := PowerStateFromObserved(target.observed, target.ref.kind);
    d := Decision(Some(winner.value.state), Some(winner.value.ref), refs, blocks,
                  observed != winner.value.state && blocks == [],
                  winner.value.state.Off? && blocks == [] && !target.hasSnapshot);
  }

  // ---------------------------------------------------------------- what a decision means

  /** The target is managed exactly when it is not exempt and some rule applies; it is
      to be off exactly when moreover every applicable rule of maximal priority says off;
      the winner and the suppressed rules together are the applicable ones; and a
      decision to switch on is never blocked. */
  lemma DecisionMeaning(target: Target, policies: seq<PolicySpec>, overrides: seq<OverrideSpec>,
                        config: GuardrailConfig, now: int, d: Decision)
    requires IsDecision(target, policies, overrides, config, now, d)
    ensures var rules := Applicable(target, policies, overrides, now);
            && (d.IsManaged() <==> !IsExempt(target, config) && rules != [])
            && (d.desired == Some(Off) <==>
                  d.IsManaged() && forall i :: 0 <= i < |rules| && Top(rules, rules[i]) ==> rules[i].state.Off?)
            && (d.IsManaged() ==> d.desired.Some? && multiset([d.winner.value] + d.suppressed) == multiset(Refs(rules)))
            && (d.IsBlocked() ==> d.desired == Some(Off))
  {
    hide Applicable, Blocks;
    var rules := Applicable(target, policies, overrides, now);
    if !IsExempt(target, config) && rules != [] {
      var winner: EvaluatedRule, suppressed: seq<EvaluatedRule> :|
        Resolved(rules, winner, suppressed) && d.winner == Some(winner.ref) && d.suppressed == Refs(suppressed);
      RefsOfResolution(rules, winner, suppressed);
    }
  }

  lemma RefsOfResolution(rules: seq<EvaluatedRule>, winner: EvaluatedRule, suppressed: seq<EvaluatedRule>)
    requires Resolved(rules, winner, suppressed)
    ensures multiset([winner.ref] + Refs(suppressed)) == multiset(Refs(rules))
  {
    RefsOfPermutation([winner] + suppressed, rules);
    assert Refs([winner] + suppressed) == [winner.ref] + Refs(suppressed);
  }

  lemma TakeOut<T>(s: seq<T>, k: nat)
    requires k < |s|
    ensures multiset(s) == multiset([s[k]]) + multiset(s[..k] + s[k + 1..])
  {
    assert s == s[..k] + [s[k]] + s[k + 1..];
  }

  lemma Cancel<T>(x: multiset<T>, a: multiset<T>, b: multiset<T>)
    requires x + a == x + b
    ensures a == b
  {
    assert a == (x + a) - x && b == (x + b) - x;
  }

  lemma {:induction false} RefsOfPermutation(a: seq<EvaluatedRule>, b: seq<EvaluatedRule>)
    requires multiset(a) == multiset(b)
    ensures multiset(Refs(a)) == multiset(Refs(b))
  {
    hide Refs;
    SameSize(a, b);
    if a == [] {
      assert a == b;
    } else {
      assert a[0] in multiset(b);
      var k :| 0 <= k < |b| && b[k] == a[0];
      RestIsPermutation(a, b, k);
      RefsOfPermutation(a[1..], b[..k] + b[k + 1..]);
      RefsTakeOut(a, 0);
      RefsTakeOut(b, k);
      assert a[..0] + a[1..] == a[1..];
    }
  }

  lemma RestIsPermutation<T>(a: seq<T>, b: seq<T>, k: nat)
    requires multiset(a) == multiset(b) && |a| > 0 && k < |b| && b[k] == a[0]
    ensures multiset(a[1..]) == multiset(b[..k] + b[k + 1..])
  {
    TakeOut(a, 0);
    TakeOut(b, k);
    assert a[..0] + a[1..] == a[1..];
    Cancel(multiset([a[0]]), multiset(a[1..]), multiset(b[..k] + b[k + 1..]));
  }

  lemma RefsTakeOut(s: seq<EvaluatedRule>, k: nat)
    requires k < |s|
    ensures multiset(Refs(s)) == multiset([s[k].ref]) + multiset(Refs(s[..k] + s[k + 1..]))
  {
    TakeOut(Refs(s), k);
    assert Refs(s)[..k] + Refs(s)[k + 1..] == Refs(s[..k] + s[k + 1..]);
  }
}
