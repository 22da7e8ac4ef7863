/** Laws of the decision over whole rule lists: the order of the lists is irrelevant,
    and one more rule can only push towards the state it evaluates to. */
module EngineLaws {
  import opened Domain
  import Scopes
  import Windows
  import opened Guardrails
  import opened Engine

  // ---------------------------------------------------------------- rule lists as sets

  ghost predicate SameMembers<T>(a: seq<T>, b: seq<T>) {
    (forall i :: 0 <= i < |a| ==> a[i] in b) && (forall i :: 0 <= i < |b| ==> b[i] in a)
  }

  lemma {:induction false} PolicyMembers(target: Target, policies: seq<PolicySpec>, now: int, r: EvaluatedRule)
    ensures r in PolicyRules(target, policies, now) <==>
              exists i :: 0 <= i < |policies| && Scopes.MatchesScope(target, policies[i].scope) && r == PolicyRule(policies[i], now)
  {
    if policies != [] {
      var n := |policies| - 1;
      PolicyMembers(target, policies[..n], now, r);
      if i :| 0 <= i < |policies| && Scopes.MatchesScope(target, policies[i].scope) && r == PolicyRule(policies[i], now) {
        assert i == n || policies[..n][i] == policies[i];
      }
    }
  }

  lemma {:induction false} OverrideMembers(target: Target, overrides: seq<OverrideSpec>, now: int, r: EvaluatedRule)
    ensures r in OverrideRules(target, overrides, now) <==>
              exists i :: 0 <= i < |overrides| && OverrideApplies(target, overrides[i], now) && r == OverrideRule(overrides[i])
  {
    if overrides != [] {
      var n := |overrides| - 1;
      OverrideMembers(target, overrides[..n], now, r);
      if i :| 0 <= i < |overrides| && OverrideApplies(target, overrides[i], now) && r == OverrideRule(overrides[i]) {
        assert i == n || overrides[..n][i] == overrides[i];
      }
    }
  }

  lemma ApplicableMembers(target: Target, ps: seq<PolicySpec>, ps': seq<PolicySpec>,
                          os: seq<OverrideSpec>, os': seq<OverrideSpec>, now: int)
    requires SameMembers(ps, ps') && SameMembers(os, os')
    ensures SameMembers(Applicable(target, ps, os, now), Applicable(target, ps', os', now))
  {
    ApplicableIncluded(target, ps, ps', os, os', now);
    ApplicableIncluded(target, ps', ps, os', os, now);
  }

  lemma ApplicableIncluded(target: Target, ps: seq<PolicySpec>, ps': seq<PolicySpec>,
                           os: seq<OverrideSpec>, os': seq<OverrideSpec>, now: int)
    requires (forall i :: 0 <= i < |ps| ==> ps[i] in ps') && (forall i :: 0 <= i < |os| ==> os[i] in os')
    ensures var rules := Applicable(target, ps, os, now);
            forall i :: 0 <= i < |rules| ==> rules[i] in Applicable(target, ps', os', now)
  {
    var rules := Applicable(target, ps, os, now);
    forall i | 0 <= i < |rules|
      ensures rules[i] in Applicable(target, ps', os', now)
    {
      var r := rules[i];
      PolicyMembers(target, ps, now, r);
      PolicyMembers(target, ps', now, r);
      OverrideMembers(target, os, now, r);
      OverrideMembers(target, os', now, r);
      if r in PolicyRules(target, ps, now) {
        var k :| 0 <= k < |ps| && Scopes.MatchesScope(target, ps[k].scope) && r == PolicyRule(ps[k], now);
        assert ps[k] in ps';
      } else {
        assert r in OverrideRules(target, os, now);
        var k :| 0 <= k < |os| && OverrideApplies(target, os[k], now) && r == OverrideRule(os[k]);
        assert os[k] in os';
      }
    }
  }

  lemma TopDependsOnMembers(a: seq<EvaluatedRule>, b: seq<EvaluatedRule>, r: EvaluatedRule)
    requires SameMembers(a, b) && Top(a, r)
    ensures Top(b, r)
  {
    forall i | 0 <= i < |b|
      ensures b[i].ref.priority <= r.ref.priority
    {
      assert b[i] in a;
    }
  }

  lemma DesiredDependsOnMembers(a: seq<EvaluatedRule>, b: seq<EvaluatedRule>)
    requires SameMembers(a, b)
    ensures DesiredOf(a) == DesiredOf(b) && (a == [] <==> b == [])
  {
    if i :| 0 <= i < |a| && a[i].state.On? && Top(a, a[i]) {
      TopDependsOnMembers(a, b, a[i]);
    }
    if i :| 0 <= i < |b| && b[i].state.On? && Top(b, b[i]) {
      TopDependsOnMembers(b, a, b[i]);
    }
    assert a != [] ==> a[0] in b;
    assert b != [] ==> b[0] in a;
  }

  /** Reordering or repeating rules changes neither the state, nor the blocks, nor
      whether the target is managed or divergent. */
  lemma OrderDoesNotMatter(target: Target, ps: seq<PolicySpec>, ps': seq<PolicySpec>, os: seq<OverrideSpec>, os': seq<OverrideSpec>,
                           config: GuardrailConfig, now: int, d: Decision, d': Decision)
    requires SameMembers(ps, ps') && SameMembers(os, os')
    requires IsDecision(target, ps, os, config, now, d) && IsDecision(target, ps', os', config, now, d')
    ensures d.desired == d'.desired && d.blocks == d'.blocks && d.divergent == d'.divergent
    ensures d.IsManaged() == d'.IsManaged() && d.snapshotRequired == d'.snapshotRequired
  {
    hide Applicable, DesiredOf, Blocks;
    ApplicableMembers(target, ps, ps', os, os', now);
    DesiredDependsOnMembers(Applicable(target, ps, os, now), Applicable(target, ps', os', now));
  }

  // ---------------------------------------------------------------- one more rule

  function Insert<T>(s: seq<T>, k: nat, x: T): seq<T>
    requires k <= |s|
  {
    s[..k] + [x] + s[k..]
  }

  lemma {:induction false} PolicyRulesConcat(target: Target, a: seq<PolicySpec>, b: seq<PolicySpec>, now: int)
    ensures PolicyRules(target, a + b, now) == PolicyRules(target, a, now) + PolicyRules(target, b, now)
  {
    if b == [] {
      assert a + b == a;
    } else {
      var n := |b| - 1;
      PolicyRulesConcat(target, a, b[..n], now);
      assert (a + b)[..|a + b| - 1] == a + b[..n];
    }
  }

  lemma {:induction false} OverrideRulesConcat(target: Target, a: seq<OverrideSpec>, b: seq<OverrideSpec>, now: int)
    ensures OverrideRules(target, a + b, now) == OverrideRules(target, a, now) + OverrideRules(target, b, now)
  {
    if b == [] {
      assert a + b == a;
    } else {
      var n := |b| - 1;
      OverrideRulesConcat(target, a, b[..n], now);
      assert (a + b)[..|a + b| - 1] == a + b[..n];
    }
  }

  lemma InsertedPolicyRules(target: Target, ps: seq<PolicySpec>, k: nat, p: PolicySpec, now: int)
    requires k <= |ps|
    ensures PolicyRules(target, Insert(ps, k, p), now)
            == PolicyRules(target, ps[..k], now)
               + (if Scopes.MatchesScope(target, p.scope) then [PolicyRule(p, now)] else [])
               + PolicyRules(target, ps[k..], now)
    ensures PolicyRules(target, ps, now) == PolicyRules(target, ps[..k], now) + PolicyRules(target, ps[k..], now)
  {
    PolicyRulesConcat(target, ps[..k] + [p], ps[k..], now);
    PolicyRulesConcat(target, ps[..k], ps[k..], now);
    assert ps[..k] + ps[k..] == ps;
    assert (ps[..k] + [p])[..k] == ps[..k];
  }

  lemma InsertedOverrideRules(target: Target, os: seq<OverrideSpec>, k: nat, o: OverrideSpec, now: int)
    requires k <= |os|
    ensures OverrideRules(target, Insert(os, k, o), now)
            == OverrideRules(target, os[..k], now)
               + (if OverrideApplies(target, o, now) then [OverrideRule(o)] else [])
               + OverrideRules(target, os[k..], now)
    ensures OverrideRules(target, os, now) == OverrideRules(target, os[..k], now) + OverrideRules(target, os[k..], now)
  {
    OverrideRulesConcat(target, os[..k] + [o], os[k..], now);
    OverrideRulesConcat(target, os[..k], os[k..], now);
    assert os[..k] + os[k..] == os;
    assert (os[..k] + [o])[..k] == os[..k];
  }

  /** `more` has the members of `rules` and `extra`. */
  ghost predicate OneMore(rules: seq<EvaluatedRule>, more: seq<EvaluatedRule>, extra: EvaluatedRule) {
    SameMembers(more, rules + [extra])
  }

  lemma OneMorePushesItsWay(rules: seq<EvaluatedRule>, more: seq<EvaluatedRule>, extra: EvaluatedRule)
    requires OneMore(rules, more, extra) && rules != []
    ensures extra.state.On? && DesiredOf(rules).On? ==> DesiredOf(more).On?
    ensures extra.state.Off? && DesiredOf(rules).Off? ==> DesiredOf(more).Off?
  {
    var both := rules + [extra];
    DesiredDependsOnMembers(more, both);
    if extra.state.On? && DesiredOf(rules).On? {
      var i :| 0 <= i < |rules| && rules[i].state.On? && Top(rules, rules[i]);
      assert both[i] == rules[i] && both[|rules|] == extra;
      if extra.ref.priority > rules[i].ref.priority {
        assert Top(both, both[|rules|]);
      } else {
        assert Top(both, both[i]);
      }
    }
    if extra.state.Off? && DesiredOf(both).On? {
      var i :| 0 <= i < |both| && both[i].state.On? && Top(both, both[i]);
      assert rules[i] == both[i];
      forall j | 0 <= j < |rules|
        ensures rules[j].ref.priority <= rules[i].ref.priority
      {
        assert both[j] == rules[j];
      }
      assert Top(rules, rules[i]);
    }
  }

  lemma OneMoreBetween(a: seq<EvaluatedRule>, b: seq<EvaluatedRule>, extra: EvaluatedRule)
    ensures OneMore(a + b, a + [extra] + b, extra)
  {
    var more, both := a + [extra] + b, a + b + [extra];
    forall i | 0 <= i < |more|
      ensures more[i] in both
    {
      if i == |a| {
        assert both[|a| + |b|] == extra;
      } else {
        assert both[if i < |a| then i else i - 1] == more[i];
      }
    }
    forall i | 0 <= i < |both|
      ensures both[i] in more
    {
      if i == |a| + |b| {
        assert more[|a|] == extra;
      } else {
        assert more[if i < |a| then i else i + 1] == both[i];
      }
    }
  }

  /** A policy that does not match the target leaves every admissible decision as it is;
      one that matches can only push towards its own state. */
  lemma AddingPolicy(target: Target, ps: seq<PolicySpec>, k: nat, p: PolicySpec, os: seq<OverrideSpec>,
                     config: GuardrailConfig, now: int, d: Decision, d': Decision)
    requires k <= |ps|
    ensures !Scopes.MatchesScope(target, p.scope) ==>
              (IsDecision(target, ps, os, config, now, d) <==> IsDecision(target, Insert(ps, k, p), os, config, now, d))
    ensures IsDecision(target, ps, os, config, now, d) && IsDecision(target, Insert(ps, k, p), os, config, now, d') ==>
              && (PolicyRule(p, now).state.On? && d.desired == Some(On) ==> d'.desired == Some(On))
              && (PolicyRule(p, now).state.Off? && d.desired == Some(Off) ==> d'.desired == Some(Off))
  {
    hide DesiredOf, Blocks, PolicyRules, OverrideRules;
    InsertedPolicyRules(target, ps, k, p, now);
    var a, b := PolicyRules(target, ps[..k], now), PolicyRules(target, ps[k..], now) + OverrideRules(target, os, now);
    assert Applicable(target, ps, os, now) == a + b;
    if Scopes.MatchesScope(target, p.scope) {
      var extra := PolicyRule(p, now);
      assert Applicable(target, Insert(ps, k, p), os, now) == a + [extra] + b;
      OneMoreBetween(a, b, extra);
      if a + b != [] {
        OneMorePushesItsWay(a + b, a + [extra] + b, extra);
      }
    } else {
      assert Applicable(target, Insert(ps, k, p), os, now) == a + b;
    }
  }

  /** Likewise for an override; an expired one is inert whatever its scope. */
  lemma AddingOverride(target: Target, ps: seq<PolicySpec>, os: seq<OverrideSpec>, k: nat, o: OverrideSpec,
                       config: GuardrailConfig, now: int, d: Decision, d': Decision)
    requires k <= |os|
    ensures o.IsExpired(now) || !Scopes.MatchesScope(target, o.scope) ==>
              (IsDecision(target, ps, os, config, now, d) <==> IsDecision(target, ps, Insert(os, k, o), config, now, d))
    ensures IsDecision(target, ps, os, config, now, d) && IsDecision(target, ps, Insert(os, k, o), config, now, d') ==>
              && (o.state.On? && d.desired == Some(On) ==> d'.desired == Some(On))
              && (o.state.Off? && d.desired == Some(Off) ==> d'.desired == Some(Off))
  {
    hide DesiredOf, Blocks, PolicyRules, OverrideRules;
    InsertedOverrideRules(target, os, k, o, now);
    var a, b := PolicyRules(target, ps, now) + OverrideRules(target, os[..k], now), OverrideRules(target, os[k..], now);
    assert Applicable(target, ps, os, now) == a + b;
    if OverrideApplies(target, o, now) {
      var extra := OverrideRule(o);
      assert Applicable(target, ps, Insert(os, k, o), now) == a + [extra] + b;
      OneMoreBetween(a, b, extra);
      if a + b != [] {
        OneMorePushesItsWay(a + b, a + [extra] + b, extra);
      }
    } else {
      assert Applicable(target, ps, Insert(os, k, o), now) == a + b;
    }
  }

  // ---------------------------------------------------------------- the rule that decided

  /** The policy or override behind an evaluated rule, by its own fields. */
  ghost predicate FromPolicy(target: Target, p: PolicySpec, now: int, r: EvaluatedRule) {
    && Scopes.MatchesScope(target, p.scope) && r.state == Windows.EvaluateSchedule(p.schedule, now / 60_000_000_000)
    && r.ref.kind == PowerPolicy && r.ref.name == p.name && r.ref.namespace == p.namespace
    && r.ref.priority == p.priority && r.ref.createdAt == p.createdAt && r.specificity == Scopes.ComputeSpecificity(p.scope)
  }

  ghost predicate FromOverride(target: Target, o: OverrideSpec, now: int, r: EvaluatedRule) {
    && Scopes.MatchesScope(target, o.scope) && now < o.expiresAt && r.state == o.state
    && r.ref.kind == PowerOverride && r.ref.name == o.name && r.ref.namespace == o.namespace
    && r.ref.priority == o.priority && r.ref.createdAt == o.createdAt && r.specificity == Scopes.ComputeSpecificity(o.scope)
  }

  /** A managed decision names a rule that stands in the lists, matches the target and is
      in force, has maximal priority, asks for the decided state, and is preferred among
      its equals. */
  lemma DecidingRule(target: Target, ps: seq<PolicySpec>, os: seq<OverrideSpec>, config: GuardrailConfig, now: int, d: Decision)
    returns (winner: EvaluatedRule)
    requires IsDecision(target, ps, os, config, now, d) && d.IsManaged()
    ensures var rules := Applicable(target, ps, os, now);
            && winner in rules && d.winner == Some(winner.ref) && d.desired == Some(winner.state)
            && Top(rules, winner) && Preferred(rules, winner)
    ensures (exists i :: 0 <= i < |ps| && FromPolicy(target, ps[i], now, winner)) || (exists i :: 0 <= i < |os| && FromOverride(target, os[i], now, winner))
  {
    hide DesiredOf, Blocks, Top, Preferred, PolicyRules, OverrideRules;
    var rules := Applicable(target, ps, os, now);
    var suppressed: seq<EvaluatedRule>;
    winner, suppressed :| Resolved(rules, winner, suppressed) && d.winner == Some(winner.ref) && d.suppressed == Refs(suppressed);
    WinnerDecides(rules, winner, suppressed);
    PolicyMembers(target, ps, now, winner);
    OverrideMembers(target, os, now, winner);
    if winner in PolicyRules(target, ps, now) {
      var i :| 0 <= i < |ps| && Scopes.MatchesScope(target, ps[i].scope) && winner == PolicyRule(ps[i], now);
      assert FromPolicy(target, ps[i], now, winner);
    } else {
      var i :| 0 <= i < |os| && OverrideApplies(target, os[i], now) && winner == OverrideRule(os[i]);
      assert FromOverride(target, os[i], now, winner);
    }
  }

  /** A managed decision is divergent exactly when it is not blocked and the observation is in
      the other state, and needs a snapshot exactly when it is an unblocked "off" for a target
      that has none; an unmanaged one is none of this. */
  lemma DecisionFlags(target: Target, ps: seq<PolicySpec>, os: seq<OverrideSpec>, config: GuardrailConfig, now: int, d: Decision)
    requires IsDecision(target, ps, os, config, now, d)
    ensures d.divergent <==> d.IsManaged() && d.blocks == [] && d.desired != Some(PowerStateFromObserved(target.observed, target.ref.kind))
    ensures d.snapshotRequired <==> d.IsManaged() && d.blocks == [] && d.desired == Some(Off) && !target.hasSnapshot
    ensures !d.IsManaged() ==> d.blocks == [] && d.desired == None && d.suppressed == []
  {
    hide Applicable, DesiredOf, Blocks, Resolved;
  }
}
