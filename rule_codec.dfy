/**
 * The advanced-rule codec at the record level. Capture turns the parsed
 * annotation markup (Criteria, Rules, Conditions, Actions) into template
 * rules: ids dropped, condition expressions in order, actions as an
 * attribute -> value map (RuleYML, RulesYML, ExpressionsYML and
 * ElementYML.handleAnnotations). Import rebuilds the markup records with a
 * fresh id on every rule, condition and action
 * (ObjectBuilder.makeAnnotationData).
 */
module RuleCodec {
  import opened Wrappers
  import opened Text
  import opened Records
  import opened TreeMaps
  import opened FreshIds

  // ---------------------------------------------------------------------
  // Decoding: markup records -> template rules

  /** The condition expressions, in order. */
  function Expressions(cs: seq<Condition>): (r: seq<string>)
    ensures |r| == |cs| && forall i :: 0 <= i < |cs| ==> r[i] == cs[i].expression
  {
    seq(|cs|, i requires 0 <= i < |cs| => cs[i].expression)
  }

  /** The actions put into a HashMap in list order: a later action overwrites an earlier one. */
  function ActionMap(actions: seq<Action>): map<string, string> {
    if actions == [] then map[]
    else
      var k := |actions| - 1;
      ActionMap(actions[..k])[actions[k].attribute := actions[k].value]
  }

  /** The keys are exactly the attributes that occur. */
  lemma {:induction false} ActionMapKeys(actions: seq<Action>)
    ensures ActionMap(actions).Keys == set i | 0 <= i < |actions| :: actions[i].attribute
  {
    if actions != [] {
      var k := |actions| - 1;
      var prefix := actions[..k];
      ActionMapKeys(prefix);
      var all := set i | 0 <= i < |actions| :: actions[i].attribute;
      var before := set i | 0 <= i < |prefix| :: prefix[i].attribute;
      assert all == before + {actions[k].attribute} by {
        forall a | a in all ensures a in before + {actions[k].attribute} {
          var i :| 0 <= i < |actions| && actions[i].attribute == a;
          if i < k {
            assert prefix[i].attribute == a;
          }
        }
        forall a | a in before ensures a in all {
          var i :| 0 <= i < |prefix| && prefix[i].attribute == a;
          assert actions[i].attribute == a;
        }
      }
    }
  }

  /** An attribute maps to the value of the last action that names it. */
  lemma {:induction false} ActionMapLastWins(actions: seq<Action>, i: nat)
    requires i < |actions|
    requires forall j :: i < j < |actions| ==> actions[j].attribute != actions[i].attribute
    ensures actions[i].attribute in ActionMap(actions)
    ensures ActionMap(actions)[actions[i].attribute] == actions[i].value
  {
    var k := |actions| - 1;
    if i < k {
      var prefix := actions[..k];
      assert prefix[i] == actions[i];
      ActionMapLastWins(prefix, i);
    }
  }

  /** Ids play no part: action lists that agree on attributes and values give the same map. */
  lemma {:induction false} ActionMapIgnoresIds(a1: seq<Action>, a2: seq<Action>)
    requires |a1| == |a2|
    requires forall i :: 0 <= i < |a1| ==> a1[i].attribute == a2[i].attribute && a1[i].value == a2[i].value
    ensures ActionMap(a1) == ActionMap(a2)
  {
    if a1 != [] {
      var k := |a1| - 1;
      ActionMapIgnoresIds(a1[..k], a2[..k]);
    }
  }

  /** The actions put into a TreeMap in list order: its entries, ascending by attribute. */
  function ActionEntries(actions: seq<Action>): Entries {
    if actions == [] then []
    else
      var k := |actions| - 1;
      Put(ActionEntries(actions[..k]), actions[k].attribute, actions[k].value)
  }

  /** The TreeMap's entries are always in ascending key order. */
  lemma {:induction false} ActionEntriesAscending(actions: seq<Action>)
    ensures Ascending(ActionEntries(actions))
  {
    if actions != [] {
      var k := |actions| - 1;
      ActionEntriesAscending(actions[..k]);
      PutAscending(ActionEntries(actions[..k]), actions[k].attribute, actions[k].value);
    }
  }

  /** The TreeMap and the HashMap filled from the same actions answer every get alike. */
  lemma {:induction false} ActionEntriesAgree(actions: seq<Action>, x: string)
    ensures Lookup(ActionEntries(actions), x) == Get(ActionMap(actions), x)
  {
    if actions != [] {
      var k := |actions| - 1;
      ActionEntriesAgree(actions[..k], x);
      PutLookup(ActionEntries(actions[..k]), actions[k].attribute, actions[k].value, x);
    }
  }

  /** One markup rule as a template rule; a missing condition or action list is dereferenced and raises. */
  function RuleOf(x: XmlRule): (r: Result<Rule>)
    ensures r.Err? <==> x.conditions.None? || x.actions.None?
    ensures r.Err? ==> r.fault == NullPointer
    ensures r.Ok? ==> r.value.name == x.name && |r.value.conditions| == |x.conditions.value|
  {
    if x.conditions.None? || x.actions.None? then Err(NullPointer)
    else Ok(Rule(x.name, Expressions(x.conditions.value), ActionEntries(x.actions.value)))
  }

  /** All markup rules in order; the first one with a missing list raises. */
  function DecodeRules(xs: seq<XmlRule>): (r: Result<seq<Rule>>)
    ensures r.Ok? <==> forall i :: 0 <= i < |xs| ==> RuleOf(xs[i]).Ok?
    ensures r.Err? ==> r.fault == NullPointer
    ensures r.Ok? ==> |r.value| == |xs| && forall i :: 0 <= i < |xs| ==> r.value[i] == RuleOf(xs[i]).value
  {
    if xs == [] then Ok([])
    else
      var k := |xs| - 1;
      var prefix := DecodeRules(xs[..k]);
      if prefix.Err? then Err(prefix.fault)
      else
        var last := RuleOf(xs[k]);
        if last.Err? then Err(last.fault)
        else Ok(prefix.value + [last.value])
  }

  /**
   * The advanced settings of a component from its annotation text: no text,
   * empty text and text that does not parse all leave them unset; parsed
   * criteria without a rule list raise.
   */
  function DecodeAnnotation(text: AnnotationText): (r: Result<Option<RuleSet>>)
    ensures r.Ok? && r.value.Some? <==> text.Parsed? && text.criteria.rules.Some? && DecodeRules(text.criteria.rules.value).Ok?
    ensures r.Err? <==> text.Parsed? && (text.criteria.rules.None? || DecodeRules(text.criteria.rules.value).Err?)
    ensures r.Err? ==> r.fault == NullPointer
    ensures r.Ok? && r.value.Some? ==> r.value.value.policy == text.criteria.flowFilePolicy
  {
    match text
    case Parsed(c) =>
      if c.rules.None? then Err(NullPointer)
      else
        var rules := DecodeRules(c.rules.value);
        if rules.Err? then Err(rules.fault) else Ok(Some(RuleSet(c.flowFilePolicy, rules.value)))
    case _ => Ok(None)
  }

  /** The condition-expression loop shared by the rule constructors. */
  method ConditionList(conditions: seq<Condition>) returns (expressions: seq<string>)
    ensures expressions == Expressions(conditions)
  {
    expressions := [];
    var i := 0;
    while i < |conditions|
      invariant 0 <= i <= |conditions|
      invariant expressions == Expressions(conditions[..i])
    {
      expressions := expressions + [conditions[i].expression];
      i := i + 1;
    }
    assert conditions[..i] == conditions;
  }

  /** ExpressionsYML's constructor: each action's value put into a HashMap under its attribute. */
  method ExpressionsYml(actions: seq<Action>) returns (expressions: map<string, string>)
    ensures expressions == ActionMap(actions)
  {
    expressions := map[];
    var i := 0;
    while i < |actions|
      invariant 0 <= i <= |actions|
      invariant expressions == ActionMap(actions[..i])
    {
      assert actions[..i + 1][..i] == actions[..i];
      expressions := expressions[actions[i].attribute := actions[i].value];
      i := i + 1;
    }
    assert actions[..i] == actions;
  }

  /** RulesYML's constructor: both lists dereferenced, the actions put into a HashMap. */
  method RulesYml(conditions: Option<seq<Condition>>, actions: Option<seq<Action>>)
    returns (r: Result<(seq<string>, map<string, string>)>)
    ensures r.Err? <==> conditions.None? || actions.None?
    ensures r.Err? ==> r.fault == NullPointer
    ensures r.Ok? ==> r.value == (Expressions(conditions.value), ActionMap(actions.value))
  {
    if conditions.None? || actions.None? {
      return Err(NullPointer);
    }
    var expressions := ConditionList(conditions.value);
    var values := ExpressionsYml(actions.value);
    return Ok((expressions, values));
  }

  /** The TreeMap loop of RuleYML's constructor: each action put in list order. */
  method ActionTreeMap(actions: seq<Action>) returns (entries: Entries)
    ensures entries == ActionEntries(actions)
  {
    entries := [];
    var i := 0;
    while i < |actions|
      invariant 0 <= i <= |actions|
      invariant entries == ActionEntries(actions[..i])
    {
      assert actions[..i + 1][..i] == actions[..i];
      entries := Put(entries, actions[i].attribute, actions[i].value);
      i := i + 1;
    }
    assert actions[..i] == actions;
  }

  /** RuleYML's constructor as handleAnnotations calls it: the name kept, the actions put into a TreeMap. */
  method RuleYml(x: XmlRule) returns (r: Result<Rule>)
    ensures r == RuleOf(x)
  {
    if x.conditions.None? || x.actions.None? {
      return Err(NullPointer);
    }
    var conditions := ConditionList(x.conditions.value);
    var entries := ActionTreeMap(x.actions.value);
    return Ok(Rule(x.name, conditions, entries));
  }

  /** ElementYML.handleAnnotations, from the already parsed annotation text. */
  method HandleAnnotations(text: AnnotationText) returns (r: Result<Option<RuleSet>>)
    ensures r == DecodeAnnotation(text)
  {
    if !text.Parsed? {
      return Ok(None);
    }
    var criteria := text.criteria;
    if criteria.rules.None? {
      return Err(NullPointer);
    }
    var xs := criteria.rules.value;
    var rules: seq<Rule> := [];
    var i := 0;
    while i < |xs|
      invariant 0 <= i <= |xs|
      invariant DecodeRules(xs[..i]) == Ok(rules)
    {
      var rule := RuleYml(xs[i]);
      if rule.Err? {
        assert !RuleOf(xs[i]).Ok?;
        return Err(rule.fault);
      }
      assert xs[..i + 1][..i] == xs[..i];
      rules := rules + [rule.value];
      i := i + 1;
    }
    assert xs[..i] == xs;
    return Ok(Some(RuleSet(criteria.flowFilePolicy, rules)));
  }

  // ---------------------------------------------------------------------
  // Encoding: template rules -> markup records with fresh ids

  /** The source of the random UUIDs given to rules, conditions and actions. */
  const UUID := "uuid"

  /** The ids a rule consumes: one for itself, one per condition, one per action. */
  function IdCount(r: Rule): nat {
    1 + |r.conditions| + |r.actions|
  }

  /** The ids a list of rules consumes. */
  function IdsFor(rs: seq<Rule>): nat {
    if rs == [] then 0 else IdsFor(rs[..|rs| - 1]) + IdCount(rs[|rs| - 1])
  }

  /** The conditions of a rule, the i-th carrying the i-th id. */
  function ConditionsFor(expressions: seq<string>, ids: seq<string>): (r: seq<Condition>)
    requires |ids| == |expressions|
    ensures |r| == |expressions|
    ensures forall i :: 0 <= i < |r| ==> r[i] == Condition(Some(ids[i]), expressions[i])
  {
    seq(|expressions|, i requires 0 <= i < |expressions| => Condition(Some(ids[i]), expressions[i]))
  }

  /** The actions of a rule, one per TreeMap entry in key order, the i-th carrying the i-th id. */
  function ActionsFor(entries: Entries, ids: seq<string>): (r: seq<Action>)
    requires |ids| == |entries|
    ensures |r| == |entries|
    ensures forall i :: 0 <= i < |r| ==> r[i] == Action(Some(ids[i]), entries[i].0, entries[i].1)
  {
    seq(|entries|, i requires 0 <= i < |entries| => Action(Some(ids[i]), entries[i].0, entries[i].1))
  }

  /** One rule as markup, given its ids: the rule's id first, then the conditions' ids, then the actions' ids. */
  function EncodeRule(r: Rule, ids: seq<string>): XmlRule
    requires |ids| == IdCount(r)
  {
    var c := |r.conditions|;
    XmlRule(Some(ids[0]), r.name,
            Some(ConditionsFor(r.conditions, ids[1..1 + c])),
            Some(ActionsFor(r.actions, ids[1 + c..])))
  }

  /** All rules as markup, in order, each one's ids following the previous one's. */
  function EncodeRules(rs: seq<Rule>, ids: seq<string>): (r: seq<XmlRule>)
    requires |ids| == IdsFor(rs)
    ensures |r| == |rs|
  {
    if rs == [] then []
    else
      var n := |rs| - 1;
      var m := IdsFor(rs[..n]);
      EncodeRules(rs[..n], ids[..m]) + [EncodeRule(rs[n], ids[m..])]
  }

  /** The criteria makeAnnotationData builds from the rules and the ids it draws. */
  function Encode(rules: RuleSet, ids: seq<string>): Criteria
    requires |ids| == IdsFor(rules.rules)
  {
    Criteria(rules.policy, Some(EncodeRules(rules.rules, ids)))
  }

  /** The conditions of one rule, each with a fresh id. */
  method MakeConditions(expressions: seq<string>, uuids: UuidSource) returns (conditions: seq<Condition>)
    modifies uuids
    ensures conditions == ConditionsFor(expressions, Run(UUID, old(uuids.next), |expressions|))
    ensures uuids.next == old(uuids.next) + |expressions|
  {
    var k := uuids.next;
    conditions := [];
    var i := 0;
    while i < |expressions|
      invariant 0 <= i <= |expressions|
      invariant uuids.next == k + i
      invariant conditions == ConditionsFor(expressions[..i], Run(UUID, k, i))
    {
      var id := uuids.NewId();
      RunSnoc(UUID, k, i);
      assert expressions[..i + 1][..i] == expressions[..i];
      conditions := conditions + [Condition(Some(id), expressions[i])];
      i := i + 1;
    }
    assert expressions[..i] == expressions;
  }

  /** The actions of one rule, each with a fresh id, in the TreeMap's key order. */
  method MakeActions(entries: Entries, uuids: UuidSource) returns (actions: seq<Action>)
    modifies uuids
    ensures actions == ActionsFor(entries, Run(UUID, old(uuids.next), |entries|))
    ensures uuids.next == old(uuids.next) + |entries|
  {
    var k := uuids.next;
    actions := [];
    var i := 0;
    while i < |entries|
      invariant 0 <= i <= |entries|
      invariant uuids.next == k + i
      invariant actions == ActionsFor(entries[..i], Run(UUID, k, i))
    {
      var id := uuids.NewId();
      RunSnoc(UUID, k, i);
      assert entries[..i + 1][..i] == entries[..i];
      actions := actions + [Action(Some(id), entries[i].0, entries[i].1)];
      i := i + 1;
    }
    assert entries[..i] == entries;
  }

  /** makeAnnotationData for one rule: its own id first, then its conditions', then its actions'. */
  method MakeRule(rule: Rule, uuids: UuidSource) returns (x: XmlRule)
    modifies uuids
    ensures x == EncodeRule(rule, Run(UUID, old(uuids.next), IdCount(rule)))
    ensures uuids.next == old(uuids.next) + IdCount(rule)
  {
    var k := uuids.next;
    var id := uuids.NewId();
    var conditions := MakeConditions(rule.conditions, uuids);
    var actions := MakeActions(rule.actions, uuids);
    x := XmlRule(Some(id), rule.name, Some(conditions), Some(actions));
    EncodeRuleFromRuns(rule, k);
  }

  /** The markup of a rule whose id, condition ids and action ids are three consecutive runs. */
  lemma EncodeRuleFromRuns(rule: Rule, k: nat)
    ensures var c := |rule.conditions|;
      EncodeRule(rule, Run(UUID, k, IdCount(rule)))
      == XmlRule(Some(Fresh(UUID, k)), rule.name,
                 Some(ConditionsFor(rule.conditions, Run(UUID, k + 1, c))),
                 Some(ActionsFor(rule.actions, Run(UUID, k + 1 + c, |rule.actions|))))
  {
    var c := |rule.conditions|;
    var ids := Run(UUID, k, IdCount(rule));
    assert ids[0] == Fresh(UUID, k) by {
      RunAt(UUID, k, IdCount(rule), 0);
    }
    assert ids[1..1 + c] == Run(UUID, k + 1, c) by {
      RunSlice(UUID, k, IdCount(rule), 1, 1 + c);
    }
    assert ids[1 + c..] == Run(UUID, k + 1 + c, |rule.actions|) by {
      RunDrop(UUID, k, IdCount(rule), 1 + c);
    }
  }

  /** Encoding one rule more appends its markup, made from the ids that follow the earlier rules' ids. */
  lemma EncodeRulesStep(rs: seq<Rule>, i: nat, k: nat)
    requires i < |rs|
    ensures IdsFor(rs[..i + 1]) == IdsFor(rs[..i]) + IdCount(rs[i])
    ensures EncodeRules(rs[..i + 1], Run(UUID, k, IdsFor(rs[..i + 1])))
         == EncodeRules(rs[..i], Run(UUID, k, IdsFor(rs[..i])))
            + [EncodeRule(rs[i], Run(UUID, k + IdsFor(rs[..i]), IdCount(rs[i])))]
  {
    var front, all := rs[..i], rs[..i + 1];
    var m, c := IdsFor(front), IdCount(rs[i]);
    assert all[..i] == front && all[i] == rs[i];
    assert IdsFor(all) == m + c;
    var ids := Run(UUID, k, m + c);
    RunSplit(UUID, k, m, c);
    calc {
      EncodeRules(all, Run(UUID, k, IdsFor(all)));
      EncodeRules(all, ids);
      EncodeRules(front, ids[..m]) + [EncodeRule(rs[i], ids[m..])];
      EncodeRules(front, Run(UUID, k, m)) + [EncodeRule(rs[i], Run(UUID, k + m, c))];
    }
  }

  /** ObjectBuilder.makeAnnotationData, up to the markup records (their text form is not modelled). */
  method MakeAnnotationData(rules: RuleSet, uuids: UuidSource) returns (criteria: Criteria)
    modifies uuids
    ensures criteria == Encode(rules, Run(UUID, old(uuids.next), IdsFor(rules.rules)))
    ensures uuids.next == old(uuids.next) + IdsFor(rules.rules)
  {
    var k := uuids.next;
    var rs := rules.rules;
    var out: seq<XmlRule> := [];
    var i := 0;
    while i < |rs|
      invariant 0 <= i <= |rs|
      invariant uuids.next == k + IdsFor(rs[..i])
      invariant out == EncodeRules(rs[..i], Run(UUID, k, IdsFor(rs[..i])))
    {
      var x := MakeRule(rs[i], uuids);
      EncodeRulesStep(rs, i, k);
      out := out + [x];
      i := i + 1;
    }
    assert rs[..i] == rs;
    criteria := Criteria(rules.policy, Some(out));
  }

  // ---------------------------------------------------------------------
  // The round trip, and the ids

  /** Putting the actions of an ascending entry list into a TreeMap rebuilds that list. */
  lemma {:induction false} ActionEntriesOfActionsFor(entries: Entries, ids: seq<string>)
    requires |ids| == |entries| && Ascending(entries)
    ensures ActionEntries(ActionsFor(entries, ids)) == entries
  {
    if entries != [] {
      var n := |entries| - 1;
      var acts := ActionsFor(entries, ids);
      assert acts[..n] == ActionsFor(entries[..n], ids[..n]);
      ActionEntriesOfActionsFor(entries[..n], ids[..n]);
      PutAppends(entries[..n], entries[n].0, entries[n].1);
      assert entries[..n] + [entries[n]] == entries;
    }
  }

  /** Every rule of the list has its actions in ascending key order, as a TreeMap keeps them. */
  predicate ActionsAscending(rs: seq<Rule>) {
    forall i :: 0 <= i < |rs| ==> Ascending(rs[i].actions)
  }

  /** A rule survives encoding and decoding unchanged, whatever ids it is given. */
  lemma RuleRoundTrip(r: Rule, ids: seq<string>)
    requires |ids| == IdCount(r) && Ascending(r.actions)
    ensures RuleOf(EncodeRule(r, ids)) == Ok(r)
  {
    var c := |r.conditions|;
    assert Expressions(ConditionsFor(r.conditions, ids[1..1 + c])) == r.conditions;
    ActionEntriesOfActionsFor(r.actions, ids[1 + c..]);
  }

  /** Every rule list survives encoding and decoding unchanged. */
  lemma {:induction false} RulesRoundTrip(rs: seq<Rule>, ids: seq<string>)
    requires |ids| == IdsFor(rs) && ActionsAscending(rs)
    ensures DecodeRules(EncodeRules(rs, ids)) == Ok(rs)
  {
    if rs != [] {
      var n := |rs| - 1;
      var m := IdsFor(rs[..n]);
      var front, last := EncodeRules(rs[..n], ids[..m]), EncodeRule(rs[n], ids[m..]);
      var xs := EncodeRules(rs, ids);
      assert xs[..n] == front && xs[n] == last by {
        assert xs == front + [last];
      }
      assert DecodeRules(front) == Ok(rs[..n]) by {
        RulesRoundTrip(rs[..n], ids[..m]);
      }
      assert RuleOf(last) == Ok(rs[n]) by {
        RuleRoundTrip(rs[n], ids[m..]);
      }
      assert rs[..n] + [rs[n]] == rs;
    }
  }

  /** What makeAnnotationData builds, handleAnnotations reads back as the same rules. */
  lemma AnnotationRoundTrip(rules: RuleSet, ids: seq<string>)
    requires |ids| == IdsFor(rules.rules) && ActionsAscending(rules.rules)
    ensures DecodeAnnotation(Parsed(Encode(rules, ids))) == Ok(Some(rules))
  {
    RulesRoundTrip(rules.rules, ids);
  }

  /** Captured rules always hold their actions in key order. */
  lemma CapturedAscending(text: AnnotationText)
    requires DecodeAnnotation(text).Ok? && DecodeAnnotation(text).value.Some?
    ensures ActionsAscending(DecodeAnnotation(text).value.value.rules)
  {
    var rs := DecodeAnnotation(text).value.value.rules;
    var xs := text.criteria.rules.value;
    forall i | 0 <= i < |rs| ensures Ascending(rs[i].actions) {
      ActionEntriesAscending(xs[i].actions.value);
    }
  }

  /** Capture after rebuild gives back what the first capture gave, whatever fresh ids the rebuild drew. */
  lemma CaptureRebuildCapture(text: AnnotationText, ids: seq<string>)
    requires DecodeAnnotation(text).Ok? && DecodeAnnotation(text).value.Some?
    requires |ids| == IdsFor(DecodeAnnotation(text).value.value.rules)
    ensures DecodeAnnotation(Parsed(Encode(DecodeAnnotation(text).value.value, ids))) == DecodeAnnotation(text)
  {
    CapturedAscending(text);
    AnnotationRoundTrip(DecodeAnnotation(text).value.value, ids);
  }

  /** The given ids as present values. */
  function Somes(ids: seq<string>): (r: seq<NString>)
    ensures |r| == |ids| && forall i :: 0 <= i < |ids| ==> r[i] == Some(ids[i])
  {
    seq(|ids|, i requires 0 <= i < |ids| => Some(ids[i]))
  }

  /** Cutting the ids in two cuts their present values alike. */
  lemma SomesAppend(ids: seq<string>, m: nat)
    requires m <= |ids|
    ensures Somes(ids[..m]) + Somes(ids[m..]) == Somes(ids)
  {
  }

  /** The ids of conditions, in order. */
  function ConditionIds(cs: seq<Condition>): (r: seq<NString>)
    ensures |r| == |cs| && forall i :: 0 <= i < |cs| ==> r[i] == cs[i].id
  {
    seq(|cs|, i requires 0 <= i < |cs| => cs[i].id)
  }

  /** The ids of actions, in order. */
  function ActionIds(actions: seq<Action>): (r: seq<NString>)
    ensures |r| == |actions| && forall i :: 0 <= i < |actions| ==> r[i] == actions[i].id
  {
    seq(|actions|, i requires 0 <= i < |actions| => actions[i].id)
  }

  /** The ids of one markup rule, in document order. */
  function RuleIds(x: XmlRule): seq<NString> {
    [x.id]
    + (if x.conditions.None? then [] else ConditionIds(x.conditions.value))
    + (if x.actions.None? then [] else ActionIds(x.actions.value))
  }

  /** The ids of all markup rules, in document order. */
  function AllIds(xs: seq<XmlRule>): seq<NString> {
    if xs == [] then [] else AllIds(xs[..|xs| - 1]) + RuleIds(xs[|xs| - 1])
  }

  /** A rule's markup carries its ids in the order given. */
  lemma RuleIdsInOrder(r: Rule, ids: seq<string>)
    requires |ids| == IdCount(r)
    ensures RuleIds(EncodeRule(r, ids)) == Somes(ids)
  {
    var c := |r.conditions|;
    var x := EncodeRule(r, ids);
    var cids, aids := ConditionIds(x.conditions.value), ActionIds(x.actions.value);
    assert cids == Somes(ids[1..1 + c]);
    assert aids == Somes(ids[1 + c..]);
    assert Somes(ids) == [Some(ids[0])] + Somes(ids[1..1 + c]) + Somes(ids[1 + c..]);
  }

  /** Each id given to the encoder lands on exactly one rule, condition or action, in order. */
  lemma {:induction false} EncodedIds(rs: seq<Rule>, ids: seq<string>)
    requires |ids| == IdsFor(rs)
    ensures AllIds(EncodeRules(rs, ids)) == Somes(ids)
  {
    if rs != [] {
      var n := |rs| - 1;
      var m := IdsFor(rs[..n]);
      var front, last := EncodeRules(rs[..n], ids[..m]), EncodeRule(rs[n], ids[m..]);
      var xs := EncodeRules(rs, ids);
      assert AllIds(xs) == AllIds(front) + RuleIds(last) by {
        assert xs == front + [last];
        assert xs[..|xs| - 1] == front;
      }
      assert AllIds(front) == Somes(ids[..m]) by {
        EncodedIds(rs[..n], ids[..m]);
      }
      assert RuleIds(last) == Somes(ids[m..]) by {
        RuleIdsInOrder(rs[n], ids[m..]);
      }
      SomesAppend(ids, m);
    }
  }

  /** No two rules, conditions or actions of an annotation built by makeAnnotationData share an id. */
  lemma AnnotationIdsDistinct(rules: RuleSet, k: nat)
    ensures var ids := AllIds(Encode(rules, Run(UUID, k, IdsFor(rules.rules))).rules.value);
      |ids| == IdsFor(rules.rules) &&
      (forall i :: 0 <= i < |ids| ==> ids[i].Some?) &&
      (forall i, j :: 0 <= i < j < |ids| ==> ids[i] != ids[j])
  {
    var run := Run(UUID, k, IdsFor(rules.rules));
    EncodedIds(rules.rules, run);
    RunDistinct(UUID, k, IdsFor(rules.rules));
  }
}
