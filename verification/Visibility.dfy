/** Visibility conditions of a schema and what they depend on. */
module Visibility {
  import J = CanonicalJson

  const MAX_DEPTH := 32
  const MAX_NODES := 2048

  datatype Condition =
    | All(children: seq<Condition>)
    | AnyOf(children: seq<Condition>)
    | Equals(field: string, value: J.Value)
    | NotEquals(field: string, value: J.Value)
    | Truthy(field: string, wanted: bool)

  datatype Option<+T> = None | Some(value: T)

  /** One configuration field. `referable` is false for action, status and secret
      controls; the checks that concern a field alone are its own business. */
  datatype Field = Field(key: string, referable: bool, fallback: Option<J.Value>, visibleWhen: Option<Condition>)

  /** Configuration values. An entry that is not valid JSON is kept as Undecodable. */
  datatype Raw = Undecodable | Json(value: J.Value)

  type Values = map<string, Raw>

  /** conditionReferences: the fields a condition mentions, in order. */
  function References(c: Condition): seq<string> {
    match c
    case All(children) => ReferencesOf(children)
    case AnyOf(children) => ReferencesOf(children)
    case Equals(f, _) => [f]
    case NotEquals(f, _) => [f]
    case Truthy(f, _) => [f]
  }

  function ReferencesOf(cs: seq<Condition>): seq<string> {
    if cs == [] then [] else References(cs[0]) + ReferencesOf(cs[1..])
  }

  function Nodes(c: Condition): nat {
    match c
    case All(children) => 1 + NodesOf(children)
    case AnyOf(children) => 1 + NodesOf(children)
    case _ => 1
  }

  function NodesOf(cs: seq<Condition>): nat { if cs == [] then 0 else Nodes(cs[0]) + NodesOf(cs[1..]) }

  /** Within the depth limit, and no empty list of conditions. */
  predicate Shallow(c: Condition, depth: nat) {
    depth <= MAX_DEPTH &&
    match c
    case All(children) => children != [] && AllShallow(children, depth + 1)
    case AnyOf(children) => children != [] && AllShallow(children, depth + 1)
    case _ => true
  }

  predicate AllShallow(cs: seq<Condition>, depth: nat) { cs == [] || (Shallow(cs[0], depth) && AllShallow(cs[1..], depth)) }

  /** evaluateCondition; None is an error. `truthy` is jsonTruthy, which rounds
      numbers to floating point and is not part of this model. */
  function Evaluate(c: Condition, values: Values, truthy: J.Value -> bool): Option<bool> {
    match c
    case All(children) => EvaluateAll(children, values, truthy)
    case AnyOf(children) => EvaluateAny(children, values, truthy)
    case Equals(f, expected) =>
      if f !in values then Some(false)
      else if values[f].Undecodable? then None
      else Some(J.Canon(values[f].value) == J.Canon(expected))
    case NotEquals(f, expected) =>
      if f !in values then Some(true)
      else if values[f].Undecodable? then None
      else Some(J.Canon(values[f].value) != J.Canon(expected))
    case Truthy(f, wanted) => Some((f in values && values[f].Json? && truthy(values[f].value)) == wanted)
  }

  function EvaluateAll(cs: seq<Condition>, values: Values, truthy: J.Value -> bool): Option<bool> {
    if cs == [] then Some(true)
    else
      var first := Evaluate(cs[0], values, truthy);
      if first == Some(true) then EvaluateAll(cs[1..], values, truthy) else first
  }

  function EvaluateAny(cs: seq<Condition>, values: Values, truthy: J.Value -> bool): Option<bool> {
    if cs == [] then Some(false)
    else
      var first := Evaluate(cs[0], values, truthy);
      if first == Some(false) then EvaluateAny(cs[1..], values, truthy) else first
  }

  // What conditions mean ---------------------------------------------------------------------

  /** An absent field equals nothing, and what cannot be decoded is an error. */
  lemma EqualsMeans(f: string, expected: J.Value, values: Values, truthy: J.Value -> bool)
    ensures var r := Evaluate(Equals(f, expected), values, truthy);
      && (r == None <==> f in values && values[f] == Undecodable)
      && (r == Some(true) <==> f in values && values[f] != Undecodable && J.Same(values[f].value, expected))
  {
    if f in values && values[f].Json? { J.CanonicalDecidesEquality(values[f].value, expected); }
  }

  /** The negation, error aside: an absent field differs from everything. */
  lemma NotEqualsMeans(f: string, expected: J.Value, values: Values, truthy: J.Value -> bool)
    ensures var r := Evaluate(NotEquals(f, expected), values, truthy);
      && (r == None <==> f in values && values[f] == Undecodable)
      && (r == Some(true) <==> f !in values || (values[f] != Undecodable && !J.Same(values[f].value, expected)))
  {
    if f in values && values[f].Json? { J.CanonicalDecidesEquality(values[f].value, expected); }
  }

  /** An absent field and one that cannot be decoded are not truthy, and never an error. */
  lemma TruthyMeans(f: string, wanted: bool, values: Values, truthy: J.Value -> bool)
    ensures Evaluate(Truthy(f, wanted), values, truthy)
         == Some(if f in values && values[f] != Undecodable && truthy(values[f].value) then wanted else !wanted)
  {
  }

  /** The first child with another result than `passed`. */
  predicate FirstOther(children: seq<Condition>, values: Values, truthy: J.Value -> bool, passed: bool, i: nat) {
    && i < |children| && Evaluate(children[i], values, truthy) != Some(passed)
    && forall j | 0 <= j < i :: Evaluate(children[j], values, truthy) == Some(passed)
  }

  lemma NextOther(children: seq<Condition>, values: Values, truthy: J.Value -> bool, passed: bool, i: nat)
    requires children != [] && Evaluate(children[0], values, truthy) == Some(passed)
    requires FirstOther(children[1..], values, truthy, passed, i)
    ensures FirstOther(children, values, truthy, passed, i + 1)
  {
    forall j | 0 <= j < i + 1 ensures Evaluate(children[j], values, truthy) == Some(passed) {
      if j > 0 { assert children[1..][j - 1] == children[j]; }
    }
  }

  /** True iff every child is; otherwise the first child that is not true decides. */
  lemma {:induction false} AllMeans(children: seq<Condition>, values: Values, truthy: J.Value -> bool)
    ensures var r := Evaluate(All(children), values, truthy);
      if forall i | 0 <= i < |children| :: Evaluate(children[i], values, truthy) == Some(true) then r == Some(true)
      else exists i: nat :: FirstOther(children, values, truthy, true, i) && r == Evaluate(children[i], values, truthy)
    decreases |children|
  {
    if children != [] {
      AllMeans(children[1..], values, truthy);
      assert Evaluate(All(children[1..]), values, truthy) == EvaluateAll(children[1..], values, truthy);
      if Evaluate(children[0], values, truthy) != Some(true) {
        assert FirstOther(children, values, truthy, true, 0);
      } else if i: nat :| FirstOther(children[1..], values, truthy, true, i) {
        NextOther(children, values, truthy, true, i);
      }
    }
  }

  /** False iff every child is; otherwise the first child that is not false decides. */
  lemma {:induction false} AnyMeans(children: seq<Condition>, values: Values, truthy: J.Value -> bool)
    ensures var r := Evaluate(AnyOf(children), values, truthy);
      if forall i | 0 <= i < |children| :: Evaluate(children[i], values, truthy) == Some(false) then r == Some(false)
      else exists i: nat :: FirstOther(children, values, truthy, false, i) && r == Evaluate(children[i], values, truthy)
    decreases |children|
  {
    if children != [] {
      AnyMeans(children[1..], values, truthy);
      assert Evaluate(AnyOf(children[1..]), values, truthy) == EvaluateAny(children[1..], values, truthy);
      if Evaluate(children[0], values, truthy) != Some(false) {
        assert FirstOther(children, values, truthy, false, 0);
      } else if i: nat :| FirstOther(children[1..], values, truthy, false, i) {
        NextOther(children, values, truthy, false, i);
      }
    }
  }

  /** Two sets of values that agree on these fields. */
  predicate Agree(v: Values, w: Values, fields: seq<string>) {
    forall f | f in fields :: (f in v <==> f in w) && (f in v ==> v[f] == w[f])
  }

  /** A condition depends on nothing but the fields it references. */
  lemma {:induction false} DependsOnReferences(c: Condition, v: Values, w: Values, truthy: J.Value -> bool)
    requires Agree(v, w, References(c))
    ensures Evaluate(c, v, truthy) == Evaluate(c, w, truthy)
    decreases c
  {
    match c
    case All(children) => AllDependOnReferences(children, v, w, truthy);
    case AnyOf(children) => AllDependOnReferences(children, v, w, truthy);
    case Equals(f, _) => assert f in References(c);
    case NotEquals(f, _) => assert f in References(c);
    case Truthy(f, _) => assert f in References(c);
  }

  lemma {:induction false} AllDependOnReferences(cs: seq<Condition>, v: Values, w: Values, truthy: J.Value -> bool)
    requires Agree(v, w, ReferencesOf(cs))
    ensures EvaluateAll(cs, v, truthy) == EvaluateAll(cs, w, truthy)
    ensures EvaluateAny(cs, v, truthy) == EvaluateAny(cs, w, truthy)
    decreases cs
  {
    if cs != [] {
      DependsOnReferences(cs[0], v, w, truthy);
      AllDependOnReferences(cs[1..], v, w, truthy);
    }
  }

  type Schema = seq<Field>

  function FieldReferences(f: Field): seq<string> {
    if f.visibleWhen == None then [] else References(f.visibleWhen.value)
  }

  /** The visibility graph has an edge from a field to each field it mentions. */
  predicate Edge(s: Schema, k: string, l: string) {
    exists i | 0 <= i < |s| :: s[i].key == k && l in FieldReferences(s[i])
  }

  predicate Path(s: Schema, p: seq<string>) {
    forall i | 0 <= i < |p| - 1 :: Edge(s, p[i], p[i + 1])
  }

  /** A walk of at least one edge back to where it started. */
  predicate Cycle(s: Schema, p: seq<string>) {
    |p| > 1 && Path(s, p) && p[0] == p[|p| - 1]
  }

  ghost predicate Acyclic(s: Schema) { forall p :: !Cycle(s, p) }

  predicate UniqueKeys(s: Schema) { forall i, j | 0 <= i < j < |s| :: s[i].key != s[j].key }

  predicate Refers(s: Schema, l: string) { exists i | 0 <= i < |s| :: s[i].key == l && s[i].referable }

  /** The checks of Schema.Validate on conditions, before the cycle check. */
  predicate ReferencesOk(s: Schema) {
    && UniqueKeys(s)
    && forall i | 0 <= i < |s| && s[i].visibleWhen.Some? ::
         && Shallow(s[i].visibleWhen.value, 0) && Nodes(s[i].visibleWhen.value) <= MAX_NODES
         && forall l | l in FieldReferences(s[i]) :: Refers(s, l) && l != s[i].key
  }

  // The limits on conditions -----------------------------------------------------------------

  /** Every condition in the tree, the outermost first. */
  function Conditions(c: Condition): seq<Condition> {
    match c
    case All(children) => [c] + ConditionsOf(children)
    case AnyOf(children) => [c] + ConditionsOf(children)
    case _ => [c]
  }

  function ConditionsOf(cs: seq<Condition>): seq<Condition> { if cs == [] then [] else Conditions(cs[0]) + ConditionsOf(cs[1..]) }

  /** How many lists a condition has around its innermost one. */
  function Depth(c: Condition): nat {
    match c
    case All(children) => 1 + DepthOf(children)
    case AnyOf(children) => 1 + DepthOf(children)
    case _ => 0
  }

  function DepthOf(cs: seq<Condition>): nat {
    if cs == [] then 0
    else if Depth(cs[0]) < DepthOf(cs[1..]) then DepthOf(cs[1..]) else Depth(cs[0])
  }

  predicate EmptyList(c: Condition) { c == All([]) || c == AnyOf([]) }

  predicate NoEmptyList(cs: seq<Condition>) { forall i | 0 <= i < |cs| :: !EmptyList(cs[i]) }

  lemma {:induction false} NoEmptyListIn(a: seq<Condition>, b: seq<Condition>)
    ensures NoEmptyList(a + b) <==> NoEmptyList(a) && NoEmptyList(b)
  {
    if NoEmptyList(a + b) {
      assert forall i | 0 <= i < |a| :: a[i] == (a + b)[i];
      assert forall i | 0 <= i < |b| :: b[i] == (a + b)[|a| + i];
    }
  }

  /** A condition is accepted if its lists are nested at most 32 deep and none is empty; the
      other limit is on the number of conditions in the tree. */
  lemma {:induction false} LimitsMean(c: Condition, depth: nat)
    ensures Shallow(c, depth) <==> depth + Depth(c) <= 32 && NoEmptyList(Conditions(c))
    ensures Nodes(c) == |Conditions(c)|
    decreases c
  {
    match c
    case All(children) =>
      ListLimitsMean(children, depth + 1);
      NoEmptyListIn([c], ConditionsOf(children));
      assert [c][0] == c;
    case AnyOf(children) =>
      ListLimitsMean(children, depth + 1);
      NoEmptyListIn([c], ConditionsOf(children));
      assert [c][0] == c;
    case _ =>
  }

  lemma {:induction false} ListLimitsMean(cs: seq<Condition>, depth: nat)
    ensures cs != [] ==> (AllShallow(cs, depth) <==> depth + DepthOf(cs) <= 32 && NoEmptyList(ConditionsOf(cs)))
    ensures NodesOf(cs) == |ConditionsOf(cs)|
    decreases cs
  {
    if cs != [] {
      LimitsMean(cs[0], depth);
      ListLimitsMean(cs[1..], depth);
      NoEmptyListIn(Conditions(cs[0]), ConditionsOf(cs[1..]));
      assert cs[1..] == [] ==> ConditionsOf(cs[1..]) == [];
    }
  }

  /** What a schema must satisfy besides having no cycle: distinct keys, conditions within the
      limits, and references to other fields that may be referred to. */
  lemma {:induction false} ReferencesOkMeans(s: Schema)
    ensures ReferencesOk(s) <==>
      (&& UniqueKeys(s)
       && (forall i | 0 <= i < |s| && s[i].visibleWhen.Some? ::
             var c := s[i].visibleWhen.value; Depth(c) <= 32 && NoEmptyList(Conditions(c)) && |Conditions(c)| <= 2048)
       && (forall i, l | 0 <= i < |s| && l in FieldReferences(s[i]) :: l != s[i].key && exists j | 0 <= j < |s| :: s[j].key == l && s[j].referable))
  {
    forall i | 0 <= i < |s| && s[i].visibleWhen.Some?
      ensures Shallow(s[i].visibleWhen.value, 0) <==> Depth(s[i].visibleWhen.value) <= 32 && NoEmptyList(Conditions(s[i].visibleWhen.value))
      ensures Nodes(s[i].visibleWhen.value) == |Conditions(s[i].visibleWhen.value)|
    {
      LimitsMean(s[i].visibleWhen.value, 0);
    }
  }

  ghost predicate Valid(s: Schema) { ReferencesOk(s) && Acyclic(s) }

  /** Positions strictly fall along edges, so there is no way round. */
  ghost predicate Ranked(s: Schema, order: seq<string>) {
    && (forall i, j | 0 <= i < j < |order| :: order[i] != order[j])
    && (forall i, l | 0 <= i < |order| && Edge(s, order[i], l) :: l in order[..i])
  }

  lemma {:induction false} RankFalls(s: Schema, order: seq<string>, p: seq<string>, i: nat)
    requires Ranked(s, order) && Path(s, p) && p != [] && i < |order| && order[i] == p[0]
    ensures p[|p| - 1] in order[..i + 1]
    ensures |p| > 1 ==> p[|p| - 1] in order[..i]
    decreases |p|
  {
    if |p| > 1 {
      assert Edge(s, p[0], p[1]);
      var j :| 0 <= j < i && order[j] == p[1];
      assert forall k | 0 <= k < |p| - 2 :: Edge(s, p[1..][k], p[1..][k + 1]) by {
        forall k | 0 <= k < |p| - 2 ensures Edge(s, p[1..][k], p[1..][k + 1]) { assert Edge(s, p[k + 1], p[k + 2]); }
      }
      RankFalls(s, order, p[1..], j);
    }
  }

  /** A ranking of all fields rules out cycles. */
  lemma RankedIsAcyclic(s: Schema, order: seq<string>)
    requires Ranked(s, order) && forall i | 0 <= i < |s| && FieldReferences(s[i]) != [] :: s[i].key in order
    ensures Acyclic(s)
  {
    forall p ensures !Cycle(s, p) {
      if Cycle(s, p) {
        assert Edge(s, p[0], p[1]);
        var i :| 0 <= i < |order| && order[i] == p[0];
        RankFalls(s, order, p, i);
      }
    }
  }
}
