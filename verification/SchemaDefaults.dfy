/** Schema.Validate's cycle check and ApplyDefaults. */
module SchemaDefaults {
  import opened Visibility
  import J = CanonicalJson

  /** The references of the field called `key`. */
  function Dependencies(s: Schema, key: string): seq<string> {
    if s == [] then [] else if s[0].key == key then FieldReferences(s[0]) else Dependencies(s[1..], key)
  }

  lemma {:induction false} DependenciesAreEdges(s: Schema, key: string)
    requires UniqueKeys(s)
    ensures forall l :: l in Dependencies(s, key) <==> Edge(s, key, l)
  {
    if s != [] {
      DependenciesAreEdges(s[1..], key);
      forall l ensures l in Dependencies(s, key) <==> Edge(s, key, l) {
        assert Edge(s[1..], key, l) ==> Edge(s, key, l) by {
          if i :| 0 <= i < |s| - 1 && s[1..][i].key == key && l in FieldReferences(s[1..][i]) { assert s[i + 1] == s[1..][i]; }
        }
        if i :| 0 <= i < |s| && s[i].key == key && l in FieldReferences(s[i]) {
          if i > 0 { assert s[1..][i - 1] == s[i]; }
        }
      }
    }
  }

  /** Every name in the graph: field keys and what they mention. */
  function Names(s: Schema): set<string> {
    (set i | 0 <= i < |s| :: s[i].key) + (set i, l | 0 <= i < |s| && l in FieldReferences(s[i]) :: l)
  }

  function Elements(p: seq<string>): set<string> { set k | k in p }

  lemma PathExtends(s: Schema, p: seq<string>, k: string, l: string)
    requires Path(s, p + [k]) && Edge(s, k, l)
    ensures Path(s, p + [k] + [l])
  {
    var q := p + [k] + [l];
    forall i | 0 <= i < |q| - 1 ensures Edge(s, q[i], q[i + 1]) {
      if i < |p| { assert Edge(s, (p + [k])[i], (p + [k])[i + 1]); }
    }
  }

  lemma RankExtends(s: Schema, order: seq<string>, k: string)
    requires Ranked(s, order) && k !in order && forall l | Edge(s, k, l) :: l in order
    ensures Ranked(s, order + [k])
  {
    var o := order + [k];
    forall i, l | 0 <= i < |o| && Edge(s, o[i], l) ensures l in o[..i] {
      if i < |order| { assert o[..i] == order[..i]; } else { assert o[..i] == order; }
    }
  }

  /** The depth-first search of Schema.Validate. */
  class CycleCheck {
    var visiting: set<string>
    var visited: set<string>

    constructor ()
      ensures visiting == {} && visited == {}
    {
      visiting, visited := {}, {};
    }

    /** False exactly when the search closes a cycle. The path leads from the root of
        the search to `key`; `order` lists what has been visited. */
    method Visit(s: Schema, key: string, ghost path: seq<string>, ghost order: seq<string>)
      returns (ok: bool, ghost finished: seq<string>, ghost cycle: seq<string>)
      requires UniqueKeys(s) && key in Names(s) && Path(s, path + [key])
      requires Elements(path) == visiting <= Names(s) && Elements(order) == visited && visiting !! visited && Ranked(s, order)
      modifies this
      ensures ok ==> visiting == old(visiting) && visiting !! visited && Elements(finished) == visited
      ensures ok ==> Ranked(s, finished) && old(visited) <= visited && key in visited
      ensures !ok ==> Cycle(s, cycle)
      decreases Names(s) - visiting
    {
      finished, cycle := order, [];
      if key in visiting {
        ghost var i :| 0 <= i < |path| && path[i] == key;
        cycle := path[i..] + [key];
        forall j | 0 <= j < |cycle| - 1 ensures Edge(s, cycle[j], cycle[j + 1]) {
          assert Edge(s, (path + [key])[i + j], (path + [key])[i + j + 1]);
        }
        return false, finished, cycle;
      }
      if key in visited { return true, finished, cycle; }
      visiting := visiting + {key};
      var dependencies := Dependencies(s, key);
      DependenciesAreEdges(s, key);
      assert Elements(path + [key]) == visiting;
      for i := 0 to |dependencies|
        invariant visiting == old(visiting) + {key} && Elements(path + [key]) == visiting && visiting !! visited
        invariant Elements(finished) == visited && Ranked(s, finished) && old(visited) <= visited
        invariant forall j | 0 <= j < i :: dependencies[j] in visited
      {
        var dep := dependencies[i];
        assert Edge(s, key, dep);
        PathExtends(s, path, key, dep);
        var found;
        found, finished, cycle := Visit(s, dep, path + [key], finished);
        if !found { return false, finished, cycle; }
      }
      RankExtends(s, finished, key);
      visiting := visiting - {key};
      visited := visited + {key};
      finished := finished + [key];
      return true, finished, cycle;
    }
  }

  /** The condition part of Schema.Validate: it accepts exactly the schemas whose
      references are in order and whose visibility graph has no cycle. */
  method Validate(s: Schema) returns (ok: bool)
    ensures ok <==> Valid(s)
  {
    if !ReferencesOk(s) { return false; }
    var check := new CycleCheck();
    ghost var order: seq<string> := [];
    for i := 0 to |s|
      invariant check.visiting == {} && Elements(order) == check.visited && Ranked(s, order)
      invariant forall j | 0 <= j < i :: s[j].key in check.visited
    {
      var found;
      ghost var cycle;
      found, order, cycle := check.Visit(s, s[i].key, [], order);
      if !found { return false; }
    }
    assert forall i | 0 <= i < |s| :: s[i].key in order;
    RankedIsAcyclic(s, order);
    return true;
  }

  // Defaults ----------------------------------------------------------------------------

  /** IsVisible on a valid schema; None is an error. */
  function Visible(f: Field, values: Values, truthy: J.Value -> bool): Option<bool> {
    if f.visibleWhen == None then Some(true) else Evaluate(f.visibleWhen.value, values, truthy)
  }

  /** What ApplyDefaults promises: the input, plus each default that is not supplied
      and whose field is visible in the result itself, and nothing else. */
  ghost predicate Fixpoint(s: Schema, values: Values, r: Values, truthy: J.Value -> bool) {
    && (forall k | k in values :: k in r && r[k] == values[k])
    && (forall k | k in r && k !in values :: Defaulted(s, k, r[k]))
    && (forall i | 0 <= i < |s| && s[i].fallback.Some? && s[i].key !in values ::
          s[i].key in r <==> Visible(s[i], r, truthy) == Some(true))
  }

  ghost predicate Defaulted(s: Schema, k: string, raw: Raw) {
    exists i | 0 <= i < |s| :: s[i].key == k && s[i].fallback.Some? && raw == Json(s[i].fallback.value)
  }

  function Keys(fields: seq<Field>): seq<string> { seq(|fields|, i requires 0 <= i < |fields| => fields[i].key) }

  function FieldCalled(s: Schema, key: string): Option<Field> {
    if s == [] then None else if s[0].key == key then Some(s[0]) else FieldCalled(s[1..], key)
  }

  lemma {:induction false} FieldCalledIs(s: Schema, key: string)
    ensures match FieldCalled(s, key)
      case None => forall i | 0 <= i < |s| :: s[i].key != key
      case Some(f) => f in s && f.key == key
  {
    if s != [] && s[0].key != key {
      FieldCalledIs(s[1..], key);
      if FieldCalled(s, key) == None {
        forall i | 0 <= i < |s| ensures s[i].key != key { if i > 0 { assert s[1..][i - 1] == s[i]; } }
      }
    }
  }

  /** Fields in dependency order: each after the fields that it mentions. */
  ghost predicate Sorted(s: Schema, ordered: seq<Field>) {
    && (forall i | 0 <= i < |ordered| :: ordered[i] in s)
    && (forall i, j | 0 <= i < j < |ordered| :: ordered[i].key != ordered[j].key)
    && (forall i, j, l | 0 <= i < |ordered| && 0 <= j < |s| && s[j].key == l && l in FieldReferences(ordered[i]) ::
          exists m | 0 <= m < i :: ordered[m].key == l)
  }

  /** The dependency order that ApplyDefaults computes by depth-first search. */
  class DependencyOrder {
    var visited: set<string>
    var ordered: seq<Field>

    constructor ()
      ensures visited == {} && ordered == []
    {
      visited, ordered := {}, [];
    }

    /** Visited is what has been ordered and what is on the stack of the search. */
    ghost predicate Searching(s: Schema, stack: seq<string>)
      reads this
    {
      && Sorted(s, ordered) && visited == Elements(Keys(ordered)) + Elements(stack)
      && Elements(Keys(ordered)) !! Elements(stack) && visited <= Names(s)
    }

    method Add(s: Schema, field: Field, ghost stack: seq<string>)
      requires UniqueKeys(s) && Acyclic(s) && field in s && Path(s, stack + [field.key]) && Searching(s, stack)
      modifies this
      ensures Searching(s, stack) && old(ordered) <= ordered && field.key in Keys(ordered) && old(visited) <= visited
      decreases Names(s) - visited, 0
    {
      StackIsNoCycle(s, stack, field.key);
      if field.key in visited { return; }
      visited := visited + {field.key};
      assert Elements(stack + [field.key]) == Elements(stack) + {field.key};
      AddDependencies(s, field, stack);
      SortedExtends(s, ordered, field);
      KeysExtend(ordered, field);
      ordered := ordered + [field];
      assert Elements(Keys(ordered)) + Elements(stack) == visited;
      assert field.key in Elements(Keys(ordered));
    }

    method AddDependencies(s: Schema, field: Field, ghost stack: seq<string>)
      requires UniqueKeys(s) && Acyclic(s) && field in s && Path(s, stack + [field.key]) && Searching(s, stack + [field.key])
      modifies this
      ensures Searching(s, stack + [field.key]) && old(ordered) <= ordered && old(visited) <= visited
      ensures forall l | l in FieldReferences(field) && FieldCalled(s, l).Some? :: l in Keys(ordered)
      decreases Names(s) - visited, 2
    {
      var refs := FieldReferences(field);
      for i := 0 to |refs|
        invariant Searching(s, stack + [field.key]) && old(ordered) <= ordered && old(visited) <= visited
        invariant forall j | 0 <= j < i && FieldCalled(s, refs[j]).Some? :: refs[j] in Keys(ordered)
      {
        ghost var before := ordered;
        AddDependency(s, field, refs[i], stack);
        KeysGrow(before, ordered);
      }
    }

    /** One round of the loop: the field that one reference names, if there is one. */
    method AddDependency(s: Schema, field: Field, name: string, ghost stack: seq<string>)
      requires UniqueKeys(s) && Acyclic(s) && field in s && name in FieldReferences(field)
      requires Path(s, stack + [field.key]) && Searching(s, stack + [field.key])
      modifies this
      ensures Searching(s, stack + [field.key]) && old(ordered) <= ordered && old(visited) <= visited
      ensures FieldCalled(s, name).Some? ==> name in Keys(ordered)
      decreases Names(s) - visited, 1
    {
      var dep := FieldCalled(s, name);
      FieldCalledIs(s, name);
      if dep.Some? {
        FieldIsEdge(s, field, name);
        PathExtends(s, stack, field.key, name);
        Add(s, dep.value, stack + [field.key]);
      }
    }
  }

  lemma FieldIsEdge(s: Schema, f: Field, l: string)
    requires f in s && l in FieldReferences(f)
    ensures Edge(s, f.key, l)
  {
  }

  lemma KeysGrow(a: seq<Field>, b: seq<Field>)
    requires a <= b
    ensures forall k | k in Keys(a) :: k in Keys(b)
  {
    forall k | k in Keys(a) ensures k in Keys(b) {
      var i :| 0 <= i < |a| && Keys(a)[i] == k;
      assert Keys(b)[i] == k;
    }
  }

  lemma StackIsNoCycle(s: Schema, stack: seq<string>, k: string)
    requires Acyclic(s) && Path(s, stack + [k])
    ensures k !in stack
  {
    if i :| 0 <= i < |stack| && stack[i] == k {
      var cycle := stack[i..] + [k];
      forall j | 0 <= j < |cycle| - 1 ensures Edge(s, cycle[j], cycle[j + 1]) {
        assert Edge(s, (stack + [k])[i + j], (stack + [k])[i + j + 1]);
      }
      assert Cycle(s, cycle);
    }
  }

  lemma KeysExtend(ordered: seq<Field>, f: Field)
    ensures Elements(Keys(ordered + [f])) == Elements(Keys(ordered)) + {f.key}
  {
    var more := ordered + [f];
    forall k ensures k in Elements(Keys(more)) <==> k in Elements(Keys(ordered)) || k == f.key {
      if k in Keys(ordered) {
        var i :| 0 <= i < |ordered| && Keys(ordered)[i] == k;
        assert Keys(more)[i] == k;
      }
      if k == f.key { assert Keys(more)[|ordered|] == k; }
      if k in Keys(more) {
        var i :| 0 <= i < |more| && Keys(more)[i] == k;
        if i < |ordered| { assert Keys(ordered)[i] == k; }
      }
    }
  }

  lemma SortedExtends(s: Schema, ordered: seq<Field>, f: Field)
    requires Sorted(s, ordered) && f in s && f.key !in Elements(Keys(ordered))
    requires forall l | l in FieldReferences(f) && FieldCalled(s, l).Some? :: l in Keys(ordered)
    ensures Sorted(s, ordered + [f])
  {
    var more := ordered + [f];
    forall i | 0 <= i < |ordered| ensures ordered[i].key != f.key {
      assert Keys(ordered)[i] == ordered[i].key;
    }
    forall i, j, l | 0 <= i < |more| && 0 <= j < |s| && s[j].key == l && l in FieldReferences(more[i])
      ensures exists m | 0 <= m < i :: more[m].key == l
    {
      if i < |ordered| {
        var m :| 0 <= m < i && ordered[m].key == l;
        assert more[m].key == l;
      } else {
        FieldCalledIs(s, l);
        var m :| 0 <= m < |ordered| && Keys(ordered)[m] == l;
        assert more[m].key == l;
      }
    }
  }

  /** All fields, in dependency order. */
  method Ordered(s: Schema) returns (ordered: seq<Field>)
    requires UniqueKeys(s) && Acyclic(s)
    ensures Sorted(s, ordered) && forall i | 0 <= i < |s| :: s[i].key in Keys(ordered)
  {
    var search := new DependencyOrder();
    assert Elements(Keys(search.ordered)) == {} && Elements([]) == {};
    for i := 0 to |s|
      invariant search.Searching(s, [])
      invariant forall j | 0 <= j < i :: s[j].key in Keys(search.ordered)
    {
      ghost var before := search.ordered;
      search.Add(s, s[i], []);
      KeysGrow(before, search.ordered);
    }
    return search.ordered;
  }

  /** The result as far as the first `n` ordered fields are concerned. */
  ghost predicate SettledUpTo(s: Schema, ordered: seq<Field>, n: nat, values: Values, out: Values, truthy: J.Value -> bool)
    requires n <= |ordered|
  {
    && (forall k | k in values :: k in out && out[k] == values[k])
    && (forall k | k in out && k !in values :: Defaulted(s, k, out[k]) && exists i | 0 <= i < n :: ordered[i].key == k)
    && (forall i | 0 <= i < n && ordered[i].fallback.Some? && ordered[i].key !in values ::
          ordered[i].key in out <==> Visible(ordered[i], out, truthy) == Some(true))
  }

  /** A later default does not change an earlier field's visibility, nor its own. */
  lemma VisibilityIsSettled(s: Schema, ordered: seq<Field>, i: nat, n: nat, out: Values, raw: Raw, truthy: J.Value -> bool)
    requires Sorted(s, ordered) && i <= n < |ordered|
    ensures Visible(ordered[i], out[ordered[n].key := raw], truthy) == Visible(ordered[i], out, truthy)
  {
    var f, k := ordered[i], ordered[n].key;
    if f.visibleWhen.Some? {
      assert ordered[n] in s;
      var j :| 0 <= j < |s| && s[j] == ordered[n];
      assert k !in FieldReferences(f);
      DependsOnReferences(f.visibleWhen.value, out, out[k := raw], truthy);
    }
  }

  lemma DefaultSettles(s: Schema, ordered: seq<Field>, n: nat, values: Values, out: Values, truthy: J.Value -> bool)
    requires Sorted(s, ordered) && n < |ordered| && SettledUpTo(s, ordered, n, values, out, truthy)
    requires ordered[n].fallback.Some? && ordered[n].key !in out && Visible(ordered[n], out, truthy) == Some(true)
    ensures SettledUpTo(s, ordered, n + 1, values, out[ordered[n].key := Json(ordered[n].fallback.value)], truthy)
  {
    var f := ordered[n];
    var more := out[f.key := Json(f.fallback.value)];
    assert Defaulted(s, f.key, more[f.key]) by {
      assert f in s;
      var j :| 0 <= j < |s| && s[j] == f;
    }
    forall i | 0 <= i < n + 1 && ordered[i].fallback.Some? && ordered[i].key !in values
      ensures ordered[i].key in more <==> Visible(ordered[i], more, truthy) == Some(true)
    {
      VisibilityIsSettled(s, ordered, i, n, out, Json(f.fallback.value), truthy);
    }
  }

  lemma AllSettled(s: Schema, ordered: seq<Field>, values: Values, out: Values, truthy: J.Value -> bool)
    requires UniqueKeys(s) && Sorted(s, ordered) && SettledUpTo(s, ordered, |ordered|, values, out, truthy)
    requires forall i | 0 <= i < |s| :: s[i].key in Keys(ordered)
    ensures Fixpoint(s, values, out, truthy)
  {
    forall i | 0 <= i < |s| && s[i].fallback.Some? && s[i].key !in values
      ensures s[i].key in out <==> Visible(s[i], out, truthy) == Some(true)
    {
      var m :| 0 <= m < |ordered| && Keys(ordered)[m] == s[i].key;
      assert ordered[m] in s;
      var j :| 0 <= j < |s| && s[j] == ordered[m];
    }
  }

  /** A field with a default that was not supplied: with its default if its condition is met
      in `out`, and absent otherwise. A condition on one other field means what it says. */
  predicate Follows(f: Field, out: Values)
    requires f.fallback.Some?
  {
    && (f.key in out ==> out[f.key] == Json(f.fallback.value))
    && (f.visibleWhen == None ==> f.key in out)
    && (f.visibleWhen.Some? && f.visibleWhen.value.Equals? ==>
          var c := f.visibleWhen.value;
          f.key in out <==> c.field in out && out[c.field] != Undecodable && J.Same(out[c.field].value, c.value))
    && (f.visibleWhen.Some? && f.visibleWhen.value.NotEquals? ==>
          var c := f.visibleWhen.value;
          f.key in out <==> c.field !in out || (out[c.field] != Undecodable && !J.Same(out[c.field].value, c.value)))
  }

  lemma DefaultsFollow(s: Schema, values: Values, out: Values, truthy: J.Value -> bool, i: nat)
    requires UniqueKeys(s) && Fixpoint(s, values, out, truthy) && i < |s| && s[i].fallback.Some? && s[i].key !in values
    ensures Follows(s[i], out)
  {
    var f := s[i];
    if f.visibleWhen.Some? && f.visibleWhen.value.Equals? {
      EqualsMeans(f.visibleWhen.value.field, f.visibleWhen.value.value, out, truthy);
    } else if f.visibleWhen.Some? && f.visibleWhen.value.NotEquals? {
      NotEqualsMeans(f.visibleWhen.value.field, f.visibleWhen.value.value, out, truthy);
    }
  }

  /** ApplyDefaults. On an invalid schema no field counts as visible, so the input
      comes back as it is. */
  method ApplyDefaults(s: Schema, values: Values, truthy: J.Value -> bool) returns (out: Values)
    ensures Valid(s) ==> Fixpoint(s, values, out, truthy) && forall r | Fixpoint(s, values, r, truthy) :: r == out
    ensures !Valid(s) ==> out == values
    ensures Valid(s) ==> forall i | 0 <= i < |s| && s[i].fallback.Some? && s[i].key !in values :: Follows(s[i], out)
  {
    out := values;
    var valid := Validate(s);
    if !valid { return; }
    var ordered := Ordered(s);
    for n := 0 to |ordered|
      invariant SettledUpTo(s, ordered, n, values, out, truthy)
    {
      var field := ordered[n];
      if field.fallback == None { continue; }
      if field.key in out { continue; }
      if Visible(field, out, truthy) == Some(true) {
        DefaultSettles(s, ordered, n, values, out, truthy);
        out := out[field.key := Json(field.fallback.value)];
      }
    }
    AllSettled(s, ordered, values, out, truthy);
    forall i | 0 <= i < |s| && s[i].fallback.Some? && s[i].key !in values ensures Follows(s[i], out) {
      DefaultsFollow(s, values, out, truthy, i);
    }
    forall r | Fixpoint(s, values, r, truthy) ensures r == out {
      FixpointIsUnique(s, ordered, values, r, out, truthy);
    }
  }

  // The fixpoint is unique --------------------------------------------------------------------

  /** Two fixpoints agree on the fields of a dependency order, first to last. */
  lemma {:induction false} FixpointsAgreeUpTo(s: Schema, ordered: seq<Field>, n: nat, values: Values, r: Values, t: Values, truthy: J.Value -> bool)
    requires UniqueKeys(s) && Sorted(s, ordered) && n <= |ordered|
    requires Fixpoint(s, values, r, truthy) && Fixpoint(s, values, t, truthy)
    ensures forall i | 0 <= i < n :: (ordered[i].key in r <==> ordered[i].key in t)
  {
    if n > 0 {
      FixpointsAgreeUpTo(s, ordered, n - 1, values, r, t, truthy);
      var f := ordered[n - 1];
      assert f in s;
      var j :| 0 <= j < |s| && s[j] == f;
      if f.key !in values {
        if f.fallback.Some? {
          if f.visibleWhen.Some? {
            forall l | l in FieldReferences(f) ensures (l in r <==> l in t) && (l in r ==> r[l] == t[l]) {
              ReferenceAgrees(s, ordered, n - 1, values, r, t, truthy, l);
            }
            DependsOnReferences(f.visibleWhen.value, r, t, truthy);
          }
        } else {
          NoDefault(s, f, values, r, truthy);
          NoDefault(s, f, values, t, truthy);
        }
      }
    }
  }

  lemma NoDefault(s: Schema, f: Field, values: Values, r: Values, truthy: J.Value -> bool)
    requires UniqueKeys(s) && f in s && f.fallback == None && f.key !in values && Fixpoint(s, values, r, truthy)
    ensures f.key !in r
  {
    var j :| 0 <= j < |s| && s[j] == f;
    assert forall i | 0 <= i < |s| && s[i].key == f.key :: i == j;
  }

  lemma ReferenceAgrees(s: Schema, ordered: seq<Field>, i: nat, values: Values, r: Values, t: Values, truthy: J.Value -> bool, l: string)
    requires UniqueKeys(s) && Sorted(s, ordered) && i < |ordered| && l in FieldReferences(ordered[i])
    requires Fixpoint(s, values, r, truthy) && Fixpoint(s, values, t, truthy)
    requires forall m | 0 <= m < i :: (ordered[m].key in r <==> ordered[m].key in t)
    ensures (l in r <==> l in t) && (l in r ==> r[l] == t[l])
  {
    if l !in values {
      if j :| 0 <= j < |s| && s[j].key == l {
        var m :| 0 <= m < i && ordered[m].key == l;
      }
      if l in r && l in t { DefaultsAgree(s, values, r, t, truthy, l); }
    }
  }

  lemma DefaultsAgree(s: Schema, values: Values, r: Values, t: Values, truthy: J.Value -> bool, l: string)
    requires UniqueKeys(s) && Fixpoint(s, values, r, truthy) && Fixpoint(s, values, t, truthy) && l in r && l in t
    ensures r[l] == t[l]
  {
    if l !in values {
      var i :| 0 <= i < |s| && s[i].key == l && s[i].fallback.Some? && r[l] == Json(s[i].fallback.value);
      var j :| 0 <= j < |s| && s[j].key == l && s[j].fallback.Some? && t[l] == Json(s[j].fallback.value);
      assert i == j;
    }
  }

  /** There is only one such map. */
  lemma FixpointIsUnique(s: Schema, ordered: seq<Field>, values: Values, r: Values, t: Values, truthy: J.Value -> bool)
    requires UniqueKeys(s) && Sorted(s, ordered) && forall i | 0 <= i < |s| :: s[i].key in Keys(ordered)
    requires Fixpoint(s, values, r, truthy) && Fixpoint(s, values, t, truthy)
    ensures r == t
  {
    FixpointsAgreeUpTo(s, ordered, |ordered|, values, r, t, truthy);
    forall k ensures k in r <==> k in t {
      if k !in values && (k in r || k in t) {
        var i :| 0 <= i < |s| && s[i].key == k;
        var m :| 0 <= m < |ordered| && Keys(ordered)[m] == k;
      }
    }
    forall k | k in r ensures r[k] == t[k] { DefaultsAgree(s, values, r, t, truthy, k); }
  }

  /** Filling in defaults again changes nothing. */
  lemma Idempotent(s: Schema, values: Values, r: Values, truthy: J.Value -> bool)
    requires Fixpoint(s, values, r, truthy)
    ensures Fixpoint(s, r, r, truthy)
  {
    forall i | 0 <= i < |s| && s[i].fallback.Some? && s[i].key !in r
      ensures Visible(s[i], r, truthy) != Some(true)
    {
    }
  }

  /** Nor does the order in which the schema lists its fields matter. */
  lemma OrderIndependent(s: Schema, u: Schema, values: Values, r: Values, truthy: J.Value -> bool)
    requires forall f :: f in s <==> f in u
    requires Fixpoint(s, values, r, truthy)
    ensures Fixpoint(u, values, r, truthy)
  {
    forall k | k in r && k !in values ensures Defaulted(u, k, r[k]) {
      var i :| 0 <= i < |s| && s[i].key == k && s[i].fallback.Some? && r[k] == Json(s[i].fallback.value);
      assert s[i] in u;
    }
    forall i | 0 <= i < |u| && u[i].fallback.Some? && u[i].key !in values
      ensures u[i].key in r <==> Visible(u[i], r, truthy) == Some(true)
    {
      assert u[i] in s;
    }
  }

  lemma SameEdges(s: Schema, u: Schema, k: string, l: string)
    requires forall f :: f in s <==> f in u
    ensures Edge(s, k, l) <==> Edge(u, k, l)
  {
    if i :| 0 <= i < |s| && s[i].key == k && l in FieldReferences(s[i]) {
      assert s[i] in u;
      var j :| 0 <= j < |u| && u[j] == s[i];
    }
    if i :| 0 <= i < |u| && u[i].key == k && l in FieldReferences(u[i]) {
      assert u[i] in s;
      var j :| 0 <= j < |s| && s[j] == u[i];
    }
  }

  /** A reordered schema is accepted as well. */
  lemma ValidityIsOrderIndependent(s: Schema, u: Schema)
    requires Valid(s) && UniqueKeys(u) && forall f :: f in s <==> f in u
    ensures Valid(u)
  {
    forall i | 0 <= i < |u| && u[i].visibleWhen.Some?
      ensures Shallow(u[i].visibleWhen.value, 0) && Nodes(u[i].visibleWhen.value) <= MAX_NODES
      ensures forall l | l in FieldReferences(u[i]) :: Refers(u, l) && l != u[i].key
    {
      assert u[i] in s;
      var j :| 0 <= j < |s| && s[j] == u[i];
      forall l | l in FieldReferences(u[i]) ensures Refers(u, l) {
        assert Refers(s, l);
        var m :| 0 <= m < |s| && s[m].key == l && s[m].referable;
        assert s[m] in u;
      }
    }
    forall p ensures !Cycle(u, p) {
      assert !Cycle(s, p);
      forall i | 0 <= i < |p| - 1 ensures Edge(s, p[i], p[i + 1]) <==> Edge(u, p[i], p[i + 1]) { SameEdges(s, u, p[i], p[i + 1]); }
    }
  }
}
