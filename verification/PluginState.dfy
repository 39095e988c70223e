/** Multi-scope writes of plugin state and configuration: all scopes or none, with
    any save failing at any point. */
module PluginState {
  type Doc = map<string, string>

  /** The values or the secrets of one scope. */
  datatype Place = Place(scope: int, secret: bool)

  datatype Document = Document(values: Doc, secrets: Doc)

  /** What a save does. A failed save may leave anything behind. */
  datatype Fate = Succeeds | Fails(left: Doc)

  /** The fate of every save, by its number. */
  type Fates = nat -> Fate

  function At(docs: map<Place, Doc>, p: Place): Doc { if p in docs then docs[p] else map[] }

  function DocumentAt(docs: map<Place, Doc>, scope: int): Document {
    Document(At(docs, Place(scope, false)), At(docs, Place(scope, true)))
  }

  /** The saves `from`, ..., `to - 1` succeed. */
  predicate AllGood(fates: Fates, from: nat, to: int) { forall i: nat | from <= i < to :: fates(i).Succeeds? }

  class Disk {
    const fates: Fates
    var docs: map<Place, Doc>
    var saves: nat

    constructor (fates: Fates, docs: map<Place, Doc>)
      ensures this.fates == fates && this.docs == docs && saves == 0
    {
      this.fates, this.docs, saves := fates, docs, 0;
    }

    method Save(p: Place, d: Doc) returns (ok: bool)
      modifies this
      ensures forall q | q != p :: At(docs, q) == At(old(docs), q)
      ensures ok ==> At(docs, p) == d
      ensures ok == fates(old(saves)).Succeeds? && saves == old(saves) + 1
    {
      var fate := fates(saves);
      saves := saves + 1;
      docs := docs[p := if fate.Fails? then fate.left else d];
      return fate.Succeeds?;
    }

    /** Both halves of one scope; the second is attempted even if the first fails. */
    method Restore(scope: int, d: Document) returns (ok: bool)
      modifies this
      ensures forall s | s != scope :: DocumentAt(docs, s) == DocumentAt(old(docs), s)
      ensures ok == AllGood(fates, old(saves), old(saves) + 2) && saves == old(saves) + 2
      ensures fates(old(saves)).Succeeds? ==> At(docs, Place(scope, false)) == d.values
      ensures fates(old(saves) + 1).Succeeds? ==> At(docs, Place(scope, true)) == d.secrets
      ensures ok ==> DocumentAt(docs, scope) == d
    {
      var first := Save(Place(scope, false), d.values);
      var second := Save(Place(scope, true), d.secrets);
      return first && second;
    }
  }

  datatype Outcome =
    | Done
    /** Refused before anything was written. */
    | Rejected
    /** A save failed and every touched scope was restored. */
    | RolledBack
    /** A save failed, and so did a restoring save. */
    | Torn

  /** The first of the next `count` saves that fails, or the one after them. */
  function FirstBad(fates: Fates, from: nat, count: nat): (k: nat)
    ensures from <= k <= from + count && AllGood(fates, from, k) && (k < from + count ==> fates(k).Fails?)
    decreases count
  {
    if count == 0 || fates(from).Fails? then from else FirstBad(fates, from + 1, count - 1)
  }

  /** The outcome of writing n scopes, two saves each: a failed save is followed by two
      restoring saves for every scope begun, and only a failure among those tears. */
  function Verdict(fates: Fates, start: nat, n: nat): Outcome {
    var k := FirstBad(fates, start, 2 * n);
    if k == start + 2 * n then Done
    else if AllGood(fates, k + 1, k + 1 + 2 * ((k - start) / 2 + 1)) then RolledBack
    else Torn
  }

  lemma {:induction false} FirstBadIs(fates: Fates, from: nat, count: nat, k: nat)
    requires from <= k <= from + count && AllGood(fates, from, k) && (k < from + count ==> fates(k).Fails?)
    ensures FirstBad(fates, from, count) == k
    decreases count
  {
    if k > from { FirstBadIs(fates, from + 1, count - 1, k); }
  }

  /** One failing save, wherever it falls, never leaves the scopes torn: that takes a failed
      write and, after it, a failed restoring save. */
  lemma TornMeansTwoFailures(fates: Fates, start: nat, n: nat)
    ensures Verdict(fates, start, n) == Torn ==> exists i: nat, j: nat | start <= i < j :: fates(i).Fails? && fates(j).Fails?
    ensures Verdict(fates, start, n) == Done <==> AllGood(fates, start, start + 2 * n)
  {
    var k := FirstBad(fates, start, 2 * n);
    if Verdict(fates, start, n) == Torn {
      var j: nat :| k + 1 <= j < k + 1 + 2 * ((k - start) / 2 + 1) && fates(j).Fails?;
      assert fates(k).Fails? && fates(j).Fails?;
    }
  }

  /** If a save fails and every later one succeeds, everything is as before. */
  lemma OneFailureRollsBack(fates: Fates, start: nat, n: nat, k: nat)
    requires start <= k < start + 2 * n && fates(k).Fails? && forall i: nat | start <= i && i != k :: fates(i).Succeeds?
    ensures Verdict(fates, start, n) == RolledBack
  {
    FirstBadIs(fates, start, 2 * n, k);
  }

  // StateService.Apply --------------------------------------------------------------------

  datatype Mutation = Mutation(
    scope: int, values: Doc, secrets: Doc, clearValues: seq<string>, clearSecrets: seq<string>, valid: bool)

  function Cleared(d: Doc, keys: seq<string>): Doc { if keys == [] then d else Cleared(d, keys[..|keys| - 1]) - {keys[|keys| - 1]} }

  /** One mutation: merge, then clear. */
  function Mutate(d: Document, m: Mutation): Document {
    Document(Cleared(d.values + m.values, m.clearValues), Cleared(d.secrets + m.secrets, m.clearSecrets))
  }

  /** All mutations of one scope, in order. */
  function Folded(d: Document, scope: int, ms: seq<Mutation>): Document {
    if ms == [] then d
    else
      var before := Folded(d, scope, ms[..|ms| - 1]);
      var m := ms[|ms| - 1];
      if m.scope == scope then Mutate(before, m) else before
  }

  predicate Touches(ms: seq<Mutation>, scope: int) { exists i | 0 <= i < |ms| :: ms[i].scope == scope }

  datatype Item = Item(scope: int, before: Document, after: Document)

  predicate Listed(items: seq<Item>, scope: int) { exists i | 0 <= i < |items| :: items[i].scope == scope }

  /** The prepared writes: one per touched scope, holding its document and the fold. */
  ghost predicate Prepares(items: seq<Item>, docs: map<Place, Doc>, ms: seq<Mutation>) {
    && (forall i, j | 0 <= i < j < |items| :: items[i].scope != items[j].scope)
    && (forall i | 0 <= i < |items| ::
          && items[i].before == DocumentAt(docs, items[i].scope)
          && items[i].after == Folded(items[i].before, items[i].scope, ms))
    && (forall s :: Touches(ms, s) <==> Listed(items, s))
  }

  lemma {:induction false} Untouched(d: Document, scope: int, ms: seq<Mutation>)
    requires !Touches(ms, scope)
    ensures Folded(d, scope, ms) == d
  {
    if ms != [] {
      var init := ms[..|ms| - 1];
      assert forall i | 0 <= i < |init| :: init[i] == ms[i];
      Untouched(d, scope, init);
    }
  }

  lemma TouchesOneMore(ms: seq<Mutation>, m: Mutation, s: int)
    ensures Touches(ms + [m], s) <==> Touches(ms, s) || s == m.scope
  {
    var all := ms + [m];
    assert all[|ms|] == m;
    if i :| 0 <= i < |ms| && ms[i].scope == s { assert all[i].scope == s; }
  }

  function Find(items: seq<Item>, scope: int): (n: nat)
    ensures n <= |items|
    ensures n < |items| ==> items[n].scope == scope
    ensures n == |items| ==> forall i | 0 <= i < |items| :: items[i].scope != scope
  {
    if items == [] then 0
    else
      var n := Find(items[..|items| - 1], scope);
      if n < |items| - 1 then n
      else if items[|items| - 1].scope == scope then |items| - 1
      else assert forall i | 0 <= i < |items| - 1 :: items[i] == items[..|items| - 1][i]; |items|
  }

  lemma FoldOneMore(d: Document, scope: int, ms: seq<Mutation>, m: Mutation)
    ensures Folded(d, scope, ms + [m]) == if m.scope == scope then Mutate(Folded(d, scope, ms), m) else Folded(d, scope, ms)
  {
    assert (ms + [m])[..|ms|] == ms;
  }

  /** The items after one more mutation. */
  function OneMore(items: seq<Item>, d: Document, m: Mutation): seq<Item> {
    var n := Find(items, m.scope);
    var more := if n < |items| then items else items + [Item(m.scope, d, d)];
    more[n := more[n].(after := Mutate(more[n].after, m))]
  }

  lemma OneMoreScopes(items: seq<Item>, d: Document, m: Mutation, s: int)
    ensures Listed(OneMore(items, d, m), s) <==> s == m.scope || Listed(items, s)
  {
    var n, r := Find(items, m.scope), OneMore(items, d, m);
    assert r[n].scope == m.scope;
    assert forall i | 0 <= i < |items| :: r[i].scope == items[i].scope;
  }

  lemma OneMoreItem(items: seq<Item>, docs: map<Place, Doc>, ms: seq<Mutation>, m: Mutation, i: nat)
    requires Prepares(items, docs, ms) && i < |OneMore(items, DocumentAt(docs, m.scope), m)|
    ensures var r := OneMore(items, DocumentAt(docs, m.scope), m)[i];
      r.before == DocumentAt(docs, r.scope) && r.after == Folded(r.before, r.scope, ms + [m])
  {
    var n, d := Find(items, m.scope), DocumentAt(docs, m.scope);
    var r := OneMore(items, d, m)[i];
    FoldOneMore(r.before, r.scope, ms, m);
    if n == |items| { Untouched(d, m.scope, ms); }
  }

  function ScopesOf(ms: seq<Mutation>): set<int> { set i | 0 <= i < |ms| :: ms[i].scope }

  lemma {:induction false} CountScopes(items: seq<Item>, scopes: set<int>)
    requires forall i, j | 0 <= i < j < |items| :: items[i].scope != items[j].scope
    requires forall s :: s in scopes <==> Listed(items, s)
    ensures |items| == |scopes|
  {
    if items != [] {
      var init, last := items[..|items| - 1], items[|items| - 1];
      assert Listed(items, last.scope);
      forall s ensures s in scopes - {last.scope} <==> Listed(init, s) {
        if Listed(init, s) {
          var i :| 0 <= i < |init| && init[i].scope == s;
          assert items[i].scope == s;
        }
        if s in scopes - {last.scope} {
          var i :| 0 <= i < |items| && items[i].scope == s;
          assert init[i].scope == s;
        }
      }
      CountScopes(init, scopes - {last.scope});
    } else {
      assert forall s :: s in scopes <==> Listed(items, s);
      assert forall s :: s !in scopes;
    }
  }

  lemma ItemsCount(items: seq<Item>, docs: map<Place, Doc>, ms: seq<Mutation>)
    requires Prepares(items, docs, ms)
    ensures |items| == |ScopesOf(ms)|
  {
    forall s ensures s in ScopesOf(ms) <==> Listed(items, s) {
      assert Touches(ms, s) <==> Listed(items, s);
    }
    CountScopes(items, ScopesOf(ms));
  }

  /** One more mutation, on the item of its scope, created if it is the first. */
  lemma PrepareOneMore(items: seq<Item>, docs: map<Place, Doc>, ms: seq<Mutation>, m: Mutation)
    requires Prepares(items, docs, ms)
    ensures Prepares(OneMore(items, DocumentAt(docs, m.scope), m), docs, ms + [m])
  {
    var r := OneMore(items, DocumentAt(docs, m.scope), m);
    forall i | 0 <= i < |r| ensures r[i].before == DocumentAt(docs, r[i].scope) && r[i].after == Folded(r[i].before, r[i].scope, ms + [m]) {
      OneMoreItem(items, docs, ms, m, i);
    }
    forall s ensures Touches(ms + [m], s) <==> Listed(r, s) {
      TouchesOneMore(ms, m, s);
      OneMoreScopes(items, DocumentAt(docs, m.scope), m, s);
    }
    OneMoreDistinct(items, DocumentAt(docs, m.scope), m);
  }

  lemma OneMoreDistinct(items: seq<Item>, d: Document, m: Mutation)
    requires forall i, j | 0 <= i < j < |items| :: items[i].scope != items[j].scope
    ensures var r := OneMore(items, d, m); forall i, j | 0 <= i < j < |r| :: r[i].scope != r[j].scope
  {
    assert forall i | 0 <= i < |items| :: OneMore(items, d, m)[i].scope == items[i].scope;
  }

  class StateService {
    const disk: Disk

    constructor (d: Disk)
      ensures disk == d
    {
      disk := d;
    }

    /** The preparation loop; None is a refusal. */
    method Prepare(ms: seq<Mutation>, unreadable: set<int>) returns (ok: bool, items: seq<Item>)
      ensures ok <==> forall i | 0 <= i < |ms| :: ms[i].valid && ms[i].scope !in unreadable
      ensures ok ==> Prepares(items, disk.docs, ms)
    {
      items := [];
      for i := 0 to |ms|
        invariant Prepares(items, disk.docs, ms[..i])
        invariant forall j | 0 <= j < i :: ms[j].valid && ms[j].scope !in unreadable
      {
        var m := ms[i];
        if !m.valid { return false, []; }
        if m.scope in unreadable { return false, []; }
        assert ms[..i + 1] == ms[..i] + [m];
        PrepareOneMore(items, disk.docs, ms[..i], m);
        ghost var before := items;
        var at := Find(items, m.scope);
        if at == |items| {
          var stored := DocumentAt(disk.docs, m.scope);
          items := items + [Item(m.scope, stored, stored)];
        }
        items := items[at := items[at].(after := Mutate(items[at].after, m))];
        assert items == OneMore(before, DocumentAt(disk.docs, m.scope), m);
      }
      assert ms[..|ms|] == ms;
      return true, items;
    }

    /** rollback: the touched scopes in reverse order, each with two saves whatever fails. */
    method Rollback(items: seq<Item>) returns (ok: bool)
      requires forall i, j | 0 <= i < j < |items| :: items[i].scope != items[j].scope
      modifies disk
      ensures forall s | (forall i | 0 <= i < |items| :: items[i].scope != s) :: DocumentAt(disk.docs, s) == DocumentAt(old(disk.docs), s)
      ensures ok ==> forall i | 0 <= i < |items| :: DocumentAt(disk.docs, items[i].scope) == items[i].before
      ensures ok == AllGood(disk.fates, old(disk.saves), disk.saves) && disk.saves == old(disk.saves) + 2 * |items|
    {
      ok := true;
      for i := |items| downto 0
        invariant forall s | (forall j | 0 <= j < |items| :: items[j].scope != s) :: DocumentAt(disk.docs, s) == DocumentAt(old(disk.docs), s)
        invariant ok ==> forall j | i <= j < |items| :: DocumentAt(disk.docs, items[j].scope) == items[j].before
        invariant disk.saves == old(disk.saves) + 2 * (|items| - i) && ok == AllGood(disk.fates, old(disk.saves), disk.saves)
      {
        var restored := disk.Restore(items[i].scope, items[i].before);
        ok := ok && restored;
      }
    }

    /** Apply: the in-order fold on every touched scope, or everything as before, or torn;
        the saves alone decide which. */
    method Apply(ms: seq<Mutation>, unreadable: set<int>) returns (r: Outcome)
      modifies disk
      ensures r == if exists i | 0 <= i < |ms| :: !ms[i].valid || ms[i].scope in unreadable then Rejected
                   else Verdict(disk.fates, old(disk.saves), |ScopesOf(ms)|)
      ensures r == Rejected ==> disk.docs == old(disk.docs)
      ensures r == Done ==> forall s :: DocumentAt(disk.docs, s) == Folded(DocumentAt(old(disk.docs), s), s, ms)
      ensures r == RolledBack ==> forall s :: DocumentAt(disk.docs, s) == DocumentAt(old(disk.docs), s)
      ensures forall s | !Touches(ms, s) :: DocumentAt(disk.docs, s) == DocumentAt(old(disk.docs), s)
    {
      var prepared, items := Prepare(ms, unreadable);
      if !prepared { return Rejected; }
      ItemsCount(items, disk.docs, ms);
      var failed := SaveItems(items);
      if failed < |items| {
        var begun := items[..failed + 1];
        var ok := Rollback(begun);
        assert forall j | 0 <= j <= failed :: begun[j] == items[j];
        return if ok then RolledBack else Torn;
      }
      forall s ensures DocumentAt(disk.docs, s) == Folded(DocumentAt(old(disk.docs), s), s, ms) {
        if !Touches(ms, s) { Untouched(DocumentAt(old(disk.docs), s), s, ms); }
      }
      return Done;
    }

    /** The writes of Apply: the item whose save failed, or their number. */
    method SaveItems(items: seq<Item>) returns (failed: nat)
      requires forall i, j | 0 <= i < j < |items| :: items[i].scope != items[j].scope
      modifies disk
      ensures failed <= |items|
      ensures forall s | (forall j | 0 <= j <= failed && j < |items| :: items[j].scope != s) :: DocumentAt(disk.docs, s) == DocumentAt(old(disk.docs), s)
      ensures forall j | 0 <= j < failed :: DocumentAt(disk.docs, items[j].scope) == items[j].after
      ensures var start := old(disk.saves); var k := FirstBad(disk.fates, start, 2 * |items|);
        if failed == |items| then k == start + 2 * |items| else (k - start) / 2 == failed && disk.saves == k + 1
    {
      ghost var start := disk.saves;
      for i := 0 to |items|
        invariant forall s | (forall j | 0 <= j < i :: items[j].scope != s) :: DocumentAt(disk.docs, s) == DocumentAt(old(disk.docs), s)
        invariant forall j | 0 <= j < i :: DocumentAt(disk.docs, items[j].scope) == items[j].after
        invariant disk.saves == start + 2 * i && AllGood(disk.fates, start, disk.saves)
      {
        var item := items[i];
        var saved := disk.Save(Place(item.scope, false), item.after.values);
        if saved { saved := disk.Save(Place(item.scope, true), item.after.secrets); }
        if !saved {
          FirstBadIs(disk.fates, start, 2 * |items|, disk.saves - 1);
          return i;
        }
      }
      return |items|;
    }
  }

  // PutBatch -----------------------------------------------------------------------------------

  /** A partial configuration write; `valid` is what the schema says about it. */
  datatype Update = Update(
    scope: int, values: Doc, secrets: Doc, clearValues: seq<string>, clearSecrets: seq<string>, valid: bool)

  /** Blank secrets leave the stored ones alone. */
  function NonBlank(secrets: Doc): Doc { map k | k in secrets && secrets[k] != "" :: secrets[k] }

  /** putPartialUnlocked's merge; clearing a secret scrubs an old plaintext value too. */
  function Put(d: Document, u: Update): Document {
    Document(Cleared(Cleared(d.values + u.values, u.clearValues), u.clearSecrets), Cleared(d.secrets + NonBlank(u.secrets), u.clearSecrets))
  }

  predicate Duplicate(us: seq<Update>) { exists i, j | 0 <= i < j < |us| :: us[i].scope == us[j].scope }

  /** The first update that its schema refuses. */
  function FirstInvalid(us: seq<Update>): (v: nat)
    ensures v <= |us| && (forall i | 0 <= i < v :: us[i].valid) && (v < |us| ==> !us[v].valid)
  {
    if us == [] then 0
    else
      var v := FirstInvalid(us[..|us| - 1]);
      if v < |us| - 1 || !us[v].valid then v else |us|
  }

  /** The outcome of a batch of n updates of which the v-th is refused: a failed write and
      a refusal both undo every scope begun. */
  function BatchVerdict(fates: Fates, start: nat, v: nat, n: nat): Outcome {
    var end := start + 2 * v;
    if FirstBad(fates, start, 2 * v) < end then Verdict(fates, start, v)
    else if v == n then Done
    else if AllGood(fates, end, end + 2 * v) then RolledBack
    else Torn
  }

  /** A write of the i-th update fails after i good ones: the restoring saves of its own
      scope and of the scopes before it follow each other. */
  lemma WriteFails(fates: Fates, start: nat, v: nat, n: nat, i: nat, k: nat)
    requires i < v <= n && AllGood(fates, start, start + 2 * i) && k == FirstBad(fates, start + 2 * i, 2) < start + 2 * i + 2
    ensures BatchVerdict(fates, start, v, n)
         == if AllGood(fates, k + 1, k + 3) && AllGood(fates, k + 3, k + 3 + 2 * i) then RolledBack else Torn
  {
    FirstBadIs(fates, start, 2 * v, k);
    assert (k - start) / 2 == i;
    assert AllGood(fates, k + 1, k + 3 + 2 * i) <==> AllGood(fates, k + 1, k + 3) && AllGood(fates, k + 3, k + 3 + 2 * i);
  }

  /** The i-th update is refused after i good ones. */
  lemma RefusalUndoes(fates: Fates, start: nat, i: nat, n: nat)
    requires i < n && AllGood(fates, start, start + 2 * i)
    ensures BatchVerdict(fates, start, i, n)
         == if !AllGood(fates, start + 2 * i, start + 2 * i + 2 * i) then Torn else RolledBack
  {
    FirstBadIs(fates, start, 2 * i, start + 2 * i);
  }

  /** Why an update whose writes start at save `here` is not done, and where it leaves off. */
  predicate Failure(fates: Fates, here: nat, u: Update, put: Outcome, saves: nat) {
    if u.valid then
      var k := FirstBad(fates, here, 2);
      k < here + 2 && saves == k + 3 && put == if AllGood(fates, k + 1, saves) then RolledBack else Torn
    else put == Rejected && saves == here
  }

  lemma OneScope(fates: Fates, here: nat)
    ensures var k := FirstBad(fates, here, 2);
      Verdict(fates, here, 1) == if k == here + 2 then Done else if AllGood(fates, k + 1, k + 3) then RolledBack else Torn
  {
    var k := FirstBad(fates, here, 2);
    assert k < here + 2 ==> (k - here) / 2 == 0;
  }

  /** A refused batch is torn only by a failed restoring save. */
  lemma TornBatch(fates: Fates, start: nat, v: nat, n: nat)
    requires BatchVerdict(fates, start, v, n) == Torn
    ensures exists i: nat :: start + (if AllGood(fates, start, start + 2 * v) then 2 * v else 1) <= i && fates(i).Fails?
  {
    var end := start + 2 * v;
    if FirstBad(fates, start, 2 * v) < end {
      TornMeansTwoFailures(fates, start, v);
    } else {
      var i: nat :| end <= i < end + 2 * v && fates(i).Fails?;
    }
  }

  lemma FailureUndoes(fates: Fates, start: nat, us: seq<Update>, i: nat, put: Outcome, saves: nat)
    requires i < |us| && i <= FirstInvalid(us) && AllGood(fates, start, start + 2 * i)
    requires Failure(fates, start + 2 * i, us[i], put, saves)
    ensures BatchVerdict(fates, start, FirstInvalid(us), |us|)
         == if put == Torn || !AllGood(fates, saves, saves + 2 * i) then Torn else RolledBack
  {
    if us[i].valid { WriteFails(fates, start, FirstInvalid(us), |us|, i, saves - 3); } else { RefusalUndoes(fates, start, i, |us|); }
  }

  class ConfigService {
    const disk: Disk

    constructor (d: Disk)
      ensures disk == d
    {
      disk := d;
    }

    /** putPartialUnlocked: one scope, restored if either save fails. */
    method PutPartial(u: Update) returns (r: Outcome)
      modifies disk
      ensures r == if u.valid then Verdict(disk.fates, old(disk.saves), 1) else Rejected
      ensures forall s | s != u.scope :: DocumentAt(disk.docs, s) == DocumentAt(old(disk.docs), s)
      ensures r == Done ==> DocumentAt(disk.docs, u.scope) == Put(DocumentAt(old(disk.docs), u.scope), u)
      ensures r == Rejected || r == RolledBack ==> DocumentAt(disk.docs, u.scope) == DocumentAt(old(disk.docs), u.scope)
      ensures if r == Done then u.valid && disk.saves == old(disk.saves) + 2 && AllGood(disk.fates, old(disk.saves), disk.saves)
              else Failure(disk.fates, old(disk.saves), u, r, disk.saves)
    {
      if !u.valid { return Rejected; }
      OneScope(disk.fates, disk.saves);
      var current := DocumentAt(disk.docs, u.scope);
      var merged := Put(current, u);
      var saved := disk.Save(Place(u.scope, false), merged.values);
      if saved { saved := disk.Save(Place(u.scope, true), merged.secrets); }
      if saved { return Done; }
      FirstBadIs(disk.fates, old(disk.saves), 2, disk.saves - 1);
      var restored := disk.Restore(u.scope, current);
      return if restored then RolledBack else Torn;
    }

    /** PutBatch: every scope written, or every scope as before, or torn. A duplicate scope,
        or one that cannot be read, is refused before anything is written; an update that
        its schema refuses undoes the ones before it. */
    method PutBatch(us: seq<Update>, unreadable: set<int>) returns (r: Outcome)
      modifies disk
      ensures r == Rejected <==> Duplicate(us) || exists i | 0 <= i < |us| :: us[i].scope in unreadable
      ensures r != Rejected ==> r == BatchVerdict(disk.fates, old(disk.saves), FirstInvalid(us), |us|)
      ensures r == Done ==> forall i | 0 <= i < |us| :: DocumentAt(disk.docs, us[i].scope) == Put(DocumentAt(old(disk.docs), us[i].scope), us[i])
      ensures r == Rejected || r == RolledBack ==> forall s :: DocumentAt(disk.docs, s) == DocumentAt(old(disk.docs), s)
      ensures forall s | (forall i | 0 <= i < |us| :: us[i].scope != s) :: DocumentAt(disk.docs, s) == DocumentAt(old(disk.docs), s)
    {
      var identities: set<int>, snapshots: seq<Document> := {}, [];
      for i := 0 to |us|
        invariant |snapshots| == i && forall j | 0 <= j < i :: snapshots[j] == DocumentAt(disk.docs, us[j].scope)
        invariant forall s :: s in identities <==> exists j | 0 <= j < i :: us[j].scope == s
        invariant forall j, k | 0 <= j < k < i :: us[j].scope != us[k].scope
        invariant forall j | 0 <= j < i :: us[j].scope !in unreadable
      {
        if us[i].scope in identities || us[i].scope in unreadable { return Rejected; }
        identities := identities + {us[i].scope};
        snapshots := snapshots + [DocumentAt(disk.docs, us[i].scope)];
      }
      ghost var targets := seq(|us|, j requires 0 <= j < |us| => Put(snapshots[j], us[j]));
      r := WriteBatch(us, snapshots, targets);
    }

    method WriteBatch(us: seq<Update>, snapshots: seq<Document>, ghost targets: seq<Document>) returns (r: Outcome)
      requires forall j, k | 0 <= j < k < |us| :: us[j].scope != us[k].scope
      requires |snapshots| == |us| && forall j | 0 <= j < |us| :: snapshots[j] == DocumentAt(disk.docs, us[j].scope)
      requires |targets| == |us| && forall j | 0 <= j < |us| :: targets[j] == Put(snapshots[j], us[j])
      modifies disk
      ensures r == BatchVerdict(disk.fates, old(disk.saves), FirstInvalid(us), |us|)
      ensures r == Done ==> forall i | 0 <= i < |us| :: DocumentAt(disk.docs, us[i].scope) == targets[i]
      ensures r == RolledBack ==> forall s :: DocumentAt(disk.docs, s) == DocumentAt(old(disk.docs), s)
      ensures forall s | (forall i | 0 <= i < |us| :: us[i].scope != s) :: DocumentAt(disk.docs, s) == DocumentAt(old(disk.docs), s)
    {
      ghost var start := disk.saves;
      var i, put := WriteUpdates(us, targets);
      if i == |us| { return Done; }
      FailureUndoes(disk.fates, start, us, i, put, disk.saves);
      r := UndoAfter(us, snapshots, i, put, old(disk.docs));
    }

    method UndoAfter(us: seq<Update>, snapshots: seq<Document>, i: nat, put: Outcome, ghost before: map<Place, Doc>) returns (r: Outcome)
      requires i < |us| == |snapshots| && forall j, k | 0 <= j < k < |us| :: us[j].scope != us[k].scope
      requires forall j | 0 <= j < |us| :: snapshots[j] == DocumentAt(before, us[j].scope)
      requires forall s | (forall j | 0 <= j <= i :: us[j].scope != s) :: DocumentAt(disk.docs, s) == DocumentAt(before, s)
      requires put != Torn ==> DocumentAt(disk.docs, us[i].scope) == DocumentAt(before, us[i].scope)
      modifies disk
      ensures r == if put == Torn || !AllGood(disk.fates, old(disk.saves), old(disk.saves) + 2 * i) then Torn else RolledBack
      ensures r == RolledBack ==> forall s :: DocumentAt(disk.docs, s) == DocumentAt(before, s)
      ensures forall s | (forall j | 0 <= j <= i :: us[j].scope != s) :: DocumentAt(disk.docs, s) == DocumentAt(before, s)
    {
      var undone := Undo(us, snapshots, i);
      return if put == Torn || !undone then Torn else RolledBack;
    }

    method PutNext(u: Update, ghost target: Document) returns (put: Outcome)
      requires target == Put(DocumentAt(disk.docs, u.scope), u)
      modifies disk
      ensures forall s | s != u.scope :: DocumentAt(disk.docs, s) == DocumentAt(old(disk.docs), s)
      ensures put == Done ==> u.valid && DocumentAt(disk.docs, u.scope) == target
      ensures put == Done ==> disk.saves == old(disk.saves) + 2 && AllGood(disk.fates, old(disk.saves), disk.saves)
      ensures put != Done ==> Failure(disk.fates, old(disk.saves), u, put, disk.saves)
      ensures put != Done && put != Torn ==> DocumentAt(disk.docs, u.scope) == DocumentAt(old(disk.docs), u.scope)
    {
      put := PutPartial(u);
    }

    /** The writes of PutBatch: the update that failed and how, or their number. */
    method WriteUpdates(us: seq<Update>, ghost targets: seq<Document>) returns (failed: nat, put: Outcome)
      requires Distinct(us) && Planned(us, targets, disk.docs)
      modifies disk
      ensures failed <= FirstInvalid(us) && (put == Done <==> failed == |us|)
      ensures put == Done ==> Written(us, targets, failed, old(disk.docs), disk.docs)
      ensures put != Done ==> StoppedAt(us, targets, failed, old(disk.docs), disk.docs)
      ensures put != Done && put != Torn ==> DocumentAt(disk.docs, us[failed].scope) == DocumentAt(old(disk.docs), us[failed].scope)
      ensures AllGood(disk.fates, old(disk.saves), old(disk.saves) + 2 * failed)
      ensures put != Done ==> Failure(disk.fates, old(disk.saves) + 2 * failed, us[failed], put, disk.saves)
    {
      ghost var docs, start := disk.docs, disk.saves;
      NothingWritten(us, targets, docs);
      for i := 0 to |us|
        invariant i <= FirstInvalid(us) && Written(us, targets, i, docs, disk.docs)
        invariant disk.saves == start + 2 * i && AllGood(disk.fates, start, disk.saves)
      {
        put := WriteNext(us, targets, i, docs, start);
        if put != Done { return i, put; }
      }
      return |us|, Done;
    }

    /** One round of the loop of PutBatch. */
    method WriteNext(us: seq<Update>, ghost targets: seq<Document>, i: nat, ghost docs: map<Place, Doc>, ghost start: nat) returns (put: Outcome)
      requires i < |us| && Distinct(us) && Planned(us, targets, docs) && Written(us, targets, i, docs, disk.docs)
      requires disk.saves == start + 2 * i && AllGood(disk.fates, start, disk.saves)
      modifies disk
      ensures put == Done ==> us[i].valid && Written(us, targets, i + 1, docs, disk.docs)
      ensures put == Done ==> disk.saves == start + 2 * (i + 1) && AllGood(disk.fates, start, disk.saves)
      ensures put != Done ==> StoppedAt(us, targets, i, docs, disk.docs) && Failure(disk.fates, start + 2 * i, us[i], put, disk.saves)
      ensures put != Done && put != Torn ==> DocumentAt(disk.docs, us[i].scope) == DocumentAt(docs, us[i].scope)
    {
      ghost var now := disk.docs;
      NotYetWritten(us, targets, i, docs, now);
      put := PutNext(us[i], targets[i]);
      if put == Done {
        WritesOne(us, targets, i, docs, now, disk.docs);
      } else {
        StopsWriting(us, targets, i, docs, now, disk.docs);
      }
    }

    /** The scopes before `i`, in reverse order, from their snapshots. */
    method Undo(us: seq<Update>, snapshots: seq<Document>, i: nat) returns (ok: bool)
      requires |snapshots| == |us| && i < |us| && forall j, k | 0 <= j < k < |us| :: us[j].scope != us[k].scope
      modifies disk
      ensures forall s | (forall j | 0 <= j < i :: us[j].scope != s) :: DocumentAt(disk.docs, s) == DocumentAt(old(disk.docs), s)
      ensures ok ==> forall j | 0 <= j < i :: DocumentAt(disk.docs, us[j].scope) == snapshots[j]
      ensures ok == AllGood(disk.fates, old(disk.saves), old(disk.saves) + 2 * i)
    {
      ok := true;
      for n := i downto 0
        invariant forall s | (forall j | 0 <= j < i :: us[j].scope != s) :: DocumentAt(disk.docs, s) == DocumentAt(old(disk.docs), s)
        invariant ok ==> forall j | n <= j < i :: DocumentAt(disk.docs, us[j].scope) == snapshots[j]
        invariant disk.saves == old(disk.saves) + 2 * (i - n) && ok == AllGood(disk.fates, old(disk.saves), disk.saves)
      {
        var restored := disk.Restore(us[n].scope, snapshots[n]);
        ok := ok && restored;
      }
    }
  }

  // Batches ------------------------------------------------------------------------------------------

  predicate Distinct(us: seq<Update>) { forall j, k | 0 <= j < k < |us| :: us[j].scope != us[k].scope }

  /** What each scope is to hold. */
  predicate Planned(us: seq<Update>, targets: seq<Document>, docs: map<Place, Doc>) {
    |targets| == |us| && forall j | 0 <= j < |us| :: targets[j] == Put(DocumentAt(docs, us[j].scope), us[j])
  }

  /** The first n scopes hold their targets, and the others are as before. */
  ghost predicate Written(us: seq<Update>, targets: seq<Document>, n: nat, before: map<Place, Doc>, docs: map<Place, Doc>)
    requires n <= |us| == |targets|
  {
    && (forall s | (forall j | 0 <= j < n :: us[j].scope != s) :: DocumentAt(docs, s) == DocumentAt(before, s))
    && (forall j | 0 <= j < n :: DocumentAt(docs, us[j].scope) == targets[j])
  }

  lemma NothingWritten(us: seq<Update>, targets: seq<Document>, docs: map<Place, Doc>)
    requires |us| == |targets|
    ensures Written(us, targets, 0, docs, docs)
  {
  }

  lemma NotYetWritten(us: seq<Update>, targets: seq<Document>, n: nat, before: map<Place, Doc>, docs: map<Place, Doc>)
    requires n < |us| == |targets| && Written(us, targets, n, before, docs) && Distinct(us) && Planned(us, targets, before)
    ensures DocumentAt(docs, us[n].scope) == DocumentAt(before, us[n].scope) && targets[n] == Put(DocumentAt(docs, us[n].scope), us[n])
  {
  }

  lemma WritesOne(us: seq<Update>, targets: seq<Document>, n: nat, before: map<Place, Doc>, docs: map<Place, Doc>, after: map<Place, Doc>)
    requires n < |us| == |targets| && Written(us, targets, n, before, docs) && Distinct(us)
    requires DocumentAt(after, us[n].scope) == targets[n] && forall s | s != us[n].scope :: DocumentAt(after, s) == DocumentAt(docs, s)
    ensures Written(us, targets, n + 1, before, after)
  {
  }

  /** Scope n may hold anything; the first n hold their targets, and the others are as before. */
  ghost predicate StoppedAt(us: seq<Update>, targets: seq<Document>, n: nat, before: map<Place, Doc>, docs: map<Place, Doc>)
    requires n < |us| == |targets|
  {
    && (forall s | (forall j | 0 <= j <= n :: us[j].scope != s) :: DocumentAt(docs, s) == DocumentAt(before, s))
    && (forall j | 0 <= j < n :: DocumentAt(docs, us[j].scope) == targets[j])
  }

  lemma StopsWriting(us: seq<Update>, targets: seq<Document>, n: nat, before: map<Place, Doc>, docs: map<Place, Doc>, after: map<Place, Doc>)
    requires n < |us| == |targets| && Written(us, targets, n, before, docs) && Distinct(us)
    requires forall s | s != us[n].scope :: DocumentAt(after, s) == DocumentAt(docs, s)
    ensures StoppedAt(us, targets, n, before, after)
  {
  }

  // Folds ------------------------------------------------------------------------------------------

  lemma {:induction false} ClearedKeys(d: Doc, keys: seq<string>)
    ensures forall k :: k in Cleared(d, keys) <==> k in d && k !in keys
    ensures forall k | k in Cleared(d, keys) :: Cleared(d, keys)[k] == d[k]
  {
    if keys != [] { ClearedKeys(d, keys[..|keys| - 1]); }
  }

  /** What a successful Apply leaves under a key: the value of the last mutation of
      the scope that sets or clears it, clearing winning within one mutation, and
      otherwise what was there. */
  lemma LastMutationWins(d: Document, scope: int, ms: seq<Mutation>, m: Mutation, k: string)
    requires m.scope == scope
    ensures var before, after := Folded(d, scope, ms), Folded(d, scope, ms + [m]);
      && (k in after.values <==> k !in m.clearValues && (k in m.values || k in before.values))
      && (k in after.values ==> after.values[k] == if k in m.values then m.values[k] else before.values[k])
      && (k in after.secrets <==> k !in m.clearSecrets && (k in m.secrets || k in before.secrets))
      && (k in after.secrets ==> after.secrets[k] == if k in m.secrets then m.secrets[k] else before.secrets[k])
  {
    FoldOneMore(d, scope, ms, m);
    var before := Folded(d, scope, ms);
    ClearedKeys(before.values + m.values, m.clearValues);
    ClearedKeys(before.secrets + m.secrets, m.clearSecrets);
  }

  /** What a partial write leaves under a key. A blank secret leaves the stored one alone, clearing
      wins over setting, and clearing a secret also clears a value of that name. */
  lemma PutMeans(d: Document, u: Update, k: string)
    ensures var after, given := Put(d, u), k in u.secrets && u.secrets[k] != "";
      && (k in after.values <==> k !in u.clearValues && k !in u.clearSecrets && (k in u.values || k in d.values))
      && (k in after.values ==> after.values[k] == if k in u.values then u.values[k] else d.values[k])
      && (k in after.secrets <==> k !in u.clearSecrets && (given || k in d.secrets))
      && (k in after.secrets ==> after.secrets[k] == if given then u.secrets[k] else d.secrets[k])
  {
    ClearedKeys(d.values + u.values, u.clearValues);
    ClearedKeys(Cleared(d.values + u.values, u.clearValues), u.clearSecrets);
    ClearedKeys(d.secrets + NonBlank(u.secrets), u.clearSecrets);
  }
}
