/** Reordering the items of a recommendation, or the legs inside them, leaves an accepted portfolio as it is. */
module CapitalReordering {
  import opened Common
  import opened Sorting
  import opened CapitalModel
  import opened CapitalValidation
  import opened CapitalStability

  // ---------------------------------------------------------------- one item per scope

  ghost predicate DistinctScopes(items: seq<Item>) {
    forall i, j :: 0 <= i < j < |items| ==> items[i].scope != items[j].scope
  }

  /** As many items as scopes, covering all of them, leaves one item per scope. */
  lemma ItemsCoverOnce(s: Source, items: seq<Item>)
    requires ScopesMatch(s, items) && !HasDuplicateScope(s.task.scopes)
    ensures DistinctScopes(items)
  {
    var ids, needed := ItemScopes(items), ScopeIds(s.task.scopes);
    DistinctCount(needed);
    NoRepeats(ids);
    forall i, j | 0 <= i < j < |items| ensures items[i].scope != items[j].scope {
      assert ids[i] != ids[j];
    }
  }

  lemma ItemsSortAlike(items: seq<Item>, other: seq<Item>)
    requires multiset(items) == multiset(other) && DistinctScopes(items)
    ensures SortBy(items, ItemOrder) == SortBy(other, ItemOrder)
  {
    forall x, y | x in items && y in items && ItemOrder(x, y) && ItemOrder(y, x) ensures x == y {
      var i :| 0 <= i < |items| && items[i] == x;
      var j :| 0 <= j < |items| && items[j] == y;
    }
    SortPermutation(items, other, ItemOrder);
  }

  lemma SameScopes(items: seq<Item>, other: seq<Item>)
    requires multiset(items) == multiset(other)
    ensures |items| == |other| && Elements(ItemScopes(items)) == Elements(ItemScopes(other))
  {
    SameElements(items, other);
    forall i | 0 <= i < |items| ensures ItemScopes(items)[i] in ItemScopes(other) {
      assert items[i] in other;
      var j :| 0 <= j < |other| && other[j] == items[i];
      assert ItemScopes(other)[j] == items[i].scope;
    }
    forall i | 0 <= i < |other| ensures ItemScopes(other)[i] in ItemScopes(items) {
      assert other[i] in items;
      var j :| 0 <= j < |items| && items[j] == other[i];
      assert ItemScopes(items)[j] == other[i].scope;
    }
  }

  lemma AllocationReordered(k: Ranks, r: Recommendation, t: Recommendation, s: Source, at: int)
    requires r.task == t.task && multiset(r.items) == multiset(t.items) && !HasDuplicateScope(s.task.scopes)
    ensures Allocate(k, r, s, at) == Allocate(k, t, s, at)
  {
    SameScopes(r.items, t.items);
    if ScopesMatch(s, r.items) {
      ItemsCoverOnce(s, r.items);
      ItemsSortAlike(r.items, t.items);
    }
  }

  lemma CanonicalScopesDistinct(k: Ranks, source: Source, at: int)
    requires ValidatedSource(k, source, at).Ok?
    ensures !HasDuplicateScope(ValidatedSource(k, source, at).value.task.scopes)
  {
    var scopes := ValidatedSource(k, source, at).value.task.scopes;
    if HasDuplicateScope(scopes) {
      DuplicateScopeReordered(source.task.scopes, scopes);
    }
  }

  /** Reordering the items changes nothing, accepted or rejected. */
  lemma ItemsReordered(k: Ranks, r: Recommendation, t: Recommendation, source: Source, at: int)
    requires r.task == t.task && multiset(r.items) == multiset(t.items)
    ensures Validate(k, r, source, at) == Validate(k, t, source, at)
  {
    if ValidatedSource(k, source, at).Ok? {
      CanonicalScopesDistinct(k, source, at);
      AllocationReordered(k, r, t, ValidatedSource(k, source, at).value, at);
    }
  }

  ghost predicate DistinctLegs(legs: seq<Leg>) {
    forall i, j :: 0 <= i < j < |legs| ==> legs[i].id != legs[j].id
  }

  lemma LegUsesId(k: Ranks, s: Source, cap: Result<Cap, Reason>, at: int, blocked: bool, leg: Leg, u: Used)
    requires EvalLeg(k, s, cap, at, blocked, leg, u).Ok?
    ensures leg.id !in u.ids && EvalLeg(k, s, cap, at, blocked, leg, u).value.1.ids == u.ids + {leg.id}
  {
  }

  /** An accepted leg list repeats no id. */
  lemma {:induction false} AcceptedLegsDistinct(k: Ranks, s: Source, cap: Result<Cap, Reason>, at: int, blocked: bool, legs: seq<Leg>, u: Used)
    requires EvalLegs(k, s, cap, at, blocked, legs, u).Ok?
    ensures DistinctLegs(legs)
    ensures forall i :: 0 <= i < |legs| ==> legs[i].id in EvalLegs(k, s, cap, at, blocked, legs, u).value.1.ids
  {
    if legs != [] {
      var init := legs[..|legs| - 1];
      AcceptedLegsDistinct(k, s, cap, at, blocked, init, u);
      LegUsesId(k, s, cap, at, blocked, legs[|legs| - 1], EvalLegs(k, s, cap, at, blocked, init, u).value.1);
      forall i | 0 <= i < |init| ensures legs[i].id == init[i].id && legs[i].id != legs[|legs| - 1].id {
        assert init[i].id in EvalLegs(k, s, cap, at, blocked, init, u).value.1.ids;
      }
    }
  }

  /** The same item with its legs in another order. */
  predicate LegsReordered(x: Item, y: Item) {
    y == x.(legs := y.legs) && multiset(y.legs) == multiset(x.legs)
  }

  lemma LegsSortAlike(x: Item, y: Item)
    requires LegsReordered(x, y) && DistinctLegs(SortedLegs(x))
    ensures SortedLegs(x) == SortedLegs(y)
  {
    var sorted := SortedLegs(x);
    SameElements(x.legs, sorted);
    forall v, w | v in x.legs && w in x.legs && LegOrder(v, w) && LegOrder(w, v) ensures v == w {
      var i :| 0 <= i < |sorted| && sorted[i] == v;
      var j :| 0 <= j < |sorted| && sorted[j] == w;
    }
    SortPermutation(x.legs, y.legs, LegOrder);
  }

  lemma TwoLegs(a: seq<Leg>, b: seq<Leg>)
    requires multiset(a) == multiset(b) && |a| <= 2
    ensures |a| == |b| && (a == b || (|a| == 2 && b == [a[1], a[0]]))
  {
    SameElements(a, b);
    if |a| == 1 {
      assert b[0] in a;
      assert a == b;
    }
    if |a| == 2 {
      assert b[0] in a && b[1] in a && a[0] in b && a[1] in b;
    }
  }

  lemma ActionReordered(k: Ranks, s: Source, scope: Scope, x: Item, y: Item, blocked: bool, at: int)
    requires LegsReordered(x, y) && ActionError(k, s, scope, x, blocked, at).None?
    ensures ActionError(k, s, scope, y, blocked, at).None?
  {
    SameElements(x.legs, y.legs);
    if |x.legs| <= 2 {
      TwoLegs(x.legs, y.legs);
    }
  }

  lemma ErrorReordered(k: Ranks, s: Source, at: int, x: Item, y: Item)
    requires LegsReordered(x, y) && ItemError(k, s, at, x).None?
    ensures ItemError(k, s, at, y).None? && BlockersOf(s, y, at) == BlockersOf(s, x, at)
  {
    assert BlockersOf(s, y, at) == BlockersOf(s, x, at) && EvidenceError(s, y) == EvidenceError(s, x);
    ActionReordered(k, s, ScopeOf(s.task.scopes, x.scope).value, x, y, BlockersOf(s, x, at) != [], at);
  }

  lemma StateReordered(x: Item, y: Item, blockers: seq<Blocker>, legs: seq<LegOut>)
    requires LegsReordered(x, y)
    ensures ItemStateOf(y, blockers, legs) == ItemStateOf(x, blockers, legs)
  {
  }

  lemma ItemReordered(k: Ranks, s: Source, cap: Result<Cap, Reason>, at: int, x: Item, y: Item, u: Used)
    requires LegsReordered(x, y) && EvalItem(k, s, cap, at, x, u).Ok?
    ensures EvalItem(k, s, cap, at, y, u) == EvalItem(k, s, cap, at, x, u)
  {
    var blockers := BlockersOf(s, x, at);
    ErrorReordered(k, s, at, x, y);
    var legs := EvalLegs(k, s, cap, at, blockers != [], SortedLegs(x), u);
    AcceptedLegsDistinct(k, s, cap, at, blockers != [], SortedLegs(x), u);
    LegsSortAlike(x, y);
    StateReordered(x, y, blockers, legs.value.0);
  }

  ghost predicate LegsReorderedAll(items: seq<Item>, other: seq<Item>) {
    |other| == |items| && forall i :: 0 <= i < |items| ==> LegsReordered(items[i], other[i])
  }

  lemma {:induction false} EvaluationReordered(k: Ranks, s: Source, cap: Result<Cap, Reason>, at: int, items: seq<Item>, other: seq<Item>)
    requires LegsReorderedAll(items, other) && EvalItems(k, s, cap, at, items).Ok?
    ensures EvalItems(k, s, cap, at, other) == EvalItems(k, s, cap, at, items)
  {
    if items != [] {
      var n := |items| - 1;
      EvaluationReordered(k, s, cap, at, items[..n], other[..n]);
      ItemReordered(k, s, cap, at, items[n], other[n], EvalItems(k, s, cap, at, items[..n]).value.1);
    }
  }

  lemma SortMatches(items: seq<Item>, other: seq<Item>)
    requires LegsReorderedAll(items, other)
    ensures LegsReorderedAll(SortBy(items, ItemOrder), SortBy(other, ItemOrder))
  {
    SortPointwise(items, other, ItemOrder, LegsReordered, (x: Item) => x.scope);
  }

  /** Reordering the items, and the legs inside each of them, leaves the validated legs, the states and
      the spend of an accepted portfolio unchanged. */
  lemma RecommendationReordered(k: Ranks, r: Recommendation, moved: seq<Item>, t: Recommendation, source: Source, at: int)
    requires Validate(k, r, source, at).Ok?
    requires t.task == r.task && multiset(moved) == multiset(r.items) && LegsReorderedAll(moved, t.items)
    ensures Validate(k, t, source, at) == Validate(k, r, source, at)
  {
    hide Allocate, LegsReorderedAll;
    var m := r.(items := moved);
    ItemsReordered(k, r, m, source, at);
    LegAllocationReordered(k, m, t, ValidatedSource(k, source, at).value, at);
  }

  lemma LegAllocationReordered(k: Ranks, m: Recommendation, t: Recommendation, s: Source, at: int)
    requires Allocate(k, m, s, at).Ok? && t.task == m.task && LegsReorderedAll(m.items, t.items)
    ensures Allocate(k, t, s, at) == Allocate(k, m, s, at)
  {
    assert ItemScopes(t.items) == ItemScopes(m.items);
    hide EvalItems, SpendingCap, LegsReorderedAll, ItemScopes, SortBy;
    SortMatches(m.items, t.items);
    EvaluationReordered(k, s, SpendingCap(k, s, at), at, SortBy(m.items, ItemOrder), SortBy(t.items, ItemOrder));
  }
}
