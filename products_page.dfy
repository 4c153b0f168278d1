/**
 * The product list's client-side filters: a record of four optional filter
 * values, the successive filter passes of `applyFilters`, and the record
 * updates behind the filter inputs and the Clear button.
 */
module ProductsPage {
  import opened Wrappers
  import opened ItemModel

  /** The filter record. An empty string (or an absent price bound) is an
      inactive filter; price bounds are taken as already parsed. */
  datatype Filters = Filters(category: string, minPrice: Option<real>, maxPrice: Option<real>, search: string)

  /** One pass of `applyFilters`. */
  datatype Criterion =
    | ByCategory(category: string)
    | AtLeast(min: real)
    | AtMost(max: real)
    | Mentions(search: string)

  /** `toLowerCase` on the ASCII letters. */
  function LowerChar(c: char): (d: char)
    ensures 'A' <= c <= 'Z' ==> 'a' <= d <= 'z' && d as int - c as int == 32
    ensures !('A' <= c <= 'Z') ==> d == c
  {
    if 'A' <= c <= 'Z' then (c as int + 32) as char else c
  }

  function ToLower(s: string): (r: string)
    ensures |r| == |s|
    ensures forall k :: 0 <= k < |s| ==> r[k] == LowerChar(s[k])
  {
    seq(|s|, k requires 0 <= k < |s| => LowerChar(s[k]))
  }

  /** `String.prototype.includes`: `t` occurs in `s` as a contiguous block. */
  function Includes(s: string, t: string): (b: bool)
    ensures t == [] ==> b
    ensures |t| > |s| ==> !b
  {
    t <= s || (s != [] && Includes(s[1..], t))
  }

  /** `t` occurs in `s` starting at index `k`. */
  predicate OccursAt(s: string, t: string, k: int) {
    0 <= k && k + |t| <= |s| && s[k..k + |t|] == t
  }

  /** An occurrence at index 0 is a prefix. */
  lemma OccursAtStart(s: string, t: string)
    ensures OccursAt(s, t, 0) <==> t <= s
  {
    if t <= s {
      assert s[..|t|] == t;
    }
  }

  /** Dropping the first character shifts every occurrence one place left. */
  lemma OccursAfterFirst(s: string, t: string, k: int)
    requires s != [] && 0 <= k
    ensures OccursAt(s[1..], t, k) <==> OccursAt(s, t, k + 1)
  {
    if k + |t| <= |s[1..]| {
      var a, b := s[k + 1..k + 1 + |t|], s[1..][k..k + |t|];
      assert |a| == |b|;
      forall j | 0 <= j < |a| ensures a[j] == b[j] {
        assert a[j] == s[k + 1 + j];
      }
      assert a == b;
    }
  }

  /** `Includes` means exactly: `t` occurs in `s` at some index. */
  lemma {:induction false} IncludesIffOccurs(s: string, t: string)
    ensures Includes(s, t) <==> exists k :: OccursAt(s, t, k)
  {
    OccursAtStart(s, t);
    if t <= s {
    } else if s != [] {
      IncludesIffOccurs(s[1..], t);
      forall k | OccursAt(s[1..], t, k) ensures OccursAt(s, t, k + 1) {
        OccursAfterFirst(s, t, k);
      }
      forall k | OccursAt(s, t, k) ensures OccursAt(s[1..], t, k - 1) {
        OccursAfterFirst(s, t, k - 1);
      }
    }
  }

  /** Whether one filter pass keeps an item. */
  predicate Holds(c: Criterion, it: Item): (b: bool)
    ensures c.Mentions? ==>
      (b <==> (exists k :: OccursAt(ToLower(it.name), ToLower(c.search), k))
              || (exists k :: OccursAt(ToLower(it.description), ToLower(c.search), k)))
  {
    match c
    case ByCategory(cat) => it.category == cat
    case AtLeast(min) => it.price >= min
    case AtMost(max) => it.price <= max
    case Mentions(q) =>
      IncludesIffOccurs(ToLower(it.name), ToLower(q));
      IncludesIffOccurs(ToLower(it.description), ToLower(q));
      Includes(ToLower(it.name), ToLower(q)) || Includes(ToLower(it.description), ToLower(q))
  }

  predicate SatisfiesAll(it: Item, cs: set<Criterion>) {
    forall c :: c in cs ==> Holds(c, it)
  }

  /** One `filtered.filter(...)` pass. */
  function Keep(s: seq<Item>, c: Criterion): (r: seq<Item>)
    ensures |r| <= |s|
    ensures forall x :: x in r <==> x in s && Holds(c, x)
  {
    if s == [] then []
    else (if Holds(c, s[0]) then [s[0]] else []) + Keep(s[1..], c)
  }

  /** The items that pass every criterion in `cs`, in their original order. */
  function SelectWhere(s: seq<Item>, cs: set<Criterion>): (r: seq<Item>)
    ensures |r| <= |s|
    ensures forall x :: x in r <==> x in s && SatisfiesAll(x, cs)
  {
    if s == [] then []
    else (if SatisfiesAll(s[0], cs) then [s[0]] else []) + SelectWhere(s[1..], cs)
  }

  /** The passes `applyFilters` runs: one per non-empty filter value. */
  function Active(f: Filters): (cs: set<Criterion>)
    ensures f.category != "" <==> ByCategory(f.category) in cs
    ensures f.minPrice.Some? ==> AtLeast(f.minPrice.value) in cs
    ensures f.maxPrice.Some? ==> AtMost(f.maxPrice.value) in cs
    ensures f.search != "" <==> Mentions(f.search) in cs
    ensures forall c :: c in cs ==>
      match c
      case ByCategory(cat) => cat == f.category && cat != ""
      case AtLeast(min) => f.minPrice == Some(min)
      case AtMost(max) => f.maxPrice == Some(max)
      case Mentions(q) => q == f.search && q != ""
  {
    (if f.category != "" then {ByCategory(f.category)} else {})
    + (if f.minPrice.Some? then {AtLeast(f.minPrice.value)} else {})
    + (if f.maxPrice.Some? then {AtMost(f.maxPrice.value)} else {})
    + (if f.search != "" then {Mentions(f.search)} else {})
  }

  /** The list the page shows. */
  function Visible(items: seq<Item>, f: Filters): seq<Item> {
    SelectWhere(items, Active(f))
  }

  /** An item matches the filters, stated field by field. */
  predicate Matches(f: Filters, it: Item) {
    && (f.category != "" ==> it.category == f.category)
    && (f.minPrice.Some? ==> it.price >= f.minPrice.value)
    && (f.maxPrice.Some? ==> it.price <= f.maxPrice.value)
    && (f.search != "" ==>
          Includes(ToLower(it.name), ToLower(f.search))
          || Includes(ToLower(it.description), ToLower(f.search)))
  }

  lemma {:induction false} SelectNothing(s: seq<Item>)
    ensures SelectWhere(s, {}) == s
  {
    if s != [] {
      SelectNothing(s[1..]);
      assert s == [s[0]] + s[1..];
    }
  }

  /** One more pass over an already filtered list is filtering by one more criterion. */
  lemma {:induction false} KeepAfterSelect(s: seq<Item>, cs: set<Criterion>, c: Criterion)
    ensures Keep(SelectWhere(s, cs), c) == SelectWhere(s, cs + {c})
  {
    if s != [] {
      KeepAfterSelect(s[1..], cs, c);
      var head := if SatisfiesAll(s[0], cs) then [s[0]] else [];
      var rest := SelectWhere(s[1..], cs);
      KeepConcat(head, rest, c);
      if SatisfiesAll(s[0], cs) {
        assert Keep(head, c) == (if Holds(c, s[0]) then [s[0]] else []) by {
          assert head[1..] == [];
        }
      }
    }
  }

  lemma {:induction false} KeepConcat(s: seq<Item>, t: seq<Item>, c: Criterion)
    ensures Keep(s + t, c) == Keep(s, c) + Keep(t, c)
  {
    if s == [] {
      assert s + t == t;
    } else {
      assert (s + t)[1..] == s[1..] + t;
      KeepConcat(s[1..], t, c);
    }
  }

  /** `applyFilters`: start from a copy of the items and narrow it once per
      active filter, in the order category, minimum, maximum, search. */
  method ApplyFilters(items: seq<Item>, f: Filters) returns (filtered: seq<Item>)
    ensures filtered == Visible(items, f)
  {
    filtered := items;
    ghost var applied: set<Criterion> := {};
    SelectNothing(items);
    if f.category != "" {
      KeepAfterSelect(items, applied, ByCategory(f.category));
      filtered := Keep(filtered, ByCategory(f.category));
      applied := applied + {ByCategory(f.category)};
    }
    if f.minPrice.Some? {
      KeepAfterSelect(items, applied, AtLeast(f.minPrice.value));
      filtered := Keep(filtered, AtLeast(f.minPrice.value));
      applied := applied + {AtLeast(f.minPrice.value)};
    }
    if f.maxPrice.Some? {
      KeepAfterSelect(items, applied, AtMost(f.maxPrice.value));
      filtered := Keep(filtered, AtMost(f.maxPrice.value));
      applied := applied + {AtMost(f.maxPrice.value)};
    }
    if f.search != "" {
      KeepAfterSelect(items, applied, Mentions(f.search));
      filtered := Keep(filtered, Mentions(f.search));
      applied := applied + {Mentions(f.search)};
    }
    assert applied == Active(f);
  }

  /** An item is shown exactly when it is in the list and matches every
      active filter: soundness and completeness in one. */
  lemma VisibleIffMatches(items: seq<Item>, f: Filters, x: Item)
    ensures x in Visible(items, f) <==> x in items && Matches(f, x)
  {
    var cs := Active(f);
    if x in items && Matches(f, x) {
      forall c | c in cs ensures Holds(c, x) { }
    }
    if x in Visible(items, f) {
      assert SatisfiesAll(x, cs);
      if f.category != "" { assert ByCategory(f.category) in cs; }
      if f.minPrice.Some? { assert AtLeast(f.minPrice.value) in cs; }
      if f.maxPrice.Some? { assert AtMost(f.maxPrice.value) in cs; }
      if f.search != "" { assert Mentions(f.search) in cs; }
    }
  }

  /** `r` is `s` with some elements dropped, the rest in their order. */
  predicate IsSubsequence(r: seq<Item>, s: seq<Item>) {
    if r == [] then true
    else if s == [] then false
    else if r[0] == s[0] then IsSubsequence(r[1..], s[1..])
    else IsSubsequence(r, s[1..])
  }

  lemma {:induction false} SelectWhereSubsequence(s: seq<Item>, cs: set<Criterion>)
    ensures IsSubsequence(SelectWhere(s, cs), s)
  {
    if s != [] {
      SelectWhereSubsequence(s[1..], cs);
      var r := SelectWhere(s, cs);
      if SatisfiesAll(s[0], cs) {
        assert r[0] == s[0] && r[1..] == SelectWhere(s[1..], cs);
      } else {
        assert r == SelectWhere(s[1..], cs);
        SubsequenceSkip(r, s[1..], s[0]);
      }
    }
  }

  /** Prepending an element to the longer sequence keeps a subsequence one. */
  lemma {:induction false} SubsequenceSkip(r: seq<Item>, s: seq<Item>, x: Item)
    requires IsSubsequence(r, s)
    ensures IsSubsequence(r, [x] + s)
    decreases |s|, 1
  {
    if r != [] && r[0] == x {
      assert ([x] + s)[1..] == s;
      SubsequenceDrop(r, s);
    } else if r != [] {
      assert ([x] + s)[1..] == s;
    }
  }

  /** Dropping the head of a subsequence keeps it a subsequence. */
  lemma {:induction false} SubsequenceDrop(r: seq<Item>, s: seq<Item>)
    requires r != [] && IsSubsequence(r, s)
    ensures IsSubsequence(r[1..], s)
    decreases |s|, 0
  {
    if r[1..] != [] {
      if r[0] == s[0] {
        SubsequenceSkip(r[1..], s[1..], s[0]);
        assert [s[0]] + s[1..] == s;
      } else {
        SubsequenceDrop(r, s[1..]);
        SubsequenceSkip(r[1..], s[1..], s[0]);
        assert [s[0]] + s[1..] == s;
      }
    }
  }

  /** The shown list keeps the items' relative order. */
  lemma VisibleIsSubsequence(items: seq<Item>, f: Filters)
    ensures IsSubsequence(Visible(items, f), items)
  {
    SelectWhereSubsequence(items, Active(f));
  }

  /** The initial and cleared filter record. */
  function ClearFilters(): (f: Filters)
    ensures Active(f) == {}
  {
    Filters("", None, None, "")
  }

  /** With every filter empty, every item is shown, in order. */
  lemma ClearedShowsAll(items: seq<Item>)
    ensures Visible(items, ClearFilters()) == items
  {
    SelectNothing(items);
  }

  /** The value a filter input writes. */
  datatype FilterChange =
    | SetCategory(category: string)
    | SetMinPrice(minPrice: Option<real>)
    | SetMaxPrice(maxPrice: Option<real>)
    | SetSearch(search: string)

  /** `handleFilterChange`: overwrite one field, keep the other three. */
  function HandleFilterChange(f: Filters, change: FilterChange): (g: Filters)
    ensures change.SetCategory? ==> g == f.(category := change.category)
    ensures change.SetMinPrice? ==> g == f.(minPrice := change.minPrice)
    ensures change.SetMaxPrice? ==> g == f.(maxPrice := change.maxPrice)
    ensures change.SetSearch? ==> g == f.(search := change.search)
  {
    match change
    case SetCategory(c) => Filters(c, f.minPrice, f.maxPrice, f.search)
    case SetMinPrice(m) => Filters(f.category, m, f.maxPrice, f.search)
    case SetMaxPrice(m) => Filters(f.category, f.minPrice, m, f.search)
    case SetSearch(q) => Filters(f.category, f.minPrice, f.maxPrice, q)
  }

  /** Setting a category narrows the shown list to that category exactly. */
  lemma CategoryChangeNarrows(items: seq<Item>, f: Filters, c: string, x: Item)
    requires c != "" && x in Visible(items, HandleFilterChange(f, SetCategory(c)))
    ensures x.category == c
  {
    VisibleIffMatches(items, HandleFilterChange(f, SetCategory(c)), x);
  }
}
