/**
 * The value-level semantics of a user's cart: an insertion-ordered sequence of
 * (item id, quantity) lines, and the three ways the cart routes change it.
 * The stateful route handlers in module CartRoutes are proved against these functions.
 */
module CartLines {
  import opened Wrappers

  /** Item ids are compared as strings (`cartItem.item.toString() === itemId`). */
  type ItemId = string

  /** One entry of `user.cart`. */
  datatype Line = Line(item: ItemId, quantity: int)

  /** The errors a cart route answers with. */
  datatype CartError =
    | ItemNotFound   // 404 "Item not found": the id is not in the catalog
    | NotInCart      // 404 "Item not found in cart": the cart has no line for the id
    | ServerError    // 500 "Server error": the user record could not be loaded

  function Status(e: CartError): (code: int)
    ensures code == 404 || code == 500
    ensures code == 500 <==> e == ServerError
  {
    match e
    case ItemNotFound => 404
    case NotInCart => 404
    case ServerError => 500
  }

  /** The `message` of the error response: both 404 answers begin "Item not found". */
  function Message(e: CartError): (m: string)
    ensures Status(e) == 404 <==> "Item not found" <= m
  {
    match e
    case ItemNotFound => "Item not found"
    case NotInCart => "Item not found in cart"
    case ServerError => "Server error"
  }

  /** Messages keep the two 404 conditions apart. */
  lemma MessagesDistinct(e1: CartError, e2: CartError)
    requires e1 != e2
    ensures Message(e1) != Message(e2)
  {
    assert Message(ItemNotFound) != Message(NotInCart) by {
      assert |Message(ItemNotFound)| != |Message(NotInCart)|;
    }
    assert Message(ItemNotFound)[0] != Message(ServerError)[0];
    assert Message(NotInCart)[0] != Message(ServerError)[0];
  }

  /** The cart has a line for `id`. */
  predicate Contains(s: seq<Line>, id: ItemId) {
    exists k :: 0 <= k < |s| && s[k].item == id
  }

  /** At most one line per item id: the invariant merge-on-add is meant to keep. */
  predicate Unique(s: seq<Line>) {
    forall i, j :: 0 <= i < j < |s| ==> s[i].item != s[j].item
  }

  /** No line with a quantity of zero or less. */
  predicate AllPositive(s: seq<Line>) {
    forall k :: 0 <= k < |s| ==> s[k].quantity > 0
  }

  /** Index of the first line for `id`, or -1 (what `Array.prototype.find` locates). */
  function IndexOf(s: seq<Line>, id: ItemId): (i: int)
    ensures -1 <= i < |s|
    ensures i == -1 <==> !Contains(s, id)
    ensures 0 <= i ==> s[i].item == id && forall k :: 0 <= k < i ==> s[k].item != id
  {
    if s == [] then -1
    else if s[0].item == id then 0
    else
      var j := IndexOf(s[1..], id);
      if j == -1 then
        assert forall k :: 1 <= k < |s| ==> s[k] == s[1..][k - 1];
        -1
      else j + 1
  }

  /** With one line per item, each line is the one `find` locates for its id. */
  lemma IndexOfUnique(s: seq<Line>, i: int)
    requires Unique(s) && 0 <= i < |s|
    ensures IndexOf(s, s[i].item) == i
  {
    assert Contains(s, s[i].item);
  }

  /** The quantity of the line for `id`, 0 when the cart has none. */
  function QuantityOf(s: seq<Line>, id: ItemId): int {
    var i := IndexOf(s, id);
    if i < 0 then 0 else s[i].quantity
  }

  /** The merge step of `add`: increment the existing line, or append a new one. */
  function Merge(s: seq<Line>, id: ItemId, q: int): (r: seq<Line>)
    ensures Contains(r, id)
    ensures |r| == if Contains(s, id) then |s| else |s| + 1
    ensures forall k :: 0 <= k < |s| && s[k].item != id ==> r[k] == s[k]
  {
    var i := IndexOf(s, id);
    if 0 <= i then
      var r := s[i := s[i].(quantity := s[i].quantity + q)];
      assert r[i].item == id;
      r
    else
      var r := s + [Line(id, q)];
      assert r[|s|].item == id;
      r
  }

  /** The lines left after filtering out every line for `id`, in their order. */
  function Without(s: seq<Line>, id: ItemId): (r: seq<Line>)
    ensures |r| <= |s|
    ensures forall l :: l in r <==> l in s && l.item != id
    ensures !Contains(r, id)
  {
    if s == [] then []
    else if s[0].item == id then Without(s[1..], id)
    else [s[0]] + Without(s[1..], id)
  }

  /** The effect of `update` on the lines: not in the cart is an error,
      a quantity of zero or less removes the line, a positive one replaces it. */
  function Update(s: seq<Line>, id: ItemId, q: int): (r: Result<seq<Line>, CartError>)
    ensures r.Err? <==> !Contains(s, id)
    ensures r.Err? ==> r.error == NotInCart
  {
    var i := IndexOf(s, id);
    if i < 0 then Err(NotInCart)
    else if q <= 0 then Ok(Without(s, id))
    else Ok(s[i := s[i].(quantity := q)])
  }

  // ---------------------------------------------------------------------
  // add

  /** Adding to an existing line changes only that line, by exactly `q`. */
  lemma MergeExisting(s: seq<Line>, id: ItemId, q: int)
    requires Contains(s, id)
    ensures var r, i := Merge(s, id, q), IndexOf(s, id);
      && |r| == |s|
      && r[i] == Line(id, s[i].quantity + q)
      && (forall k :: 0 <= k < |s| && k != i ==> r[k] == s[k])
  {
  }

  /** Adding a new item appends exactly one line and keeps all earlier ones. */
  lemma MergeNew(s: seq<Line>, id: ItemId, q: int)
    requires !Contains(s, id)
    ensures Merge(s, id, q) == s + [Line(id, q)]
  {
  }

  /** Adding q1 and then q2 is adding q1 + q2: the increments accumulate. */
  lemma MergeTwice(s: seq<Line>, id: ItemId, q1: int, q2: int)
    ensures Merge(Merge(s, id, q1), id, q2) == Merge(s, id, q1 + q2)
    ensures QuantityOf(Merge(Merge(s, id, q1), id, q2), id) == QuantityOf(s, id) + q1 + q2
  {
    var t := Merge(s, id, q1);
    MergeIndex(s, id, q1);
    MergeIndex(t, id, q2);
    var i := IndexOf(s, id);
    if 0 <= i {
      assert t == s[i := Line(id, s[i].quantity + q1)];
      assert IndexOf(t, id) == i;
      assert Merge(t, id, q2) == s[i := Line(id, s[i].quantity + q1 + q2)];
    } else {
      assert t == s + [Line(id, q1)];
      assert IndexOf(t, id) == |s|;
      assert Merge(t, id, q2) == s + [Line(id, q1 + q2)];
    }
  }

  /** After a merge the line for `id` is found where it was, or at the end. */
  lemma MergeIndex(s: seq<Line>, id: ItemId, q: int)
    ensures var r := Merge(s, id, q);
      && IndexOf(r, id) == (if Contains(s, id) then IndexOf(s, id) else |s|)
      && QuantityOf(r, id) == QuantityOf(s, id) + q
  {
    var r := Merge(s, id, q);
    var i := IndexOf(r, id);
    if Contains(s, id) {
      var j := IndexOf(s, id);
      assert r[j].item == id;
      assert i == j;
    } else {
      assert r[|s|].item == id;
      assert i == |s|;
    }
  }

  lemma MergeKeepsUnique(s: seq<Line>, id: ItemId, q: int)
    requires Unique(s)
    ensures Unique(Merge(s, id, q))
  {
    var r := Merge(s, id, q);
    forall i, j | 0 <= i < j < |r| ensures r[i].item != r[j].item {
      if !Contains(s, id) && j == |s| {
        assert s[i].item != id;
      }
    }
  }

  /** With a positive amount, no line drops to zero or below. */
  lemma MergeKeepsPositive(s: seq<Line>, id: ItemId, q: int)
    requires AllPositive(s) && q > 0
    ensures AllPositive(Merge(s, id, q))
  {
  }

  /** The source does not check the amount: a non-positive amount can create a
      line whose quantity is not positive. */
  lemma MergeNonPositiveBreaksPositivity(s: seq<Line>, id: ItemId, q: int)
    requires !Contains(s, id) && q <= 0
    ensures !AllPositive(Merge(s, id, q))
  {
    assert Merge(s, id, q)[|s|].quantity == q;
  }

  // ---------------------------------------------------------------------
  // remove (filter)

  /** Filtering distributes over concatenation: the kept lines stay in order. */
  lemma {:induction false} WithoutConcat(s: seq<Line>, t: seq<Line>, id: ItemId)
    ensures Without(s + t, id) == Without(s, id) + Without(t, id)
  {
    if s == [] {
      assert s + t == t;
    } else {
      assert (s + t)[1..] == s[1..] + t;
      WithoutConcat(s[1..], t, id);
    }
  }

  /** Removing an absent item changes nothing. */
  lemma {:induction false} WithoutAbsent(s: seq<Line>, id: ItemId)
    requires !Contains(s, id)
    ensures Without(s, id) == s
  {
    if s != [] {
      assert !Contains(s[1..], id) by {
        forall k | 0 <= k < |s[1..]| ensures s[1..][k].item != id {
          assert s[1..][k] == s[k + 1];
        }
      }
      WithoutAbsent(s[1..], id);
      assert s == [s[0]] + s[1..];
    }
  }

  /** Removing twice is removing once. */
  lemma WithoutIdempotent(s: seq<Line>, id: ItemId)
    ensures Without(Without(s, id), id) == Without(s, id)
  {
    WithoutAbsent(Without(s, id), id);
  }

  /** On a cart with one line per item, removing `id` deletes exactly its position. */
  lemma {:induction false} WithoutAt(s: seq<Line>, i: int)
    requires Unique(s) && 0 <= i < |s|
    ensures Without(s, s[i].item) == s[..i] + s[i + 1..]
  {
    var id := s[i].item;
    var before, after := s[..i], s[i + 1..];
    assert s == before + ([s[i]] + after);
    assert !Contains(before, id) by {
      forall k | 0 <= k < |before| ensures before[k].item != id {
        assert before[k] == s[k];
      }
    }
    assert !Contains(after, id) by {
      forall k | 0 <= k < |after| ensures after[k].item != id {
        assert after[k] == s[i + 1 + k];
      }
    }
    WithoutAbsent(before, id);
    WithoutAbsent(after, id);
    assert Without([s[i]] + after, id) == Without(after, id) by {
      assert ([s[i]] + after)[1..] == after;
    }
    WithoutConcat(before, [s[i]] + after, id);
  }

  lemma {:induction false} WithoutKeepsUnique(s: seq<Line>, id: ItemId)
    requires Unique(s)
    ensures Unique(Without(s, id))
  {
    if s != [] {
      var t := s[1..];
      assert Unique(t) by {
        forall i, j | 0 <= i < j < |t| ensures t[i].item != t[j].item {
          assert t[i] == s[i + 1] && t[j] == s[j + 1];
        }
      }
      WithoutKeepsUnique(t, id);
      if s[0].item != id {
        var r := Without(t, id);
        forall k | 0 <= k < |r| ensures r[k].item != s[0].item {
          assert r[k] in t;
          var m :| 0 <= m < |t| && t[m] == r[k];
          assert t[m] == s[m + 1];
        }
      }
    }
  }

  lemma WithoutKeepsPositive(s: seq<Line>, id: ItemId)
    requires AllPositive(s)
    ensures AllPositive(Without(s, id))
  {
    var r := Without(s, id);
    forall k | 0 <= k < |r| ensures r[k].quantity > 0 {
      assert r[k] in s;
    }
  }

  // ---------------------------------------------------------------------
  // update

  /** A non-positive quantity removes the line, keeping the others in order. */
  lemma UpdateNonPositive(s: seq<Line>, id: ItemId, q: int)
    requires Contains(s, id) && q <= 0
    ensures Update(s, id, q) == Ok(Without(s, id))
    ensures !Contains(Update(s, id, q).value, id)
  {
  }

  /** A positive quantity replaces the stored one, whatever it was, and touches nothing else. */
  lemma UpdatePositive(s: seq<Line>, id: ItemId, q: int)
    requires Contains(s, id) && q > 0
    ensures Update(s, id, q).Ok?
    ensures var r, i := Update(s, id, q).value, IndexOf(s, id);
      && |r| == |s|
      && r[i] == Line(id, q)
      && (forall k :: 0 <= k < |s| && k != i ==> r[k] == s[k])
      && QuantityOf(r, id) == q
  {
    var r, i := Update(s, id, q).value, IndexOf(s, id);
    assert r[i].item == id;
    assert IndexOf(r, id) == i;
  }

  /** Update keeps one line per item, and leaves no line with a non-positive quantity. */
  lemma UpdateKeepsInvariants(s: seq<Line>, id: ItemId, q: int)
    requires Update(s, id, q).Ok?
    ensures Unique(s) ==> Unique(Update(s, id, q).value)
    ensures AllPositive(s) ==> AllPositive(Update(s, id, q).value)
  {
    if q <= 0 {
      if Unique(s) { WithoutKeepsUnique(s, id); }
      if AllPositive(s) { WithoutKeepsPositive(s, id); }
    }
  }

  /**
   * add(id, 2), update(id, 5), add(id, 1) on a cart with one line per item,
   * where `id` is in the catalog, ends with exactly one line for `id`, of quantity 6.
   */
  lemma AddUpdateAddScenario(s: seq<Line>, id: ItemId)
    requires Unique(s)
    ensures var s1 := Merge(s, id, 2);
      && Update(s1, id, 5).Ok?
      && var s3 := Merge(Update(s1, id, 5).value, id, 1);
      && Unique(s3) && Contains(s3, id) && QuantityOf(s3, id) == 6
  {
    var s1 := Merge(s, id, 2);
    MergeIndex(s, id, 2);
    MergeKeepsUnique(s, id, 2);
    assert Contains(s1, id);
    UpdatePositive(s1, id, 5);
    UpdateKeepsInvariants(s1, id, 5);
    var s2 := Update(s1, id, 5).value;
    MergeIndex(s2, id, 1);
    MergeKeepsUnique(s2, id, 1);
  }
}
