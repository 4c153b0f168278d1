/**
 * The cart route handlers. Each request loads the authenticated user's record,
 * changes `user.cart` and saves it; the model keeps every user's cart in one map
 * keyed by the user id the authentication middleware resolved.
 */
module CartRoutes {
  import opened Wrappers
  import opened CartLines
  import ItemModel

  type UserId = string

  /** The quantity `add` uses: the request's, or 1 when the body has none. */
  function AddQuantity(quantity: Option<int>): (q: int)
    ensures quantity.None? ==> q == 1
    ensures quantity.Some? ==> q == quantity.value
  {
    quantity.GetOr(1)
  }

  /** `user.cart.find(...)`: the first line for `id`, or -1. */
  method FindLine(lines: seq<Line>, id: ItemId) returns (i: int)
    ensures i == IndexOf(lines, id)
  {
    i := 0;
    while i < |lines| && lines[i].item != id
      invariant 0 <= i <= |lines|
      invariant forall k :: 0 <= k < i ==> lines[k].item != id
    {
      i := i + 1;
    }
    if i == |lines| {
      i := -1;
    }
  }

  /** `user.cart.filter(...)`: the lines not for `id`, in order. */
  method FilterOut(lines: seq<Line>, id: ItemId) returns (kept: seq<Line>)
    ensures kept == Without(lines, id)
  {
    kept := [];
    var i := 0;
    while i < |lines|
      invariant 0 <= i <= |lines|
      invariant kept == Without(lines[..i], id)
    {
      assert lines[..i + 1] == lines[..i] + [lines[i]];
      WithoutConcat(lines[..i], [lines[i]], id);
      assert [lines[i]][1..] == [];
      if lines[i].item != id {
        kept := kept + [lines[i]];
      }
      i := i + 1;
    }
    assert lines[..i] == lines;
  }

  class UserCarts {
    /** `user.cart` of every user record. */
    var carts: map<UserId, seq<Line>>

    /** Every cart has at most one line per item. */
    ghost predicate Valid()
      reads this
    {
      forall u :: u in carts ==> Unique(carts[u])
    }

    /** Every cart holds only positive quantities. */
    ghost predicate Positive()
      reads this
    {
      forall u :: u in carts ==> AllPositive(carts[u])
    }

    constructor (users: map<UserId, seq<Line>>)
      ensures carts == users
    {
      carts := users;
    }

    /** GET /: the stored lines, in order. */
    method Get(user: UserId) returns (r: Result<seq<Line>, CartError>)
      ensures user in carts ==> r == Ok(carts[user])
      ensures user !in carts ==> r == Err(ServerError)
    {
      if user !in carts {
        return Err(ServerError);
      }
      r := Ok(carts[user]);
    }

    /** POST /add: check the catalog, then merge into or append to the user's cart. */
    method Add(user: UserId, catalog: map<ItemId, ItemModel.Item>, itemId: ItemId, quantity: Option<int>)
      returns (r: Result<seq<Line>, CartError>)
      modifies this
      ensures itemId !in catalog ==> r == Err(ItemNotFound) && carts == old(carts)
      ensures itemId in catalog && user !in old(carts) ==> r == Err(ServerError) && carts == old(carts)
      ensures itemId in catalog && user in old(carts) ==>
        && carts == old(carts)[user := Merge(old(carts)[user], itemId, AddQuantity(quantity))]
        && r == Ok(carts[user])
      ensures old(Valid()) ==> Valid()
      ensures old(Positive()) && AddQuantity(quantity) > 0 ==> Positive()
    {
      var q := AddQuantity(quantity);
      if itemId !in catalog {
        return Err(ItemNotFound);
      }
      if user !in carts {
        return Err(ServerError);
      }
      var lines := carts[user];
      var i := FindLine(lines, itemId);
      if i >= 0 {
        lines := lines[i := lines[i].(quantity := lines[i].quantity + q)];
      } else {
        lines := lines + [Line(itemId, q)];
      }
      carts := carts[user := lines];
      r := Ok(lines);
      if old(Valid()) {
        MergeKeepsUnique(old(carts)[user], itemId, q);
      }
      if old(Positive()) && q > 0 {
        MergeKeepsPositive(old(carts)[user], itemId, q);
      }
    }

    /** PUT /update: not in the cart is an error; otherwise remove the line
        (quantity <= 0) or set its quantity (quantity > 0). */
    method Update(user: UserId, itemId: ItemId, quantity: int)
      returns (r: Result<seq<Line>, CartError>)
      modifies this
      ensures user !in old(carts) ==> r == Err(ServerError) && carts == old(carts)
      ensures user in old(carts) && !Contains(old(carts)[user], itemId) ==>
        r == Err(NotInCart) && carts == old(carts)
      ensures user in old(carts) && Contains(old(carts)[user], itemId) ==>
        && carts == old(carts)[user := CartLines.Update(old(carts)[user], itemId, quantity).value]
        && r == Ok(carts[user])
      ensures old(Valid()) ==> Valid()
      ensures old(Positive()) ==> Positive()
    {
      if user !in carts {
        return Err(ServerError);
      }
      var lines := carts[user];
      var i := FindLine(lines, itemId);
      if i < 0 {
        return Err(NotInCart);
      }
      if quantity <= 0 {
        lines := FilterOut(lines, itemId);
      } else {
        lines := lines[i := lines[i].(quantity := quantity)];
      }
      carts := carts[user := lines];
      r := Ok(lines);
      UpdateKeepsInvariants(old(carts)[user], itemId, quantity);
    }

    /** DELETE /remove/:itemId: filter the item out; an absent item is not an error. */
    method Remove(user: UserId, itemId: ItemId) returns (r: Result<seq<Line>, CartError>)
      modifies this
      ensures user !in old(carts) ==> r == Err(ServerError) && carts == old(carts)
      ensures user in old(carts) ==>
        && carts == old(carts)[user := Without(old(carts)[user], itemId)]
        && r == Ok(carts[user])
      ensures old(Valid()) ==> Valid()
      ensures old(Positive()) ==> Positive()
    {
      if user !in carts {
        return Err(ServerError);
      }
      var lines := FilterOut(carts[user], itemId);
      carts := carts[user := lines];
      r := Ok(lines);
      if old(Valid()) {
        WithoutKeepsUnique(old(carts)[user], itemId);
      }
      if old(Positive()) {
        WithoutKeepsPositive(old(carts)[user], itemId);
      }
    }
  }

  /**
   * A client of the routes: a user whose cart does not yet hold `id` adds 2,
   * sets 5, then adds 1 more, and sees exactly one line for `id` with quantity 6.
   * Another user's cart is untouched throughout.
   */
  method AddUpdateAddSession(user: UserId, other: UserId, id: ItemId, item: ItemModel.Item,
                             start: seq<Line>, otherStart: seq<Line>)
    returns (lines: seq<Line>, otherLines: seq<Line>)
    requires user != other && !Contains(start, id)
    ensures lines == start + [Line(id, 6)]
    ensures otherLines == otherStart
  {
    var store := new UserCarts(map[user := start, other := otherStart]);
    var s1, s2 := start + [Line(id, 2)], start + [Line(id, 5)];
    MergeNew(start, id, 2);
    var r := store.Add(user, map[id := item], id, Some(2));
    assert store.carts[user] == s1;
    assert s1[|start|].item == id;
    assert IndexOf(s1, id) == |start|;
    assert CartLines.Update(s1, id, 5).value == s2;
    r := store.Update(user, id, 5);
    assert store.carts[user] == s2;
    assert s2[|start|].item == id;
    assert IndexOf(s2, id) == |start|;
    assert Merge(s2, id, 1) == start + [Line(id, 6)];
    r := store.Add(user, map[id := item], id, Some(1));
    lines, otherLines := store.carts[user], store.carts[other];
  }
}
