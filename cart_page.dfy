/**
 * The cart page's decisions: which request a quantity change sends, what the
 * stepper and Remove buttons ask for, and the item count shown in the summary.
 */
module CartPage {
  import opened Wrappers
  import opened CartLines

  /** The two requests the page sends for a line. */
  datatype Request =
    | RemoveRequest(itemId: ItemId)                 // DELETE /cart/remove/:itemId
    | UpdateRequest(itemId: ItemId, quantity: int)  // PUT /cart/update { itemId, quantity }

  /** `updateQuantity`: a quantity of zero or less removes the line, anything
      else sets that absolute quantity. */
  function QuantityRequest(itemId: ItemId, newQuantity: int): (r: Request)
    ensures r.itemId == itemId
    ensures r.RemoveRequest? <==> newQuantity <= 0
    ensures r.UpdateRequest? ==> r.quantity == newQuantity && r.quantity > 0
  {
    if newQuantity <= 0 then RemoveRequest(itemId) else UpdateRequest(itemId, newQuantity)
  }

  /** The − button asks for one less. */
  function DecrementRequest(line: Line): (r: Request)
    ensures line.quantity <= 1 ==> r == RemoveRequest(line.item)
    ensures line.quantity > 1 ==> r == UpdateRequest(line.item, line.quantity - 1)
  {
    QuantityRequest(line.item, line.quantity - 1)
  }

  /** The + button asks for one more. */
  function IncrementRequest(line: Line): (r: Request)
    ensures line.quantity >= 0 ==> r == UpdateRequest(line.item, line.quantity + 1)
    ensures line.quantity < 0 ==> r == RemoveRequest(line.item)
  {
    QuantityRequest(line.item, line.quantity + 1)
  }

  /** The Remove button always removes, whatever the quantity. */
  function RemoveButtonRequest(line: Line): (r: Request)
    ensures r.RemoveRequest? && r.itemId == line.item
  {
    RemoveRequest(line.item)
  }

  /** What the server's routes make of a request on the user's lines. */
  function Serve(req: Request, s: seq<Line>): (r: Result<seq<Line>, CartError>)
    ensures req.RemoveRequest? ==> r.Ok? && !Contains(r.value, req.itemId)
    ensures req.UpdateRequest? ==> (r.Err? <==> !Contains(s, req.itemId))
  {
    match req
    case RemoveRequest(id) => Ok(Without(s, id))
    case UpdateRequest(id, q) => Update(s, id, q)
  }

  /** The page never sends the update route a quantity of zero or less, and for
      a line in the cart its choice of route does what the update route alone
      would do with the same quantity. */
  lemma QuantityRequestAgreesWithUpdate(s: seq<Line>, id: ItemId, q: int)
    requires Contains(s, id)
    ensures Serve(QuantityRequest(id, q), s) == Update(s, id, q)
  {
  }

  /** Any request the page sends keeps a cart free of non-positive lines. */
  lemma ServeKeepsPositive(s: seq<Line>, id: ItemId, q: int)
    requires AllPositive(s)
    requires Serve(QuantityRequest(id, q), s).Ok?
    ensures AllPositive(Serve(QuantityRequest(id, q), s).value)
  {
    if q <= 0 {
      WithoutKeepsPositive(s, id);
    } else {
      UpdateKeepsInvariants(s, id, q);
    }
  }

  /** `getTotalItems`: the left-to-right sum of the line quantities. */
  function TotalItems(lines: seq<Line>): (n: int)
    ensures lines == [] ==> n == 0
    ensures AllPositive(lines) ==> n >= |lines|
  {
    if lines == [] then 0
    else TotalItems(lines[..|lines| - 1]) + lines[|lines| - 1].quantity
  }

  lemma {:induction false} TotalItemsConcat(s: seq<Line>, t: seq<Line>)
    ensures TotalItems(s + t) == TotalItems(s) + TotalItems(t)
  {
    if t != [] {
      assert (s + t)[..|s + t| - 1] == s + t[..|t| - 1];
      TotalItemsConcat(s, t[..|t| - 1]);
    } else {
      assert s + t == s;
    }
  }

  /** Replacing one line changes the count by the difference of the quantities. */
  lemma TotalItemsReplace(s: seq<Line>, i: int, l: Line)
    requires 0 <= i < |s|
    ensures TotalItems(s[i := l]) == TotalItems(s) - s[i].quantity + l.quantity
  {
    assert s == s[..i] + [s[i]] + s[i + 1..];
    assert s[i := l] == s[..i] + [l] + s[i + 1..];
    TotalItemsConcat(s[..i] + [s[i]], s[i + 1..]);
    TotalItemsConcat(s[..i], [s[i]]);
    TotalItemsConcat(s[..i] + [l], s[i + 1..]);
    TotalItemsConcat(s[..i], [l]);
    assert TotalItems([s[i]]) == s[i].quantity by { assert [s[i]][..0] == []; }
    assert TotalItems([l]) == l.quantity by { assert [l][..0] == []; }
  }

  /** Removing a line from a cart with one line per item lowers the count by its quantity. */
  lemma TotalItemsWithout(s: seq<Line>, i: int)
    requires Unique(s) && 0 <= i < |s|
    ensures TotalItems(Without(s, s[i].item)) == TotalItems(s) - s[i].quantity
  {
    WithoutAt(s, i);
    var before, after := s[..i], s[i + 1..];
    assert s == before + [s[i]] + after;
    TotalItemsConcat(before + [s[i]], after);
    TotalItemsConcat(before, [s[i]]);
    TotalItemsConcat(before, after);
    assert TotalItems([s[i]]) == s[i].quantity by { assert [s[i]][..0] == []; }
  }

  /** On a cart with one line per item and positive quantities, the − button
      lowers the item count by exactly one (removing the line at quantity 1). */
  lemma DecrementCountsDown(s: seq<Line>, i: int)
    requires Unique(s) && AllPositive(s) && 0 <= i < |s|
    ensures Serve(DecrementRequest(s[i]), s).Ok?
    ensures TotalItems(Serve(DecrementRequest(s[i]), s).value) == TotalItems(s) - 1
    ensures s[i].quantity == 1 ==> !Contains(Serve(DecrementRequest(s[i]), s).value, s[i].item)
  {
    var id := s[i].item;
    IndexOfUnique(s, i);
    if s[i].quantity == 1 {
      assert DecrementRequest(s[i]) == RemoveRequest(id);
      TotalItemsWithout(s, i);
    } else {
      var l := s[i].(quantity := s[i].quantity - 1);
      assert DecrementRequest(s[i]) == UpdateRequest(id, l.quantity);
      assert Update(s, id, l.quantity) == Ok(s[i := l]);
      TotalItemsReplace(s, i, l);
    }
  }

  /** The + button raises the item count by exactly one. */
  lemma IncrementCountsUp(s: seq<Line>, i: int)
    requires Unique(s) && 0 <= i < |s| && s[i].quantity >= 0
    ensures Serve(IncrementRequest(s[i]), s).Ok?
    ensures TotalItems(Serve(IncrementRequest(s[i]), s).value) == TotalItems(s) + 1
  {
    var id := s[i].item;
    IndexOfUnique(s, i);
    var l := s[i].(quantity := s[i].quantity + 1);
    assert IncrementRequest(s[i]) == UpdateRequest(id, l.quantity);
    assert Update(s, id, l.quantity) == Ok(s[i := l]);
    TotalItemsReplace(s, i, l);
  }
}
