/**
 * The stocks blueprint: adding a stock, listing the current user's stocks and
 * showing one stock, behind `login_required` and `email_confirmation_required`.
 */
module StockRoutes {
  import opened Basics
  import opened Web
  import opened Models
  import opened StockForm

  /**
   * `email_confirmation_required`: the answer given instead of running the
   * wrapped view, or None when the view runs.
   */
  function EmailConfirmationRequired(user: User): (gate: Option<Response>)
    reads user
    ensures gate == None <==> user.emailConfirmed
    ensures gate.Some? ==> gate.value == Redirect(Route(UserProfile))
  {
    if !user.emailConfirmed then Some(Redirect(Route(UserProfile))) else None
  }

  predicate IdsAscending(stocks: seq<Stock>) {
    forall i, j :: 0 <= i < j < |stocks| ==> stocks[i].id < stocks[j].id
  }

  /** `filter_by(user_id=uid)` over the table, keeping the table's order. */
  function OwnedBy(stocks: seq<Stock>, uid: nat): (owned: seq<Stock>)
    ensures forall s :: s in owned <==> s in stocks && s.userId == uid
  {
    if stocks == [] then []
    else (if stocks[0].userId == uid then [stocks[0]] else []) + OwnedBy(stocks[1..], uid)
  }

  /** Filtering a table in id order leaves it in id order. */
  lemma {:induction false} OwnedByAscending(stocks: seq<Stock>, uid: nat)
    requires IdsAscending(stocks)
    ensures IdsAscending(OwnedBy(stocks, uid))
  {
    if stocks != [] {
      var tail := stocks[1..];
      assert IdsAscending(tail);
      OwnedByAscending(tail, uid);
      var rest := OwnedBy(tail, uid);
      forall s | s in rest
        ensures stocks[0].id < s.id
      {
        var k :| 0 <= k < |tail| && tail[k] == s;
        assert s == stocks[k + 1];
      }
    }
  }

  /**
   * Two sequences in strictly ascending id order that hold the same stocks are
   * the same sequence: "these stocks, ordered by id" has one answer.
   */
  lemma SameMembersSameEmptiness(a: seq<Stock>, b: seq<Stock>)
    requires forall s :: s in a <==> s in b
    ensures a == [] <==> b == []
  {
    if a != [] {
      assert a[0] in b;
    }
    if b != [] {
      assert b[0] in a;
    }
  }

  lemma {:induction false} AscendingUnique(a: seq<Stock>, b: seq<Stock>)
    requires IdsAscending(a) && IdsAscending(b)
    requires forall s :: s in a <==> s in b
    ensures a == b
    decreases |a|
  {
    SameMembersSameEmptiness(a, b);
    if a != [] {
      assert a[0] in b;
      assert b[0] in a;
      var i :| 0 <= i < |b| && b[i] == a[0];
      var j :| 0 <= j < |a| && a[j] == b[0];
      assert a[0].id <= a[j].id;
      assert b[0].id <= b[i].id;
      assert i == 0;
      forall s
        ensures s in a[1..] <==> s in b[1..]
      {
        if s in a[1..] {
          var k :| 1 <= k < |a| && a[k] == s;
          assert a[0].id < s.id;
          assert s in b;
          var m :| 0 <= m < |b| && b[m] == s;
          assert m != 0;
          assert b[1..][m - 1] == s;
        }
        if s in b[1..] {
          var k :| 1 <= k < |b| && b[k] == s;
          assert b[0].id < s.id;
          assert s in a;
          var m :| 0 <= m < |a| && a[m] == s;
          assert m != 0;
          assert a[1..][m - 1] == s;
        }
      }
      AscendingUnique(a[1..], b[1..]);
      assert a == [a[0]] + a[1..];
      assert b == [b[0]] + b[1..];
    }
  }

  /** `Stock.query.filter_by(id=id).first()`. */
  function FindStock(stocks: seq<Stock>, id: nat): (found: Option<Stock>)
    ensures found.Some? ==> found.value in stocks && found.value.id == id
    ensures found.None? ==> forall i :: 0 <= i < |stocks| ==> stocks[i].id != id
  {
    if stocks == [] then None
    else if stocks[0].id == id then Some(stocks[0])
    else FindStock(stocks[1..], id)
  }

  class Portfolio {
    var stocks: seq<Stock>   // the stocks table, in the order rows were committed
    var nextId: nat          // the next primary key the database hands out

    /** Committed ids only grow, so the table is in id order. */
    ghost predicate Valid()
      reads this
    {
      IdsAscending(stocks) && forall i :: 0 <= i < |stocks| ==> stocks[i].id < nextId
    }

    constructor ()
      ensures Valid() && stocks == []
    {
      stocks, nextId := [], 0;
    }

    /**
     * `add_stock`: for a signed-in, confirmed user, a POST whose fields
     * validate commits exactly one stock owned by that user and redirects to
     * the list; every other path leaves the table as it was.
     */
    method AddStock(current: User?, isPost: bool, form: map<string, string>, toFloat: string -> Option<real>)
      returns (r: Response)
      requires Valid()
      requires current != null ==> current.id.Some?
      modifies this
      ensures Valid()
      ensures current == null ==> r == Unauthorized && stocks == old(stocks)
      ensures current != null && !current.emailConfirmed ==>
        r == Redirect(Route(UserProfile)) && stocks == old(stocks)
      ensures current != null && current.emailConfirmed && !isPost ==>
        r == Render(AddStockPage) && stocks == old(stocks)
      ensures current != null && current.emailConfirmed && isPost && !HasStockFields(form) ==>
        r == Abort(400) && stocks == old(stocks)
      ensures current != null && current.emailConfirmed && isPost && HasStockFields(form) && ParseStockForm(form, toFloat).Err? ==>
        r == Render(AddStockPage) && stocks == old(stocks)
      ensures current != null && current.emailConfirmed && isPost && HasStockFields(form) && ParseStockForm(form, toFloat).Ok? ==>
        var data := ParseStockForm(form, toFloat).value;
        if "purchase_date" in form then
          && r == Redirect(Route(Endpoint.ListStocks))
          && stocks == old(stocks) + [NewStock(old(nextId), data.stockSymbol, data.numberOfShares, data.purchasePrice, current.id.value)]
        else
          r == Abort(400) && stocks == old(stocks)
    {
      if current == null {
        return Unauthorized;
      }
      var gate := EmailConfirmationRequired(current);
      if gate.Some? {
        return gate.value;
      }
      if !isPost {
        return Render(AddStockPage);
      }
      if !HasStockFields(form) {
        return Abort(400);
      }
      var parsed := ParseStockForm(form, toFloat);
      if parsed.Err? {
        return Render(AddStockPage);
      }
      if "purchase_date" !in form {
        return Abort(400);
      }
      var data := parsed.value;
      stocks := stocks + [NewStock(nextId, data.stockSymbol, data.numberOfShares, data.purchasePrice, current.id.value)];
      nextId := nextId + 1;
      r := Redirect(Route(Endpoint.ListStocks));
    }

    /**
     * `list_stocks`: for a signed-in, confirmed user, exactly that user's
     * stocks in ascending id order.
     */
    function ListStocks(current: User?): (out: (Response, seq<Stock>))
      reads this, current
      requires Valid()
      requires current != null ==> current.id.Some?
      ensures current == null ==> out == (Unauthorized, [])
      ensures current != null && !current.emailConfirmed ==> out == (Redirect(Route(UserProfile)), [])
      ensures current != null && current.emailConfirmed ==>
        && out.0 == Render(StocksPage)
        && (forall s :: s in out.1 <==> s in stocks && s.userId == current.id.value)
        && IdsAscending(out.1)
    {
      if current == null then (Unauthorized, [])
      else match EmailConfirmationRequired(current)
        case Some(r) => (r, [])
        case None =>
          OwnedByAscending(stocks, current.id.value);
          (Render(StocksPage), OwnedBy(stocks, current.id.value))
    }

    /**
     * `stock_details`: a stock is rendered only for its owner; another
     * user's stock is refused with 403 and a missing one with 404.
     */
    function StockDetails(id: nat, current: User?): (r: Response)
      reads this, current
      requires current != null ==> current.id.Some?
      ensures current == null ==> r == Unauthorized
      ensures current != null && !current.emailConfirmed ==> r == Redirect(Route(UserProfile))
      ensures current != null && current.emailConfirmed ==>
        && (r == Abort(404) <==> forall i :: 0 <= i < |stocks| ==> stocks[i].id != id)
        && (r == Render(StockDetailsPage) ==>
              exists i :: 0 <= i < |stocks| && stocks[i].id == id && stocks[i].userId == current.id.value)
        && (r == Abort(403) ==>
              exists i :: 0 <= i < |stocks| && stocks[i].id == id && stocks[i].userId != current.id.value)
        && (r == Render(StockDetailsPage) || r == Abort(403) || r == Abort(404))
    {
      if current == null then Unauthorized
      else match EmailConfirmationRequired(current)
        case Some(gate) => gate
        case None =>
          match FindStock(stocks, id)
          case None => Abort(404)
          case Some(stock) =>
            if stock.userId != current.id.value then Abort(403) else Render(StockDetailsPage)
    }
  }

  /** The listing is the one sequence of the user's stocks in ascending id order. */
  lemma ListingIsTheOrderedSelection(p: Portfolio, current: User, listed: seq<Stock>)
    requires p.Valid() && current.id.Some? && current.emailConfirmed
    requires IdsAscending(listed)
    requires forall s :: s in listed <==> s in p.stocks && s.userId == current.id.value
    ensures p.ListStocks(current).1 == listed
  {
    AscendingUnique(p.ListStocks(current).1, listed);
  }
}
