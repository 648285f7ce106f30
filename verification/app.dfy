/**
 * The single-module version of the application in `app.py`: its `add_stock`
 * view validates the form with `StockModel` and keeps the result in the
 * Flask session instead of the database.
 */
module App {
  import opened Basics
  import opened Web
  import opened StockForm

  datatype SessionValue = Text(text: string) | Integer(integer: int) | Float(number: real)

  class Session {
    var values: map<string, SessionValue>   // Flask's `session` dictionary

    constructor ()
      ensures values == map[]
    {
      values := map[];
    }

    /**
     * `add_stock`: a POST whose fields validate writes exactly the three
     * validated values into the session and redirects to the list; a GET or a
     * form that does not validate renders the form again and leaves the session
     * as it was; a POST missing a field is refused with 400.
     */
    method AddStock(isPost: bool, form: map<string, string>, toFloat: string -> Option<real>) returns (r: Response)
      modifies this
      ensures !isPost ==> r == Render(AddStockPage) && values == old(values)
      ensures isPost && !HasStockFields(form) ==> r == Abort(400) && values == old(values)
      ensures isPost && HasStockFields(form) && ParseStockForm(form, toFloat).Err? ==>
        r == Render(AddStockPage) && values == old(values)
      ensures isPost && HasStockFields(form) && ParseStockForm(form, toFloat).Ok? ==>
        var data := ParseStockForm(form, toFloat).value;
        && r == Redirect(Route(Endpoint.ListStocks))
        && values == old(values)["stock_symbol" := Text(data.stockSymbol)]
                                ["number_of_shares" := Integer(data.numberOfShares)]
                                ["purchase_price" := Float(data.purchasePrice)]
    {
      if !isPost {
        return Render(AddStockPage);
      }
      if !HasStockFields(form) {
        return Abort(400);
      }
      var parsed := ParseStockForm(form, toFloat);
      if parsed.Err? {
        return Render(AddStockPage);
      }
      var data := parsed.value;
      values := values["stock_symbol" := Text(data.stockSymbol)];
      values := values["number_of_shares" := Integer(data.numberOfShares)];
      values := values["purchase_price" := Float(data.purchasePrice)];
      r := Redirect(Route(Endpoint.ListStocks));
    }
  }

  /**
   * What a successful `add_stock` leaves in the session for the form of the
   * unit test: symbol "SBUX" and 100 shares.
   */
  method NominalSession(toFloat: string -> Option<real>) returns (s: Session)
    requires toFloat("45.67") == Some(45.67)
    ensures s.values == map["stock_symbol" := Text("SBUX"), "number_of_shares" := Integer(100), "purchase_price" := Float(45.67)]
  {
    s := new Session();
    NominalForm(toFloat);
    var form := map["stock_symbol" := "SBUX", "number_of_shares" := "100", "purchase_price" := "45.67"];
    assert ParseStockForm(form, toFloat) == Ok(StockData("SBUX", 100, 45.67));
    var r := s.AddStock(true, form, toFloat);
  }
}
