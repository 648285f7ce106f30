/**
 * `StockModel`, the pydantic model both `app.py` and the stocks blueprint use
 * to parse the add-stock form, with its `stock_symbol_check` validator.
 * Letters are ASCII letters here.
 */
module StockForm {
  import opened Basics
  import Decimal

  predicate IsLetter(c: char) {
    'a' <= c <= 'z' || 'A' <= c <= 'Z'
  }

  predicate IsUpperLetter(c: char) {
    'A' <= c <= 'Z'
  }

  /** `str.isalpha()`: at least one character, and every character a letter. */
  predicate IsAlpha(s: string) {
    |s| > 0 && forall i :: 0 <= i < |s| ==> IsLetter(s[i])
  }

  function UpperChar(c: char): (u: char)
    ensures IsLetter(c) ==> IsUpperLetter(u)
    ensures IsUpperLetter(c) ==> u == c
    ensures !('a' <= c <= 'z') ==> u == c
  {
    if 'a' <= c <= 'z' then (c as int - 'a' as int + 'A' as int) as char else c
  }

  /** `str.upper()`, character by character. */
  function Upper(s: string): (u: string)
    ensures |u| == |s| && forall i :: 0 <= i < |s| ==> u[i] == UpperChar(s[i])
  {
    seq(|s|, i requires 0 <= i < |s| => UpperChar(s[i]))
  }

  const SymbolError := "Stock symbol must be 1-5 characters"

  /**
   * `stock_symbol_check`: accepts exactly the strings of one to five letters,
   * and returns them upper-cased.
   */
  function StockSymbolCheck(value: string): (r: Result<string, string>)
    ensures r.Ok? <==> 0 < |value| <= 5 && forall i :: 0 <= i < |value| ==> IsLetter(value[i])
    ensures r.Ok? ==> |r.value| == |value| && forall i :: 0 <= i < |value| ==> r.value[i] == UpperChar(value[i])
    ensures r.Ok? ==> forall i :: 0 <= i < |r.value| ==> IsUpperLetter(r.value[i])
    ensures r.Err? ==> r.error == SymbolError
  {
    if !IsAlpha(value) || |value| > 5 then Err(SymbolError) else Ok(Upper(value))
  }

  /** Validating a validated symbol gives it back unchanged. */
  lemma SymbolCheckIdempotent(value: string)
    requires StockSymbolCheck(value).Ok?
    ensures StockSymbolCheck(StockSymbolCheck(value).value) == StockSymbolCheck(value)
  {
    var u := StockSymbolCheck(value).value;
    assert Upper(u) == u;
  }

  /** An upper-case symbol of one to five letters is accepted as it is. */
  lemma UpperSymbolAccepted(value: string)
    requires 0 < |value| <= 5 && forall i :: 0 <= i < |value| ==> IsUpperLetter(value[i])
    ensures StockSymbolCheck(value) == Ok(value)
  {
    assert Upper(value) == value;
  }

  datatype Field = StockSymbolField | NumberOfSharesField | PurchasePriceField

  /** A successfully parsed form: the normalised symbol, an int and a float. */
  datatype StockData = StockData(stockSymbol: string, numberOfShares: int, purchasePrice: real)

  /**
   * `StockModel(stock_symbol=..., number_of_shares=..., purchase_price=...)`.
   * A field is None when it was not supplied; `toFloat` is Python's `float()`
   * on text, None where it raises. Either every field validates, or the
   * error names exactly the fields that did not.
   */
  function ParseStockModel(stockSymbol: Option<string>, numberOfShares: Option<string>, purchasePrice: Option<string>, toFloat: string -> Option<real>)
    : (r: Result<StockData, set<Field>>)
    ensures r.Ok? <==>
      && stockSymbol.Some? && StockSymbolCheck(stockSymbol.value).Ok?
      && numberOfShares.Some? && Decimal.ParseInt(numberOfShares.value).Some?
      && purchasePrice.Some? && toFloat(purchasePrice.value).Some?
    ensures r.Ok? ==> r.value == StockData(
      StockSymbolCheck(stockSymbol.value).value,
      Decimal.ParseInt(numberOfShares.value).value,
      toFloat(purchasePrice.value).value)
    ensures r.Err? ==>
      && (StockSymbolField in r.error <==> stockSymbol.None? || StockSymbolCheck(stockSymbol.value).Err?)
      && (NumberOfSharesField in r.error <==> numberOfShares.None? || Decimal.ParseInt(numberOfShares.value).None?)
      && (PurchasePriceField in r.error <==> purchasePrice.None? || toFloat(purchasePrice.value).None?)
  {
    var symbol := if stockSymbol.Some? then StockSymbolCheck(stockSymbol.value) else Err(SymbolError);
    var shares := if numberOfShares.Some? then Decimal.ParseInt(numberOfShares.value) else None;
    var price := if purchasePrice.Some? then toFloat(purchasePrice.value) else None;
    if symbol.Ok? && shares.Some? && price.Some? then
      Ok(StockData(symbol.value, shares.value, price.value))
    else
      Err((if symbol.Err? then {StockSymbolField} else {})
        + (if shares.None? then {NumberOfSharesField} else {})
        + (if price.None? then {PurchasePriceField} else {}))
  }

  /** "SBUX" with 100 shares is accepted as it is. */
  lemma NominalForm(toFloat: string -> Option<real>)
    requires toFloat("45.67") == Some(45.67)
    ensures ParseStockModel(Some("SBUX"), Some("100"), Some("45.67"), toFloat) == Ok(StockData("SBUX", 100, 45.67))
  {
    UpperSymbolAccepted("SBUX");
    Decimal.ParseNatString(100);
    assert Decimal.NatToString(100) == "100";
  }

  /** "SBUX123" is not a stock symbol. */
  lemma SymbolWithDigitsRejected(toFloat: string -> Option<real>)
    ensures ParseStockModel(Some("SBUX123"), Some("100"), Some("45.67"), toFloat).Err?
    ensures StockSymbolField in ParseStockModel(Some("SBUX123"), Some("100"), Some("45.67"), toFloat).error
  {
    assert !IsLetter("SBUX123"[4]);
  }

  /** "100.123" is not an int. */
  lemma FractionalSharesRejected(toFloat: string -> Option<real>)
    ensures ParseStockModel(Some("SBUX"), Some("100.123"), Some("45.67"), toFloat).Err?
  {
    assert !Decimal.IsDigit("100.123"[3]);
  }

  /** Missing fields are errors: all of them, or only the price. */
  lemma MissingFieldsRejected(toFloat: string -> Option<real>)
    ensures ParseStockModel(None, None, None, toFloat) == Err({StockSymbolField, NumberOfSharesField, PurchasePriceField})
    ensures ParseStockModel(Some("SBUX"), Some("100"), None, toFloat) == Err({PurchasePriceField})
  {
    var all := ParseStockModel(None, None, None, toFloat).error;
    assert forall f: Field :: f in all <==> f in {StockSymbolField, NumberOfSharesField, PurchasePriceField};
    assert all == {StockSymbolField, NumberOfSharesField, PurchasePriceField};
    UpperSymbolAccepted("SBUX");
    Decimal.ParseNatString(100);
    assert Decimal.NatToString(100) == "100";
    var priceOnly := ParseStockModel(Some("SBUX"), Some("100"), None, toFloat).error;
    assert forall f: Field :: f in priceOnly <==> f == PurchasePriceField;
    assert priceOnly == {PurchasePriceField};
  }

  /** `request.form[...]` raises (HTTP 400) unless all three fields were posted. */
  predicate HasStockFields(form: map<string, string>) {
    "stock_symbol" in form && "number_of_shares" in form && "purchase_price" in form
  }

  /** The `StockModel` built from the three posted fields. */
  function ParseStockForm(form: map<string, string>, toFloat: string -> Option<real>): (r: Result<StockData, set<Field>>)
    requires HasStockFields(form)
    ensures r.Ok? <==>
      && StockSymbolCheck(form["stock_symbol"]).Ok?
      && Decimal.ParseInt(form["number_of_shares"]).Some?
      && toFloat(form["purchase_price"]).Some?
    ensures r.Ok? ==> IsAlpha(r.value.stockSymbol) && |r.value.stockSymbol| <= 5
    ensures r.Err? ==>
      && (StockSymbolField in r.error <==> StockSymbolCheck(form["stock_symbol"]).Err?)
      && (NumberOfSharesField in r.error <==> Decimal.ParseInt(form["number_of_shares"]).None?)
      && (PurchasePriceField in r.error <==> toFloat(form["purchase_price"]).None?)
  {
    ParseStockModel(Some(form["stock_symbol"]), Some(form["number_of_shares"]), Some(form["purchase_price"]), toFloat)
  }
}
