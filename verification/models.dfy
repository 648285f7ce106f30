/**
 * The two database records of the application: a registered `User` and a
 * purchased `Stock`.
 */
module Models {
  import opened Basics
  import Decimal

  /** A point in time from the injected clock (`datetime.now()`). */
  type Timestamp = nat

  /**
   * werkzeug's `generate_password_hash` / `check_password_hash`, taken as a
   * parameter. A sound scheme accepts the password it hashed and never stores
   * a password as its own hash.
   */
  datatype PasswordScheme = PasswordScheme(hash: string -> string, check: (string, string) -> bool) {
    ghost predicate Sound() {
      forall p: string :: check(hash(p), p) && hash(p) != p
    }
  }

  /** The value of every column of a `users` row. */
  datatype UserRow = UserRow(
    id: Option<nat>,
    email: string,
    passwordHashed: string,
    registeredOn: Timestamp,
    emailConfirmationSentOn: Option<Timestamp>,
    emailConfirmed: bool,
    emailConfirmedOn: Option<Timestamp>)

  /** The row after `set_email(e)` at time `now`. */
  function SetEmailRow(row: UserRow, e: string, now: Timestamp): (r: UserRow)
    ensures r.email == e && !r.emailConfirmed && r.emailConfirmedOn == None
    ensures r.emailConfirmationSentOn == Some(now)
    ensures r.id == row.id && r.passwordHashed == row.passwordHashed && r.registeredOn == row.registeredOn
  {
    row.(email := e, emailConfirmationSentOn := Some(now), emailConfirmed := false, emailConfirmedOn := None)
  }

  /** The row after `set_password`, given the hash the scheme produced. */
  function SetPasswordRow(row: UserRow, hashed: string): (r: UserRow)
    ensures r.passwordHashed == hashed
    ensures r.(passwordHashed := row.passwordHashed) == row
  {
    row.(passwordHashed := hashed)
  }

  /**
   * The row after a valid confirmation link is followed at time `now`: an
   * unconfirmed address becomes confirmed at `now`; a confirmed one is kept.
   */
  function ConfirmRow(row: UserRow, now: Timestamp): (r: UserRow)
    ensures r.emailConfirmed
    ensures row.emailConfirmed ==> r == row
    ensures !row.emailConfirmed ==> r.emailConfirmedOn == Some(now)
    ensures r.(emailConfirmed := row.emailConfirmed, emailConfirmedOn := row.emailConfirmedOn) == row
  {
    if row.emailConfirmed then row else row.(emailConfirmed := true, emailConfirmedOn := Some(now))
  }

  /** Following a confirmation link twice changes nothing the second time. */
  lemma ConfirmIdempotent(row: UserRow, first: Timestamp, second: Timestamp)
    ensures ConfirmRow(ConfirmRow(row, first), second) == ConfirmRow(row, first)
  {
  }

  /** Changing the email after confirming it leaves the account unconfirmed again. */
  lemma ChangeEmailUndoesConfirmation(row: UserRow, confirmedAt: Timestamp, e: string, now: Timestamp)
    ensures !SetEmailRow(ConfirmRow(row, confirmedAt), e, now).emailConfirmed
    ensures SetEmailRow(ConfirmRow(row, confirmedAt), e, now).emailConfirmedOn == None
  {
  }

  class User {
    var id: Option<nat>              // None until the row is committed
    var email: string
    var passwordHashed: string
    var registeredOn: Timestamp
    var emailConfirmationSentOn: Option<Timestamp>
    var emailConfirmed: bool
    var emailConfirmedOn: Option<Timestamp>

    function Row(): UserRow
      reads this
    {
      UserRow(id, email, passwordHashed, registeredOn, emailConfirmationSentOn, emailConfirmed, emailConfirmedOn)
    }

    /**
     * `User(email, password_plaintext)`: an unconfirmed account with no id yet.
     * The clock is read twice: `sentOn` inside `set_email`, then `registeredOn`.
     */
    constructor (email: string, passwordPlaintext: string, scheme: PasswordScheme, sentOn: Timestamp, registeredOn: Timestamp)
      ensures Row() == UserRow(None, email, scheme.hash(passwordPlaintext), registeredOn, Some(sentOn), false, None)
      ensures scheme.Sound() ==> passwordHashed != passwordPlaintext && IsPasswordCorrect(passwordPlaintext, scheme)
    {
      id := None;
      new;
      SetEmail(email, sentOn);
      passwordHashed := scheme.hash(passwordPlaintext);
      this.registeredOn := registeredOn;
    }

    /** `set_email`: a new address is unconfirmed, whatever the old one was. */
    method SetEmail(e: string, now: Timestamp)
      modifies this
      ensures Row() == SetEmailRow(old(Row()), e, now)
    {
      email := e;
      emailConfirmationSentOn := Some(now);
      emailConfirmed := false;
      emailConfirmedOn := None;
    }

    /** `set_password`: only the stored hash changes, and the new password is then accepted. */
    method SetPassword(passwordPlaintext: string, scheme: PasswordScheme)
      modifies this`passwordHashed
      ensures Row() == SetPasswordRow(old(Row()), scheme.hash(passwordPlaintext))
      ensures scheme.Sound() ==> IsPasswordCorrect(passwordPlaintext, scheme)
    {
      passwordHashed := scheme.hash(passwordPlaintext);
    }

    /** `is_password_correct`: the stored hash of this very password passes whenever the scheme accepts its own hashes. */
    function IsPasswordCorrect(passwordPlaintext: string, scheme: PasswordScheme): (b: bool)
      reads this
      ensures passwordHashed == scheme.hash(passwordPlaintext) && scheme.check(scheme.hash(passwordPlaintext), passwordPlaintext) ==> b
    {
      scheme.check(passwordHashed, passwordPlaintext)
    }

    /** Flask-Login's `is_authenticated`: every stored user is authenticated. */
    function IsAuthenticated(): (b: bool)
      ensures b
    {
      true
    }

    /** Flask-Login's `is_active`: all users are active. */
    function IsActive(): (b: bool)
      ensures b
    {
      true
    }

    /** Flask-Login's `is_anonymous`: anonymous users are not supported. */
    function IsAnonymous(): (b: bool)
      ensures !b
    {
      false
    }

    /** `get_id`: `str(self.id)`, which is the decimal id once committed and "None" before. */
    function GetId(): (s: string)
      reads this
      ensures id.Some? ==> Decimal.ParseNat(s) == Some(id.value)
      ensures id.Some? ==> Decimal.AllDigits(s) && (s[0] == '0' ==> id.value == 0)
      ensures id.Some? && |s| > 1 ==> s[0] != '0'
      ensures id.None? ==> s == "None"
    {
      match id
      case None => "None"
      case Some(n) => Decimal.ParseNatString(n); Decimal.NatToString(n)
    }
  }

  /**
   * `get_id` of a committed user is `str(id)`, id 0 included: it is the only
   * digit string without a leading zero that reads as the id.
   */
  lemma GetIdIsStr(u: User)
    requires u.id.Some?
    ensures u.GetId() == Decimal.NatToString(u.id.value)
    ensures forall s :: Decimal.ParseNat(s) == Some(u.id.value) && (|s| > 1 ==> s[0] != '0') ==> s == u.GetId()
  {
    forall s | Decimal.ParseNat(s) == Some(u.id.value) && (|s| > 1 ==> s[0] != '0')
      ensures s == u.GetId()
    {
      Decimal.CanonicalNumeral(s, u.id.value);
    }
  }

  /** Two committed users with the same `get_id` text have the same id. */
  lemma GetIdIdentifies(u: User, v: User)
    requires u.id.Some? && v.id.Some? && u.GetId() == v.GetId()
    ensures u.id == v.id
  {
    Decimal.NatToStringInjective(u.id.value, v.id.value);
  }

  /** A committed `stocks` row. Prices are integer cents. */
  datatype Stock = Stock(
    id: nat,
    stockSymbol: string,
    numberOfShares: int,
    purchasePrice: int,
    userId: nat)

  /** `int(x)` on a float: truncation toward zero. */
  function Truncate(x: real): (n: int)
    ensures x >= 0.0 ==> n as real <= x < n as real + 1.0
    ensures x < 0.0 ==> n as real - 1.0 < x <= n as real
  {
    if x >= 0.0 then x.Floor else -((-x).Floor)
  }

  /**
   * `int(float(p) * 100)`: a decimal price in dollars as whole cents, with the
   * fraction of a cent dropped toward zero.
   */
  function ToCents(price: real): (cents: int)
    ensures price >= 0.0 ==> 0 <= cents && cents as real <= price * 100.0 < cents as real + 1.0
  {
    Truncate(price * 100.0)
  }

  /** A price that is a whole number of cents is stored exactly. */
  lemma CentsRoundTrip(cents: int)
    ensures ToCents(cents as real / 100.0) == cents
  {
    assert (cents as real / 100.0) * 100.0 == cents as real;
  }

  /** The two conversions the `Stock` docstring gives: $24.10 and $100.00. */
  lemma DocstringCents()
    ensures ToCents(24.10) == 2410
    ensures ToCents(100.00) == 10000
  {
    CentsRoundTrip(2410);
    CentsRoundTrip(10000);
  }

  /**
   * `Stock(stock_symbol, number_of_shares, purchase_price, user_id)` committed
   * under `id`: the symbol is stored verbatim, the price in cents.
   */
  function NewStock(id: nat, stockSymbol: string, numberOfShares: int, purchasePrice: real, userId: nat): (st: Stock)
    ensures st.id == id && st.userId == userId
    ensures st.stockSymbol == stockSymbol && st.numberOfShares == numberOfShares
    ensures st.purchasePrice == ToCents(purchasePrice)
    ensures purchasePrice >= 0.0 ==> 0 <= st.purchasePrice && st.purchasePrice as real <= purchasePrice * 100.0 < st.purchasePrice as real + 1.0
  {
    Stock(id, stockSymbol, numberOfShares, ToCents(purchasePrice), userId)
  }
}
