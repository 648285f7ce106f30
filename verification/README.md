# Flask Stock Portfolio: accounts, stock entry and configuration

This project models the part of the Flask Stock Portfolio application that
makes decisions of its own. The rest of the application is framework glue.

- **Accounts** (`project/models.py`, `project/users/routes.py`). The `User`
  record and the users blueprint's handlers form a small state machine over
  four things:
  - the `users` table, a map keyed by the unique email column;
  - the mail queued for the sending thread, as an outbox sequence;
  - Flask-Login's current user;
  - the database's next primary key.

  Each handler either changes one row or changes nothing. Its contract gives
  the whole new table in terms of the old one, using the row transitions
  `SetEmailRow`, `SetPasswordRow` and `ConfirmRow`. The invariant `Valid()`
  says four things: each row is stored under its own email, so emails are
  unique; every row has an id; ids are distinct; and a signed-in user is a row.
  Every handler keeps `Valid()`.
- **Stock entry** (`project/stocks/routes.py`, `app.py`). This covers:
  - the `StockModel` form parser with its `stock_symbol_check` validator;
  - the `email_confirmation_required` gate;
  - `add_stock`, which commits a `Stock` row in the blueprint and fills the
    session in `app.py`;
  - the per-user, id-ordered `list_stocks` query;
  - the owner check of `stock_details`.
- **Configuration** (`config.py`). The settings of the four configuration
  classes are functions of the environment. This includes the rename of a
  leading `postgres://` to `postgresql://` in `DATABASE_URL`.

External collaborators become parameters:
- the clock is `now`; where the source reads it twice, in `User.__init__`,
  each reading is its own parameter (`sentOn` inside `set_email`, then
  `registeredOn`), and nothing ties the two together;
- werkzeug's hash/check pair is a `PasswordScheme`, and `Sound()` states what
  the code relies on;
- itsdangerous token verification is an `Option<string>`, where `None` means
  a bad or expired signature;
- `urlparse` is a `UrlParts`;
- Python's `float()` is a `toFloat` function;
- WTForms' `validate_on_submit()` is a `formAccepted` flag.

## Model

| member | source | states |
|---|---|---|
| `Decimal.NatToString` | project/models.py:66-68 | `str(n)` is a non-empty string of digits. A text longer than one digit never starts with `0`, and a text starting with `0` is the text of 0 |
| `Decimal.CanonicalNumeral` | project/models.py:66-68 | A digit string with no leading zero (other than "0" itself) that reads as n is `str(n)`, so that text has only one form |
| `Decimal.ParseNatString` | project/models.py:66-68 | Reading back `str(n)` gives `n` (round trip) |
| `Decimal.NatToStringInjective` | project/models.py:66-68 | Different numbers have different `str` texts |
| `Decimal.ParseInt` | project/stocks/routes.py:83-88 | `int()` coercion accepts exactly an optional sign followed by digits; on plain digits it agrees with reading a natural number, `-` followed by digits gives the negated value, and `+` followed by digits gives the value |
| `Models.SetEmailRow` | project/models.py:73-77 | After `set_email(e)` the email is `e`, the address is unconfirmed, there is no confirmation time, and the sent time is now, whatever these were before. Id, hash and registration time are kept |
| `Models.SetPasswordRow` | project/models.py:70-71 | `set_password` changes only the stored hash |
| `Models.ConfirmRow` | project/users/routes.py:244-253 | A confirmed row is left as it is. An unconfirmed row becomes confirmed at `now`. No other column changes |
| `Models.ConfirmIdempotent` | project/users/routes.py:244-253 | Confirming twice equals confirming once; the first confirmation time is kept |
| `Models.ChangeEmailUndoesConfirmation` | project/models.py:73-77 | A confirmed account whose email is then set is unconfirmed again, with no confirmation time |
| `Models.User.constructor` | project/models.py:32-36 | A new user has no id yet and is unconfirmed, with no confirmation time. The sent time is the clock reading taken inside `set_email` and the registration time the later, separate reading. Its hash is the scheme's hash of the password, and under a sound scheme it differs from the plaintext and accepts it |
| `Models.User.SetEmail` | project/models.py:73-77 | The record's new value is `SetEmailRow` of its old value |
| `Models.User.SetPassword` | project/models.py:70-71 | Only the hash changes. Under a sound scheme, `is_password_correct` then accepts the new password |
| `Models.User.IsAuthenticated` | project/models.py:51-54 | Always true |
| `Models.User.IsActive` | project/models.py:56-59 | Always true |
| `Models.User.IsAnonymous` | project/models.py:61-64 | Always false |
| `Models.User.IsPasswordCorrect` | project/models.py:41-42 | A stored hash of this very password passes the check whenever the scheme accepts its own hashes |
| `Models.User.GetId` | project/models.py:66-68 | A committed id's text is all digits, has no leading zero (only id 0 gives "0") and reads back as that id. Before commit the text is "None" |
| `Models.GetIdIsStr` | project/models.py:66-68 | For every committed user, id 0 included, `get_id` is `str(id)`: the only digit string without a leading zero that reads as the id |
| `Models.GetIdIdentifies` | project/models.py:66-68 | Two committed users with the same `get_id` text have the same id, so the session key names one user |
| `Models.Truncate` | project/models.py:106 | `int()` of a float truncates toward zero |
| `Models.ToCents` | project/models.py:106 | A non-negative price gives the whole number of cents not above `price * 100`, within one cent of it |
| `Models.CentsRoundTrip` | project/models.py:101-106 | In exact decimal arithmetic, a price that is a whole number of cents is stored exactly. The source's binary floats can drop a cent here, as the "## Left out" line for this member says |
| `Models.DocstringCents` | project/models.py:88-92 | $24.10 is stored as 2410 and $100.00 as 10000 |
| `Models.NewStock` | project/stocks/routes.py:138-144 | The committed row keeps the validated symbol verbatim and the share count as given, belongs to the current user, and stores the price as `ToCents` of the dollar amount: whole cents, truncated |
| `UserRoutes.PostLoginResponse` | project/users/routes.py:144-171 | An unconfirmed user always goes to the profile. For a confirmed user: a missing or empty `next` goes to the profile; a `next` with a scheme or netloc gets 400; any other `next` is followed verbatim. Nothing renders a page |
| `UserRoutes.Accounts.Login` | project/users/routes.py:121-176 | An already signed-in user is sent to the index and nothing changes. Rejected credentials render the form and sign nobody in. Accepted credentials sign the user in and answer with `PostLoginResponse`; the user is signed out again exactly when it answers 400 |
| `UserRoutes.Accounts.Logout` | project/users/routes.py:112-118 | An anonymous request is sent to log in. Otherwise the session forgets the user and the table is unchanged |
| `UserRoutes.Accounts.Register` | project/users/routes.py:179-217 | A duplicate email or a rejected form leaves the table and the outbox unchanged. A new email adds exactly one unconfirmed row with the next id, its sent time and registration time taken from two clock readings, and queues exactly one confirmation mail. Emails stay unique |
| `UserRoutes.Accounts.Commit` | project/users/routes.py:187-205 | Adding and committing a new user gives it the next id and its own row, leaves every other row as it was, and queues one confirmation mail to its address |
| `UserRoutes.Accounts.ConfirmEmail` | project/users/routes.py:226-259 | A bad token changes nothing. A good token applies `ConfirmRow` to its row only, so an already-confirmed user is left unchanged |
| `UserRoutes.Accounts.PasswordResetViaEmail` | project/users/routes.py:262-297 | Exactly one reset mail is queued when the email is registered and confirmed. Unknown or unconfirmed emails queue nothing. The table never changes |
| `UserRoutes.Accounts.ProcessPasswordResetToken` | project/users/routes.py:300-330 | Only a good token with an accepted form and a registered email changes anything, and then only that row's hash |
| `UserRoutes.Accounts.ChangePassword` | project/users/routes.py:333-353 | The hash is replaced only when the current password checks out; otherwise nothing changes. Anonymous requests are sent to log in |
| `UserRoutes.Accounts.ResendEmailConfirmation` | project/users/routes.py:356-376 | Queues exactly one confirmation mail to the current user's address |
| `UserRoutes.Accounts.ChangeEmail` | project/users/routes.py:379-407 | An address that is already taken changes nothing and queues nothing. Otherwise the current row moves to the new key with its confirmation reset, and emails stay unique |
| `StockForm.Upper` | project/stocks/routes.py:94 | On ASCII text, `str.upper()` keeps the length and upper-cases each letter in place |
| `StockForm.StockSymbolCheck` | project/stocks/routes.py:90-94 | Accepts exactly the strings of 1 to 5 letters. An accepted symbol comes back upper-cased, character by character |
| `StockForm.SymbolCheckIdempotent` | project/stocks/routes.py:92-94 | Validating an accepted symbol's output returns that output unchanged |
| `StockForm.UpperSymbolAccepted` | app.py:18-22 | An upper-case symbol of 1 to 5 letters is accepted as it is |
| `StockForm.ParseStockModel` | app.py:11-22 | The form parses exactly when all three fields are present and valid, and the result holds the normalised values. Otherwise the error names exactly the failing fields |
| `StockForm.ParseStockForm` | project/stocks/routes.py:130-134 | With all three fields posted, the form parses exactly when the symbol, the share count and the price each validate. An accepted symbol is 1 to 5 letters. The error set names exactly the fields that failed |
| `StockForm.NominalForm` | tests/unit/test_app.py:9-22 | "SBUX", "100" and 45.67 parse to symbol "SBUX" with 100 shares |
| `StockForm.SymbolWithDigitsRejected` | tests/unit/test_app.py:25-36 | "SBUX123" is rejected on the symbol field |
| `StockForm.FractionalSharesRejected` | tests/unit/test_app.py:39-50 | "100.123" shares are rejected |
| `StockForm.MissingFieldsRejected` | tests/unit/test_app.py:67-88 | Missing fields are rejected, and each missing field is named |
| `StockRoutes.EmailConfirmationRequired` | project/stocks/routes.py:97-108 | The wrapped view runs exactly when the user's email is confirmed. Otherwise the answer is a redirect to the profile |
| `StockRoutes.OwnedBy` | project/stocks/routes.py:167-169 | Holds exactly the table's stocks whose `user_id` is the given id |
| `StockRoutes.OwnedByAscending` | project/stocks/routes.py:167-169 | Filtering a table in id order keeps it in id order |
| `StockRoutes.AscendingUnique` | project/stocks/routes.py:167-169 | Two id-ascending sequences with the same stocks are equal, so "ordered by id" fixes the listing |
| `StockRoutes.FindStock` | project/stocks/routes.py:239 | Finds a stock with the requested id, or reports that none has it |
| `StockRoutes.Portfolio.AddStock` | project/stocks/routes.py:120-160 | Only a signed-in, confirmed user's POST with valid fields and a purchase date commits a stock: exactly one, owned by that user, with the next id and the price in cents. Every other path leaves the table unchanged |
| `StockRoutes.Portfolio.ListStocks` | project/stocks/routes.py:163-169 | Anonymous users are sent to log in and unconfirmed users to the profile. Otherwise the listing holds exactly the current user's stocks, in ascending id order |
| `StockRoutes.ListingIsTheOrderedSelection` | project/stocks/routes.py:167-169 | Any id-ascending sequence of exactly the user's stocks is the listing |
| `StockRoutes.Portfolio.StockDetails` | project/stocks/routes.py:235-242 | A stock is rendered only for its owner. Another user's stock gets 403 and an unknown id gets 404 |
| `App.Session.AddStock` | app.py:74-100 | A valid POST writes exactly the validated symbol, shares and price into the session and redirects to the list. A GET or an invalid form renders the form with the session untouched. A missing field gets 400 |
| `App.NominalSession` | app.py:88-96 | After adding "SBUX" with 100 shares, the session holds symbol "SBUX", 100 shares and the price |
| `Config.FindFrom` | config.py:16-18 | Finds the first occurrence of the pattern at or after an index, or reports that none exists |
| `Config.ReplaceFirst` | config.py:16-18 | Without an occurrence the string is unchanged. Otherwise the replacement stands where the first occurrence began, and the length changes by the difference of the two lengths |
| `Config.ReplaceFirstSpec` | config.py:16-18 | `replace(old, new, 1)` replaces only the first occurrence and copies everything else. Without an occurrence the string is unchanged |
| `Config.RenamesLeadingScheme` | config.py:13-18 | `postgres://` followed by any rest becomes `postgresql://` followed by the same rest |
| `Config.LeadingSchemeUri` | config.py:15-18 | A `DATABASE_URL` that starts with `postgres://` gives `postgresql://` followed by the same rest |
| `Config.OtherUrlsPassThrough` | config.py:15-18 | A `DATABASE_URL` that contains no `postgres://` is used verbatim |
| `Config.HerokuUrl` | config.py:13-18 | `postgres://host/db` becomes `postgresql://host/db` |
| `Config.OnlyFirstRenamed` | config.py:16-18 | In `postgres://a/postgres://b` only the first scheme is renamed |
| `Config.PathJoin` | config.py:21 | `os.path.join` on POSIX: an absolute component replaces the path. Otherwise the component is appended, with one `/` inserted exactly when the path is non-empty and does not already end in `/` |
| `Config.SqlitePath` | config.py:21 | A `sqlite:///` URL whose file, for a relative name, sits directly in the `instance` directory under the base directory |
| `Config.DatabaseUri` | config.py:15-22 | With `DATABASE_URL` unset or empty, the sqlite path of `app.db`. A non-empty `DATABASE_URL` without `postgres://` is used verbatim |
| `Config.SqliteFallback` | config.py:19-22 | With `DATABASE_URL` unset or empty, the URI is `sqlite:///<basedir>/instance/app.db` |
| `Config.BaseConfig` | config.py:8-40 | The constant settings of `Config`: development, no debug or testing, CSRF on, no modification tracking, 14-day remember cookie, Gmail over SSL on port 465, the sender equal to the mail user. The URI is `DatabaseUri`, an environment `SECRET_KEY` wins, and `LOG_TO_STDOUT` is set exactly when its variable is |
| `Config.Defaults` | config.py:12-40 | With their variables unset, the secret key is "BAD_SECRET_KEY", the Alpha Vantage key is "demo", the sender is empty and stdout logging is off |
| `Config.ProductionConfig` | config.py:43-52 | Uses the SendGrid mail settings and inherits every other setting |
| `Config.DevelopmentConfig` | config.py:55-56 | Turns on debugging and inherits every other setting |
| `Config.TestingConfig` | config.py:59-65 | Sets `TESTING`, disables CSRF and uses its own database URI, taken verbatim. Every other setting is inherited |

## Left out

- Price refresh and weekly chart. `list_stocks` calls `get_stock_data` and
  `stock_details` calls `get_weekly_stock_data` (project/stocks/routes.py:172,
  244). Neither is defined in project/models.py, and both make HTTP calls to
  Alpha Vantage, so neither is part of this model.
  - As a result, `StockRoutes.Portfolio.ListStocks` does not model the loop that
    refreshes each stock.
  - It also does not model the float sum and `round` of the account value
    (lines 170-189).
  - `StockDetails` stops at the decision to render.
- `Models.ToCents` works on exact reals. The source computes `int(float(p) * 100)`
  in binary floating point, which can lose a cent. The cents properties hold
  for the exact decimal value.
- `Models.CentsRoundTrip` holds only in exact decimal arithmetic. In the
  source's binary doubles, 19.99 times 100 is 1998.9999999999998, so $19.99 is
  stored as 1998 cents; 0.29 and 1.15 lose a cent the same way.
- `Models.User.IsPasswordCorrect` delegates to the scheme's check. Its contract
  covers only a hash of the same password; that the check also rejects other
  passwords is not part of `PasswordScheme`.
- Python's `float()` parsing of `purchase_price` is the `toFloat` parameter.
- `Decimal.ParseInt`: Python's `int()` also accepts surrounding whitespace,
  `_` separators and non-ASCII digits. The model does not.
- `StockForm.Upper` and `StockForm.StockSymbolCheck`: Python's `isalpha` and
  `upper` are Unicode-aware. The model counts only ASCII letters as letters, so
  it rejects a non-ASCII letter that Python would accept. Python's `upper` also
  maps non-ASCII letters ('é' to 'É') and can lengthen the text ("ß" to "SS");
  the model's `Upper` leaves every non-ASCII character as it is and keeps the
  length.
- Mail is only "one message appended to the outbox". Its subject, body, signed
  link, sending thread and delivery are left out.
- itsdangerous signing and the one-hour expiry are left out. A token is given
  as its verification result.
- werkzeug hashing is the `PasswordScheme` parameter. The random salt is folded
  into it: the model's hash depends on the plaintext alone.
- `urlparse` is left out. The scheme and netloc of `next` are inputs.
- Flash messages, logging, `print` and template contents are left out, and so
  is the `remember_me` cookie.
- The freshness part of `fresh_login_required` is left out. `ChangeEmail`
  checks only that a user is signed in.
- WTForms validation, including the `Email()` check and the length bounds in
  project/users/forms.py, is the `formAccepted` flag.
- Sessions commit and roll back as one step. A committed row takes the next
  integer id.
- `UserRoutes.Accounts.ConfirmEmail` requires a good token to name a registered
  address. The handler dereferences the looked-up user without a None check
  (project/users/routes.py:242-244), so any other token would crash.
- `purchase_date` is left out except for one check: a missing field gets 400.
  Its ISO parsing, and the error a malformed date raises, are not modelled.
  The functional test at tests/functional/test_stocks.py:96-112 posts without
  `purchase_date` and expects the stock list; the code answers 400
  (project/stocks/routes.py:143), and the model follows the code.
- `StockRoutes.Portfolio.AddStock` and `Models.ToCents` leave out two numeric
  failures, and neither ends in the model's re-render or commit. First, Python's
  `float()` accepts "nan", "inf" and "-inf", and then `int(float(p) * 100)`
  (project/models.py:106) raises a ValueError or OverflowError. That is not the
  `ValidationError` caught at project/stocks/routes.py:157, so the request ends
  in a server error and nothing is committed. `toFloat` answers only `None` or a
  real. Second, `number_of_shares` and `purchase_price` are integer columns
  (project/models.py:98-99), 64-bit in SQLite and 32-bit in PostgreSQL. A
  larger value fails at commit, while the model's integers are unbounded and
  the row is always committed.
- Stock constructor arity. The `Stock` constructor in project/models.py:101-106
  takes three arguments, but the routes pass five (project/stocks/routes.py:138-144).
  The model follows the routes for `user_id`, because the listing and the owner
  check depend on it.
- The `Stock` and `User` `__repr__` methods, the CLI commands
  (project/stocks/routes.py:28-52) and the request callbacks are left out.
- Pages with no decision in them are left out: `index`, `about`, `admin`,
  `user_profile`, the chart demos and the `app.py` demo routes.
- Framework wiring is not part of this model: the app factory, blueprints and
  logging setup.
- project/users/routes.py:173 comes after a `return` and never runs.
