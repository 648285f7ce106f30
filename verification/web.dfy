/**
 * What a request handler hands back to Flask: a redirect, an aborted request
 * with an HTTP status, or a rendered template. Only the identity of the
 * endpoint or template is modelled, not the HTML.
 */
module Web {

  /** Endpoints that the handlers redirect to with `url_for`. */
  datatype Endpoint =
    | StocksIndex              // stocks.index
    | ListStocks               // stocks.list_stocks (list_stocks in app.py)
    | UserProfile              // users.user_profile
    | UsersLogin               // users.login
    | ResendEmailConfirmation  // users.resend_email_confirmation

  /** Templates that the handlers render. */
  datatype Template =
    | LoginPage
    | RegisterPage
    | PasswordResetViaEmailPage
    | ResetPasswordWithTokenPage
    | ChangePasswordPage
    | ChangeEmailPage
    | AddStockPage
    | StocksPage
    | StockDetailsPage

  /** A redirect goes either to a named endpoint or to a URL taken verbatim from the request. */
  datatype Location = Route(endpoint: Endpoint) | Path(url: string)

  datatype Response =
    | Redirect(location: Location)
    | Abort(status: nat)
    | Render(template: Template)

  /** Flask-Login's answer to an anonymous request for a `login_required` view. */
  const Unauthorized: Response := Redirect(Route(UsersLogin))
}
