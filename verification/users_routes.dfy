/**
 * The users blueprint: registration, login, email confirmation, password reset
 * and change of password or email. The application state these handlers touch
 * is the `users` table, the mail queued for sending, and the Flask-Login
 * session's current user.
 */
module UserRoutes {
  import opened Basics
  import opened Web
  import opened Models

  datatype MailKind = EmailConfirmation | PasswordReset

  /** A message handed to the mail thread; only its kind and recipient are modelled. */
  datatype Mail = Mail(kind: MailKind, recipient: string)

  /** The `scheme` and `netloc` that `urlparse` finds in a `next` argument. */
  datatype UrlParts = UrlParts(scheme: string, netloc: string)

  /**
   * Where `login` sends a user whose credentials were accepted. An unconfirmed
   * user always goes to the profile. A confirmed user goes to the profile when
   * `next` is missing or empty, is refused with 400 (and logged out again) when
   * `next` names a scheme or a host, and otherwise follows `next` verbatim.
   */
  function PostLoginResponse(confirmed: bool, next: Option<string>, nextParts: UrlParts): (r: Response)
    ensures !confirmed ==> r == Redirect(Route(UserProfile))
    ensures next == None || next == Some("") ==> r == Redirect(Route(UserProfile))
    ensures r.Abort? <==> confirmed && next.Some? && next.value != "" && (nextParts.scheme != "" || nextParts.netloc != "")
    ensures r.Abort? ==> r.status == 400
    ensures r.Redirect? && r.location.Path? <==> confirmed && next.Some? && next.value != "" && nextParts == UrlParts("", "")
    ensures r.Redirect? && r.location.Path? ==> next == Some(r.location.url)
    ensures r.Redirect? && r.location.Route? ==> r.location.endpoint == UserProfile
    ensures !r.Render?
  {
    if !confirmed then Redirect(Route(UserProfile))
    else if next.None? || next.value == "" then Redirect(Route(UserProfile))
    else if nextParts.scheme != "" || nextParts.netloc != "" then Abort(400)
    else Redirect(Path(next.value))
  }

  class Accounts {
    var users: map<string, User>   // the users table; `email` is a unique column
    var nextId: nat                // the next primary key the database hands out
    var outbox: seq<Mail>          // mail queued for the sending thread, oldest first
    var current: User?             // Flask-Login's current_user, null when anonymous

    /**
     * Each row is stored under its own email (so emails are unique), has a
     * committed id, and no two rows share an id; a signed-in user is a row of
     * the table.
     */
    ghost predicate Valid()
      reads this, users.Values, current
    {
      && (forall e :: e in users ==> users[e].email == e && users[e].id.Some? && users[e].id.value < nextId)
      && (forall e1, e2 :: e1 in users && e2 in users && users[e1].id == users[e2].id ==> e1 == e2)
      && (current != null ==> current.email in users && users[current.email] == current)
    }

    /** The table as values. */
    ghost function Rows(): map<string, UserRow>
      reads this, users.Values
    {
      map e | e in users :: users[e].Row()
    }

    constructor ()
      ensures Valid() && Rows() == map[] && outbox == [] && current == null
    {
      users, nextId, outbox, current := map[], 0, [], null;
    }

    /**
     * `register`: a new email adds exactly one unconfirmed row and queues one
     * confirmation message; an email already in the table is rolled back and
     * changes nothing.
     */
    method Register(formAccepted: bool, email: string, password: string, scheme: PasswordScheme, sentOn: Timestamp, registeredOn: Timestamp)
      returns (r: Response)
      requires Valid()
      modifies this
      ensures Valid() && current == old(current)
      ensures !formAccepted || email in old(users) ==>
        r == Render(RegisterPage) && Rows() == old(Rows()) && outbox == old(outbox)
      ensures formAccepted && email !in old(users) ==>
        && r == Redirect(Route(UsersLogin))
        && Rows() == old(Rows())[email := UserRow(Some(old(nextId)), email, scheme.hash(password), registeredOn, Some(sentOn), false, None)]
        && outbox == old(outbox) + [Mail(EmailConfirmation, email)]
    {
      if !formAccepted || email in users {
        return Render(RegisterPage);
      }
      var u := new User(email, password, scheme, sentOn, registeredOn);
      ghost var row := UserRow(Some(nextId), email, scheme.hash(password), registeredOn, Some(sentOn), false, None);
      assert u.Row().(id := Some(nextId)) == row;
      Commit(u);
      r := Redirect(Route(UsersLogin));
    }

    /**
     * `db.session.add`, `commit` and `send_confirmation_email` for a new user:
     * it gets the next id, its own row, and one confirmation message.
     */
    method Commit(u: User)
      requires Valid() && u.email !in users && u !in users.Values && u != current
      modifies this`users, this`nextId, this`outbox, u`id
      ensures Valid() && current == old(current)
      ensures Rows() == old(Rows())[u.email := old(u.Row()).(id := Some(old(nextId)))]
      ensures outbox == old(outbox) + [Mail(EmailConfirmation, u.email)]
    {
      ghost var rows := Rows();
      u.id := Some(nextId);
      assert Rows() == rows;
      users := users[u.email := u];
      nextId := nextId + 1;
      outbox := outbox + [Mail(EmailConfirmation, u.email)];
      assert Rows() == rows[u.email := u.Row()];
    }

    /**
     * `login`: a signed-in user is sent to the index; wrong credentials render
     * the form again; right credentials sign the user in and answer as
     * `PostLoginResponse` says, signing out again when it refuses `next`.
     */
    method Login(formAccepted: bool, email: string, password: string, next: Option<string>, nextParts: UrlParts, scheme: PasswordScheme)
      returns (r: Response)
      requires Valid()
      modifies this`current
      ensures Valid() && Rows() == old(Rows()) && outbox == old(outbox)
      ensures old(current) != null ==> r == Redirect(Route(StocksIndex)) && current == old(current)
      ensures old(current) == null && !(formAccepted && email in users && users[email].IsPasswordCorrect(password, scheme)) ==>
        r == Render(LoginPage) && current == null
      ensures old(current) == null && formAccepted && email in users && users[email].IsPasswordCorrect(password, scheme) ==>
        && r == PostLoginResponse(users[email].emailConfirmed, next, nextParts)
        && current == (if r.Abort? then null else users[email])
    {
      if current != null && current.IsAuthenticated() {
        return Redirect(Route(StocksIndex));
      }
      if !(formAccepted && email in users && users[email].IsPasswordCorrect(password, scheme)) {
        return Render(LoginPage);
      }
      var user := users[email];
      current := user;
      r := PostLoginResponse(user.emailConfirmed, next, nextParts);
      if r.Abort? {
        current := null;
      }
    }

    /** `logout` (login required): the session forgets the user. */
    method Logout() returns (r: Response)
      requires Valid()
      modifies this`current
      ensures Valid() && Rows() == old(Rows()) && outbox == old(outbox) && current == null
      ensures r == if old(current) == null then Unauthorized else Redirect(Route(StocksIndex))
    {
      if current == null {
        return Unauthorized;
      }
      current := null;
      r := Redirect(Route(StocksIndex));
    }

    /**
     * `confirm_email`: a bad or expired token changes nothing; a good one
     * confirms its address, unless it is already confirmed. The token is
     * assumed to name a registered address.
     */
    method ConfirmEmail(token: Option<string>, now: Timestamp) returns (r: Response)
      requires Valid()
      requires token.Some? ==> token.value in users
      modifies users.Values
      ensures Valid() && outbox == old(outbox)
      ensures token.None? ==> r == Redirect(Route(UsersLogin)) && Rows() == old(Rows())
      ensures token.Some? ==>
        && r == Redirect(Route(StocksIndex))
        && Rows() == old(Rows())[token.value := ConfirmRow(old(Rows())[token.value], now)]
    {
      if token.None? {
        return Redirect(Route(UsersLogin));
      }
      var user := users[token.value];
      if !user.emailConfirmed {
        user.emailConfirmed := true;
        user.emailConfirmedOn := Some(now);
      }
      r := Redirect(Route(StocksIndex));
    }

    /**
     * `password_reset_via_email`: exactly one reset message is queued when the
     * address is registered and confirmed, none otherwise.
     */
    method PasswordResetViaEmail(formAccepted: bool, email: string) returns (r: Response)
      requires Valid()
      modifies this`outbox
      ensures Valid() && Rows() == old(Rows())
      ensures !formAccepted || email !in users ==>
        r == Render(PasswordResetViaEmailPage) && outbox == old(outbox)
      ensures formAccepted && email in users ==>
        && r == Redirect(Route(UsersLogin))
        && outbox == old(outbox) + (if users[email].emailConfirmed then [Mail(PasswordReset, email)] else [])
    {
      if !formAccepted || email !in users {
        return Render(PasswordResetViaEmailPage);
      }
      if users[email].emailConfirmed {
        outbox := outbox + [Mail(PasswordReset, email)];
      }
      r := Redirect(Route(UsersLogin));
    }

    /**
     * `process_password_reset_token`: with a good token and an accepted form,
     * the password of the address in the token is replaced; nothing else changes.
     */
    method ProcessPasswordResetToken(token: Option<string>, formAccepted: bool, password: string, scheme: PasswordScheme)
      returns (r: Response)
      requires Valid()
      modifies users.Values
      ensures Valid() && outbox == old(outbox)
      ensures token.None? ==> r == Redirect(Route(UsersLogin)) && Rows() == old(Rows())
      ensures token.Some? && !formAccepted ==> r == Render(ResetPasswordWithTokenPage) && Rows() == old(Rows())
      ensures token.Some? && formAccepted && token.value !in users ==>
        r == Redirect(Route(UsersLogin)) && Rows() == old(Rows())
      ensures token.Some? && formAccepted && token.value in users ==>
        && r == Redirect(Route(UsersLogin))
        && Rows() == old(Rows())[token.value := SetPasswordRow(old(Rows())[token.value], scheme.hash(password))]
        && (scheme.Sound() ==> users[token.value].IsPasswordCorrect(password, scheme))
    {
      if token.None? {
        return Redirect(Route(UsersLogin));
      }
      if !formAccepted {
        return Render(ResetPasswordWithTokenPage);
      }
      if token.value !in users {
        return Redirect(Route(UsersLogin));
      }
      users[token.value].SetPassword(password, scheme);
      r := Redirect(Route(UsersLogin));
    }

    /**
     * `change_password` (login required): the hash is replaced only when the
     * current password checks out.
     */
    method ChangePassword(formAccepted: bool, currentPassword: string, newPassword: string, scheme: PasswordScheme)
      returns (r: Response)
      requires Valid()
      modifies current
      ensures Valid() && outbox == old(outbox)
      ensures current == null ==> r == Unauthorized && Rows() == old(Rows())
      ensures current != null && !(formAccepted && old(current.IsPasswordCorrect(currentPassword, scheme))) ==>
        r == Render(ChangePasswordPage) && Rows() == old(Rows())
      ensures current != null && formAccepted && old(current.IsPasswordCorrect(currentPassword, scheme)) ==>
        && r == Redirect(Route(UserProfile))
        && Rows() == old(Rows())[current.email := SetPasswordRow(old(Rows())[current.email], scheme.hash(newPassword))]
        && (scheme.Sound() ==> current.IsPasswordCorrect(newPassword, scheme))
    {
      if current == null {
        return Unauthorized;
      }
      if !(formAccepted && current.IsPasswordCorrect(currentPassword, scheme)) {
        return Render(ChangePasswordPage);
      }
      current.SetPassword(newPassword, scheme);
      r := Redirect(Route(UserProfile));
    }

    /** `resend_email_confirmation` (login required): one confirmation message to the current address. */
    method ResendEmailConfirmation() returns (r: Response)
      requires Valid()
      modifies this`outbox
      ensures Valid() && Rows() == old(Rows())
      ensures current == null ==> r == Unauthorized && outbox == old(outbox)
      ensures current != null ==>
        r == Redirect(Route(UserProfile)) && outbox == old(outbox) + [Mail(EmailConfirmation, current.email)]
    {
      if current == null {
        return Unauthorized;
      }
      outbox := outbox + [Mail(EmailConfirmation, current.email)];
      r := Redirect(Route(UserProfile));
    }

    /**
     * `change_email` (fresh login required): an address that belongs to a row
     * already changes nothing; otherwise the current row moves to the new
     * address and its confirmation is reset.
     */
    method ChangeEmail(formAccepted: bool, newEmail: string, now: Timestamp) returns (r: Response)
      requires Valid()
      modifies this`users, current
      ensures Valid() && outbox == old(outbox) && current == old(current)
      ensures current == null ==> r == Unauthorized && Rows() == old(Rows())
      ensures current != null && !(formAccepted && newEmail !in old(users)) ==>
        r == Render(ChangeEmailPage) && Rows() == old(Rows())
      ensures current != null && formAccepted && newEmail !in old(users) ==>
        && r == Redirect(Route(Endpoint.ResendEmailConfirmation))
        && current.email == newEmail
        && Rows() == (old(Rows()) - {old(current.email)})[newEmail := SetEmailRow(old(Rows())[old(current.email)], newEmail, now)]
    {
      if current == null {
        return Unauthorized;
      }
      if !(formAccepted && newEmail !in users) {
        return Render(ChangeEmailPage);
      }
      var oldEmail := current.email;
      ghost var rows := Rows();
      current.SetEmail(newEmail, now);
      users := (users - {oldEmail})[newEmail := current];
      assert Rows() == (rows - {oldEmail})[newEmail := current.Row()];
      r := Redirect(Route(Endpoint.ResendEmailConfirmation));
    }
  }
}
