/**
 * `UserController` of the registration package: sign-up (with the first-user
 * ADMIN rule), self-only deletion, login by lower-cased e-mail, logout through
 * the revoked-token store, and the field-by-field conversions between the
 * request, database and view records. Validators, the password encoder, the
 * token service and `UUID.randomUUID` are parameters.
 */
module Registration {
  import opened Common
  import opened JavaText
  import RevokedTokens

  datatype Role = USER | ADMIN

  /** The address and invoice records; `genericConvert` carries them over unchanged. */
  type Address(==)
  type Invoice(==)

  datatype Voivodeship = Voivodeship(name: string)

  /** `UserWrite`: the sign-up request body. */
  datatype UserWrite = UserWrite(
    name: Option<string>,
    surname: Option<string>,
    email: string,
    password: string,
    phoneNumber: Option<string>,
    bankAccount: Option<string>,
    roles: set<Role>,
    address: Option<Address>,
    voivodeship: Option<Voivodeship>,
    invoiceRequest: bool,
    invoice: Option<Invoice>,
    additionalInfo: Option<string>)

  /** `DbUser`: the stored user; `id` is unset until `add` draws one. */
  datatype DbUser = DbUser(
    id: Option<Uuid>,
    name: Option<string>,
    surname: Option<string>,
    email: string,
    password: string,
    phoneNumber: Option<string>,
    bankAccount: Option<string>,
    roles: set<Role>,
    address: Option<Address>,
    voivodeship: Option<Voivodeship>,
    invoiceRequest: bool,
    invoice: Option<Invoice>,
    additionalInfo: Option<string>)

  /** `UserView`: what the API returns about a user. */
  datatype UserView = UserView(
    id: Option<Uuid>,
    name: Option<string>,
    surname: Option<string>,
    email: string,
    password: Option<string>,
    phoneNumber: Option<string>,
    bankAccount: Option<string>,
    address: Option<Address>,
    voivodeship: Option<Voivodeship>,
    invoiceRequest: bool,
    invoice: Option<Invoice>,
    additionalInfo: Option<string>)

  /** `Token`: the login answer. */
  datatype Token = Token(
    userId: Option<Uuid>,
    email: string,
    name: Option<string>,
    surname: Option<string>,
    roles: set<Role>,
    expirationDate: Int64,
    jwt: string)

  datatype Credentials = Credentials(email: string, password: string)

  /** The answers of `add`, `delete` and `login`, with the HTTP status they stand for. */
  datatype AddResponse =
    | Created(view: UserView)              // 201
    | Unprocessable(constraints: string)   // 422, the joined `toString()` of the errors
    | ServerError                          // the request has no voivodeship: a null dereference
  datatype DeleteResponse = Deleted | Forbidden | UserNotFound
  datatype LoginResponse = LoggedIn(token: Token) | NoSuchUser | BadCredentials

  /**
   * `createErrorString`: the errors' `toString()` renderings joined with ",".
   * Spring's rendering of an error lists its codes separated by commas, so the
   * joined string holds commas of its own.
   */
  function CreateErrorString(errors: seq<string>): (r: string)
    ensures errors == [] ==> r == ""
    ensures |errors| == 1 ==> r == errors[0]
    ensures |errors| >= 2 ==> |r| > |errors[0]| && r[..|errors[0]|] == errors[0] && r[|errors[0]|] == ','
    ensures |errors| >= 2 ==> r[|errors[0]| + 1..] == CreateErrorString(errors[1..])
  {
    if |errors| >= 2 then
      JoinHasSeparator(errors, ',');
      Join(errors, ',')
    else Join(errors, ',')
  }

  /**
   * The error string reads back for comma-free renderings only: cutting it at
   * every comma gives them again, as long as there is at least one. Spring's
   * renderings hold commas, so for the strings the code joins only
   * `ErrorStringOfPieces` below applies.
   */
  lemma ErrorStringReadsBack(errors: seq<string>)
    requires |errors| >= 1
    requires forall i :: 0 <= i < |errors| ==> ',' !in errors[i]
    ensures Pieces(CreateErrorString(errors), ',') == errors
    ensures |Pieces(CreateErrorString(errors), ',')| == |errors|
  {
    PiecesJoin(errors, ',');
  }

  /** Every string is the error string of its comma-separated pieces. */
  lemma ErrorStringOfPieces(s: string)
    ensures CreateErrorString(Pieces(s, ',')) == s
  {
    JoinPieces(s, ',');
  }

  /** `convertToView`: every field but the password; the invoice only when it was requested. */
  function ConvertToView(u: DbUser): (v: UserView)
    ensures v.password == None
    ensures v.invoice.Some? <==> u.invoiceRequest && u.invoice.Some?
    ensures v.invoice.Some? ==> v.invoice == u.invoice
  {
    UserView(u.id, u.name, u.surname, u.email, None, u.phoneNumber, u.bankAccount,
             u.address, u.voivodeship, u.invoiceRequest,
             if u.invoiceRequest && u.invoice.Some? then u.invoice else None,
             u.additionalInfo)
  }

  /**
   * `convertToDbModel`: the e-mail lower-cased, the password encoded, the
   * requested roles kept; the invoice only when it was requested. No id yet.
   */
  function ConvertToDbModel(w: UserWrite, encode: string -> string, lowerChar: char -> char): (u: DbUser)
    ensures u.id == None
    ensures u.email == ToLowerCase(w.email, lowerChar) && u.password == encode(w.password)
    ensures u.roles == w.roles
    ensures u.invoice.Some? <==> w.invoiceRequest && w.invoice.Some?
    ensures u.invoice.Some? ==> u.invoice == w.invoice
  {
    DbUser(None, w.name, w.surname, ToLowerCase(w.email, lowerChar), encode(w.password),
           w.phoneNumber, w.bankAccount, w.roles, w.address, w.voivodeship, w.invoiceRequest,
           if w.invoiceRequest && w.invoice.Some? then w.invoice else None,
           w.additionalInfo)
  }

  /**
   * The request round trip: the view of a converted request shows the request's
   * own fields, with the lower-cased e-mail, no password and no id, and the
   * invoice exactly when it was requested and given.
   */
  lemma ViewOfRequest(w: UserWrite, encode: string -> string, lowerChar: char -> char, id: Uuid)
    ensures ConvertToView(ConvertToDbModel(w, encode, lowerChar).(id := Some(id))) ==
      UserView(Some(id), w.name, w.surname, ToLowerCase(w.email, lowerChar), None, w.phoneNumber,
               w.bankAccount, w.address, w.voivodeship, w.invoiceRequest,
               if w.invoiceRequest then w.invoice else None, w.additionalInfo)
  {
  }

  /** Converting twice changes nothing more: the conversions agree on the invoice rule. */
  lemma InvoiceRuleAgrees(w: UserWrite, encode: string -> string, lowerChar: char -> char)
    ensures ConvertToView(ConvertToDbModel(w, encode, lowerChar)).invoice ==
            ConvertToDbModel(w, encode, lowerChar).invoice
  {
  }

  /** With an idempotent per-character lower-casing, lower-casing twice is lower-casing once. */
  lemma LowerCaseIdempotent(s: string, lowerChar: char -> char)
    requires forall c :: lowerChar(lowerChar(c)) == lowerChar(c)
    ensures ToLowerCase(ToLowerCase(s, lowerChar), lowerChar) == ToLowerCase(s, lowerChar)
  {
  }

  /** The roles a new user is stored with: the requested ones, USER, and ADMIN for the very first user. */
  function NewRoles(requested: set<Role>, userCount: nat): (r: set<Role>)
    ensures USER in r && requested <= r
    ensures ADMIN in r <==> ADMIN in requested || userCount == 0
    ensures r - requested <= {USER, ADMIN}
  {
    requested + {USER} + (if userCount == 0 then {ADMIN} else {})
  }

  class UserController {
    /** `UserService`'s rows, by id. */
    var users: map<Uuid, DbUser>
    /** The offers `offerService` holds, as offer id to owner id. */
    var offerOwners: map<Uuid, Uuid>
    const revokedTokenService: RevokedTokens.RevokedTokenService
    /** The errors each validator adds to `errors`, as their `toString()`; none means the value passed. */
    const invoiceChecks: UserWrite -> seq<string>
    const voivodeshipChecks: string -> seq<string>
    const emailChecks: string -> seq<string>
    const phoneChecks: Option<string> -> seq<string>
    const encode: string -> string
    /** `Character.toLowerCase`, one character at a time. */
    const lowerChar: char -> char
    /** `exchangePasswordForToken`: a JWT, or None when the password does not match. */
    const exchange: (DbUser, string) -> Option<string>

    /** Every stored user carries its own id. */
    ghost predicate Valid()
      reads this
    {
      forall id :: id in users ==> users[id].id == Some(id)
    }

    constructor (users: map<Uuid, DbUser>, offerOwners: map<Uuid, Uuid>,
                 revokedTokenService: RevokedTokens.RevokedTokenService,
                 invoiceChecks: UserWrite -> seq<string>, voivodeshipChecks: string -> seq<string>,
                 emailChecks: string -> seq<string>, phoneChecks: Option<string> -> seq<string>,
                 encode: string -> string, lowerChar: char -> char, exchange: (DbUser, string) -> Option<string>)
      requires forall id :: id in users ==> users[id].id == Some(id)
      ensures Valid()
      ensures this.users == users && this.offerOwners == offerOwners
      ensures this.revokedTokenService == revokedTokenService
      ensures this.invoiceChecks == invoiceChecks && this.voivodeshipChecks == voivodeshipChecks
      ensures this.emailChecks == emailChecks && this.phoneChecks == phoneChecks
      ensures this.encode == encode && this.lowerChar == lowerChar && this.exchange == exchange
    {
      this.users := users;
      this.offerOwners := offerOwners;
      this.revokedTokenService := revokedTokenService;
      this.invoiceChecks := invoiceChecks;
      this.voivodeshipChecks := voivodeshipChecks;
      this.emailChecks := emailChecks;
      this.phoneChecks := phoneChecks;
      this.encode := encode;
      this.lowerChar := lowerChar;
      this.exchange := exchange;
    }

    /**
     * All errors `add` collects, in the order the validators run, after the
     * binding errors of `@Valid`; None when the voivodeship lookup dereferences null.
     */
    function AddErrors(user: UserWrite, bindingErrors: seq<string>): Option<seq<string>>
    {
      if user.voivodeship.None? then None
      else Some(bindingErrors + invoiceChecks(user) + voivodeshipChecks(user.voivodeship.value.name)
                + emailChecks(user.email) + phoneChecks(user.phoneNumber))
    }

    /** The user `add` stores under `id`, given how many users there were. */
    function NewUser(user: UserWrite, id: Uuid, userCount: nat): (u: DbUser)
      reads this
      ensures u.id == Some(id) && u.roles == NewRoles(user.roles, userCount)
      ensures u.email == ToLowerCase(user.email, lowerChar) && u.password == encode(user.password)
    {
      ConvertToDbModel(user, encode, lowerChar).(id := Some(id), roles := NewRoles(user.roles, userCount))
    }

    /**
     * `add`. `newId` is the `UUID.randomUUID()` drawn for the user; `createOrUpdate`
     * saves under it and answers the saved user.
     */
    method Add(user: UserWrite, bindingErrors: seq<string>, newId: Uuid) returns (r: AddResponse)
      requires Valid()
      modifies this
      ensures Valid()
      ensures offerOwners == old(offerOwners)
      ensures AddErrors(user, bindingErrors).None? ==> r == ServerError && users == old(users)
      ensures AddErrors(user, bindingErrors).Some? && AddErrors(user, bindingErrors).value != [] ==>
        r == Unprocessable(CreateErrorString(AddErrors(user, bindingErrors).value)) && users == old(users)
      ensures AddErrors(user, bindingErrors) == Some([]) ==>
        r == Created(ConvertToView(NewUser(user, newId, |old(users)|))) &&
        users == old(users)[newId := NewUser(user, newId, |old(users)|)]
    {
      var errors := bindingErrors;
      errors := errors + invoiceChecks(user);
      if user.voivodeship.None? {
        return ServerError;
      }
      errors := errors + voivodeshipChecks(user.voivodeship.value.name);
      errors := errors + emailChecks(user.email);
      errors := errors + phoneChecks(user.phoneNumber);
      if |errors| > 0 {
        return Unprocessable(CreateErrorString(errors));
      }
      var dbUser := ConvertToDbModel(user, encode, lowerChar);
      dbUser := dbUser.(id := Some(newId));
      dbUser := dbUser.(roles := dbUser.roles + {USER});
      if |users| == 0 {
        dbUser := dbUser.(roles := dbUser.roles + {ADMIN});
      }
      assert dbUser == NewUser(user, newId, |users|);
      users := users[newId := dbUser];
      return Created(ConvertToView(dbUser));
    }

    /**
     * `delete`: only one's own account; then every offer of that user, and the
     * user. An absent user is reported as not found, with nothing deleted.
     */
    method Delete(id: Uuid, ctx: RevokedTokens.UserContext) returns (r: DeleteResponse)
      requires Valid()
      modifies this
      ensures Valid()
      ensures id != ctx.userId ==> r == Forbidden && users == old(users) && offerOwners == old(offerOwners)
      ensures id == ctx.userId && id !in old(users) ==>
        r == UserNotFound && users == old(users) && offerOwners == old(offerOwners)
      ensures id == ctx.userId && id in old(users) ==>
        r == Deleted && users == old(users) - {id} &&
        offerOwners == map o | o in old(offerOwners) && old(offerOwners)[o] != id :: old(offerOwners)[o]
    {
      var authenticatedUserId := ctx.userId;
      if id != authenticatedUserId {
        return Forbidden;
      }
      if authenticatedUserId !in users {
        return UserNotFound;
      }
      offerOwners := map o | o in offerOwners && offerOwners[o] != authenticatedUserId :: offerOwners[o];
      users := users - {id};
      return Deleted;
    }

    /** Whether some stored user has exactly the e-mail `email`. */
    ghost predicate HasEmail(email: string)
      reads this
    {
      exists id :: id in users && users[id].email == email
    }

    /**
     * `login`: the user found by the lower-cased credential e-mail, then the
     * password exchanged for a JWT; the token carries that user's fields.
     * `expirationDate` is what the token service reports.
     */
    method Login(credentials: Credentials, expirationDate: Int64) returns (r: LoginResponse)
      ensures r.NoSuchUser? <==> !HasEmail(ToLowerCase(credentials.email, lowerChar))
      ensures r.BadCredentials? ==>
        exists id :: id in users && users[id].email == ToLowerCase(credentials.email, lowerChar) &&
                     exchange(users[id], credentials.password).None?
      ensures r.LoggedIn? ==>
        exists id :: id in users && users[id].email == ToLowerCase(credentials.email, lowerChar) &&
                     exchange(users[id], credentials.password).Some? &&
                     r.token == Token(users[id].id, users[id].email, users[id].name, users[id].surname,
                                      users[id].roles, expirationDate, exchange(users[id], credentials.password).value)
    {
      var email := ToLowerCase(credentials.email, lowerChar);
      if !exists id :: id in users && users[id].email == email {
        return NoSuchUser;
      }
      var id :| id in users && users[id].email == email;
      var user := users[id];
      var jwt := exchange(user, credentials.password);
      if jwt.None? {
        return BadCredentials;
      }
      return LoggedIn(Token(user.id, user.email, user.name, user.surname, user.roles, expirationDate, jwt.value));
    }

    /** `logout`: revokes the context's (user id, expiration date) pair, and nothing else is added. */
    method Logout(ctx: RevokedTokens.UserContext, now: Int64)
      modifies revokedTokenService
      ensures revokedTokenService.nextTokenRemoval ==
        if RevokedTokens.SweepDue(now, old(revokedTokenService.nextTokenRemoval))
        then Wrap64(now + revokedTokenService.revokedTokenInterval)
        else old(revokedTokenService.nextTokenRemoval)
      ensures revokedTokenService.IsRevoked(ctx)
      ensures forall c :: revokedTokenService.IsRevoked(c) <==>
        RevokedTokens.TokenOf(c) == RevokedTokens.TokenOf(ctx) ||
        (old(revokedTokenService.IsRevoked(c)) &&
         !(RevokedTokens.SweepDue(now, old(revokedTokenService.nextTokenRemoval)) &&
           revokedTokenService.expired(RevokedTokens.TokenOf(c), now)))
      ensures revokedTokenService.store ==
        (if RevokedTokens.SweepDue(now, old(revokedTokenService.nextTokenRemoval))
         then RevokedTokens.RemoveExpired(old(revokedTokenService.store), now, revokedTokenService.expired)
         else old(revokedTokenService.store)) + [RevokedTokens.TokenOf(ctx)]
    {
      var expirationDate := ctx.expirationDate;
      var userId := ctx.userId;
      var dbRevokedToken := RevokedTokens.RevokedToken(userId, expirationDate);
      assert dbRevokedToken == RevokedTokens.TokenOf(ctx);
      revokedTokenService.Logout(dbRevokedToken, now);
    }
  }

  /**
   * Sign-up then login: a user added to an empty store is an ADMIN, and logging
   * in with the sign-up e-mail, in any letter case that lower-cases the same,
   * finds a user (it is not answered `NoSuchUser`).
   */
  method SignUpThenLogin(c: UserController, user: UserWrite, newId: Uuid, credentials: Credentials, expirationDate: Int64)
    returns (added: AddResponse, login: LoginResponse)
    requires c.Valid() && c.users == map[]
    requires c.AddErrors(user, []) == Some([])
    requires ToLowerCase(credentials.email, c.lowerChar) == ToLowerCase(user.email, c.lowerChar)
    modifies c
    ensures added.Created? && newId in c.users && c.users[newId].roles == user.roles + {USER, ADMIN}
    ensures !login.NoSuchUser?
  {
    added := c.Add(user, [], newId);
    assert c.users[newId].email == ToLowerCase(user.email, c.lowerChar);
    login := c.Login(credentials, expirationDate);
  }
}
