/** The request gates of the server: `verifyToken` (a session cookie must be
    present and verify), `verifyAdmin` (the token's user must be stored as an
    admin) and the four role-check endpoints `/users/<role>/:email`.

    Signature checking and expiry are not modelled: a `TokenOracle` stands for
    the token library's verification with the server's secret and the current
    time, answering the decoded claims or None. */
module Auth {
  import opened Documents

  /** The decoded token payload. It is whatever the client signed in for, so
      it may lack an email. */
  datatype Claims = Claims(email: Option<string>)

  type TokenOracle = string -> Option<Claims>

  /** Why a gate turned a request away. */
  datatype Denial = Unauthorized | Forbidden {
    function Status(): (code: nat)
      ensures code == 401 <==> this == Unauthorized
      ensures code == 403 <==> this == Forbidden
    {
      match this
      case Unauthorized => 401
      case Forbidden => 403
    }

    /** The message in the body of the denial's reply. */
    function Message(): (m: string)
      ensures m == "unauthorized access" <==> this == Unauthorized
      ensures m == "Forbidden access" <==> this == Forbidden
    {
      match this
      case Unauthorized => "unauthorized access"
      case Forbidden => "Forbidden access"
    }
  }

  /** Either the request goes on with a value, or it is answered with a denial. */
  datatype Gate<+T> = Pass(value: T) | Reject(denial: Denial)

  /** `verifyToken`: the cookie named `token` must be present and non-empty
      (an empty string is falsy, like a missing one), and the oracle must
      accept it; then its claims are attached to the request. */
  function VerifyToken(cookie: Option<string>, verify: TokenOracle): (r: Gate<Claims>)
    ensures r.Reject? ==> r.denial == Unauthorized
    ensures cookie == None || cookie == Some("") ==> r == Reject(Unauthorized)
    ensures r.Pass? <==> cookie.Some? && cookie.value != "" && verify(cookie.value).Some?
    ensures r.Pass? ==> Some(r.value) == verify(cookie.value)
  {
    match cookie
    case None => Reject(Unauthorized)
    case Some(token) =>
      if token == "" then Reject(Unauthorized)
      else match verify(token)
        case None => Reject(Unauthorized)
        case Some(claims) => Pass(claims)
  }

  /** The stored user with the email the token carries, as `findOne` returns
      it. A token without an email matches no user here because every user of
      this model has an email; a body stored without one, which the driver's
      `{ email: null }` query would match, is not modelled. */
  function TokenUser(users: seq<User>, claims: Claims): (r: Option<User>)
    ensures r.Some? ==> claims.email.Some? && r.value.email == claims.email.value
    ensures r.Some? ==> r.value in users
    ensures r.None? <==> claims.email.None? || forall j :: 0 <= j < |users| ==> users[j].email != claims.email.value
  {
    match claims.email
    case None => None
    case Some(e) =>
      match FindByEmail(users, e)
      case None => None
      case Some(i) => Some(users[i])
  }

  /** `verifyAdmin`, which runs after `verifyToken`: the request goes on only
      when the token's user is stored with the role "admin", exactly; a
      missing user is no admin. */
  function VerifyAdmin(users: seq<User>, claims: Claims): (r: Gate<Claims>)
    ensures r.Reject? ==> r.denial == Forbidden
    ensures r.Pass? ==> r.value == claims
    ensures r.Pass? <==> exists u :: TokenUser(users, claims) == Some(u) && u.role == Some(AdminRole)
  {
    match TokenUser(users, claims)
    case Some(u) =>
      if u.role == Some(AdminRole) then Pass(claims) else Reject(Forbidden)
    case None => Reject(Forbidden)
  }

  /** With unique emails, `verifyAdmin` lets a request through exactly when
      some stored user has the token's email and the role "admin". */
  lemma VerifyAdminIff(users: seq<User>, claims: Claims)
    requires UniqueEmails(users)
    ensures VerifyAdmin(users, claims).Pass? <==>
      claims.email.Some? &&
      exists i :: 0 <= i < |users| && users[i].email == claims.email.value && users[i].role == Some(AdminRole)
  {
    if claims.email.Some? {
      var e := claims.email.value;
      if i :| 0 <= i < |users| && users[i].email == e && users[i].role == Some(AdminRole) {
        FindByEmailUnique(users, e, i);
      }
    }
  }

  /** The four role-check endpoints: `/users/admin/:email`,
      `/users/proUser/:email`, `/users/surveyor/:email`, `/users/user/:email`. */
  datatype RoleEndpoint = AdminCheck | ProUserCheck | SurveyorCheck | UserCheck {
    /** The role the stored user must have. */
    function Role(): (role: string)
      ensures role == AdminRole <==> this == AdminCheck
      ensures role == ProUserRole <==> this == ProUserCheck
      ensures role == SurveyorRole <==> this == SurveyorCheck
      ensures role == UserRole <==> this == UserCheck
    {
      match this
      case AdminCheck => AdminRole
      case ProUserCheck => ProUserRole
      case SurveyorCheck => SurveyorRole
      case UserCheck => UserRole
    }

    /** The name of the boolean in the reply body. */
    function Key(): (key: string)
      ensures key == "admin" <==> this == AdminCheck
      ensures key == "proUser" <==> this == ProUserCheck
      ensures key == "surveyor" <==> this == SurveyorCheck
      ensures key == "user" <==> this == UserCheck
    {
      match this
      case AdminCheck => "admin"
      case ProUserCheck => "proUser"
      case SurveyorCheck => "surveyor"
      case UserCheck => "user"
    }
  }

  /** `{ <key>: <answer> }` */
  datatype RoleReply = RoleReply(key: string, answer: bool)

  /** A role-check handler, once `verifyToken` has let the request through:
      the route email must be the token's email (403 otherwise); then the
      answer says whether the user found by that email has the endpoint's
      role. */
  function RoleCheck(users: seq<User>, routeEmail: string, claims: Claims, ep: RoleEndpoint): (r: Gate<RoleReply>)
    ensures r.Reject? <==> claims.email != Some(routeEmail)
    ensures r.Reject? ==> r.denial == Forbidden
    ensures r.Pass? ==> r.value.key == ep.Key()
    ensures r.Pass? ==> (r.value.answer <==>
      exists i :: FindByEmail(users, routeEmail) == Some(i) && users[i].role == Some(ep.Role()))
  {
    if claims.email != Some(routeEmail) then Reject(Forbidden)
    else
      var found := FindByEmail(users, routeEmail);
      var answer := match found
        case None => false
        case Some(i) => users[i].role == Some(ep.Role());
      Pass(RoleReply(ep.Key(), answer))
  }

  /** The whole role-check request: `verifyToken`, then the handler. */
  function RoleRequest(users: seq<User>, cookie: Option<string>, verify: TokenOracle,
                       routeEmail: string, ep: RoleEndpoint): (r: Gate<RoleReply>)
    ensures r == Reject(Unauthorized) <==> VerifyToken(cookie, verify).Reject?
    ensures r == Reject(Forbidden) <==>
      VerifyToken(cookie, verify).Pass? && VerifyToken(cookie, verify).value.email != Some(routeEmail)
    ensures r.Pass? ==> r.value.key == ep.Key()
  {
    match VerifyToken(cookie, verify)
    case Reject(d) => Reject(d)
    case Pass(claims) => RoleCheck(users, routeEmail, claims, ep)
  }

  /** With unique emails, a role check that gets past both gates answers true
      exactly when a user with the route email exists and its role is the
      endpoint's role; a missing user answers false. */
  lemma RoleRequestAnswer(users: seq<User>, cookie: Option<string>, verify: TokenOracle,
                          routeEmail: string, ep: RoleEndpoint)
    requires UniqueEmails(users)
    requires RoleRequest(users, cookie, verify, routeEmail, ep).Pass?
    ensures RoleRequest(users, cookie, verify, routeEmail, ep).value.answer <==>
      exists i :: 0 <= i < |users| && users[i].email == routeEmail && users[i].role == Some(ep.Role())
  {
    if i :| 0 <= i < |users| && users[i].email == routeEmail && users[i].role == Some(ep.Role()) {
      FindByEmailUnique(users, routeEmail, i);
    }
  }

  /** A request turned away by a gate is turned away whatever the users
      collection holds: the answer is decided before any lookup. */
  lemma DenialIgnoresStore(u1: seq<User>, u2: seq<User>, cookie: Option<string>, verify: TokenOracle,
                           routeEmail: string, ep: RoleEndpoint)
    requires RoleRequest(u1, cookie, verify, routeEmail, ep).Reject?
    ensures RoleRequest(u2, cookie, verify, routeEmail, ep) == RoleRequest(u1, cookie, verify, routeEmail, ep)
  {
  }

  /** Only the endpoint's own role answers true: one stored user is confirmed
      by at most one of the four endpoints. */
  lemma AtMostOneRoleConfirmed(users: seq<User>, routeEmail: string, claims: Claims,
                               ep1: RoleEndpoint, ep2: RoleEndpoint)
    requires RoleCheck(users, routeEmail, claims, ep1) == Pass(RoleReply(ep1.Key(), true))
    requires RoleCheck(users, routeEmail, claims, ep2) == Pass(RoleReply(ep2.Key(), true))
    ensures ep1 == ep2
  {
  }
}
