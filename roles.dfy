/** How the users collection changes: registration, the automatic promotions
    that follow a posted survey or a posted payment, and the two operator
    endpoints that set a role by id. Each is a function from the collection
    before to the collection after; the store's handlers are proved to
    perform exactly these. */
module Roles {
  import opened Documents

  /** The business events that trigger an automatic promotion. */
  datatype Event = SurveySubmitted | PaymentCompleted {
    /** The role the event promotes to. */
    function Target(): (role: string)
      ensures role != AdminRole
    {
      match this
      case SurveySubmitted => SurveyorRole
      case PaymentCompleted => ProUserRole
    }
  }

  /** The transition rule, given what the lookup by the event's email found:
      nothing when no user was found or the user is an admin, otherwise the
      event's target role. It never makes anyone an admin. */
  function DecideTransition(found: Option<User>, e: Event): (r: Option<string>)
    ensures r.None? <==> found.None? || found.value.role == Some(AdminRole)
    ensures r.Some? ==> r.value == e.Target() && r.value != AdminRole
  {
    match found
    case None => None
    case Some(u) => if u.role == Some(AdminRole) then None else Some(e.Target())
  }

  /** The id of the user that event `e` for `email` promotes, if any. */
  function PromotedId(users: seq<User>, email: string, e: Event): (r: Option<Id>)
    ensures r.Some? ==> r.value < |users| && users[r.value].email == email
    ensures r.Some? ==> users[r.value].role != Some(AdminRole)
    ensures r.None? <==> match FindByEmail(users, email)
      case None => true
      case Some(i) => users[i].role == Some(AdminRole)
  {
    match FindByEmail(users, email)
    case None => None
    case Some(i) => if DecideTransition(Some(users[i]), e).Some? then Some(i) else None
  }

  /** The user with the role field set, and every other field kept. */
  function WithRole(u: User, role: string): (r: User)
    ensures r.email == u.email && r.name == u.name && r.role == Some(role)
  {
    u.(role := Some(role))
  }

  /** The users collection after event `e` for `email` has run the transition
      rule. */
  function Promoted(users: seq<User>, email: string, e: Event): (r: seq<User>)
    ensures |r| == |users|
  {
    match PromotedId(users, email, e)
    case None => users
    case Some(i) => users[i := WithRole(users[i], e.Target())]
  }

  /** Admins are untouched by automatic transitions, and no one becomes an
      admin through one: the set of admins is the same before and after. */
  lemma PromotedKeepsAdmins(users: seq<User>, email: string, e: Event, j: Id)
    requires j < |users|
    ensures var r := Promoted(users, email, e);
      (users[j].role == Some(AdminRole) ==> r[j] == users[j]) &&
      (r[j].role == Some(AdminRole) <==> users[j].role == Some(AdminRole))
  {
  }

  /** Users whose email is not the event's are unchanged, and every user keeps
      its email and name. */
  lemma PromotedOnlyTouchesTarget(users: seq<User>, email: string, e: Event, j: Id)
    requires j < |users|
    ensures var r := Promoted(users, email, e);
      r[j].email == users[j].email && r[j].name == users[j].name &&
      (users[j].email != email ==> r[j] == users[j])
  {
  }

  /** The transition rule, stated over a collection with unique emails: the
      user with the event's email ends with the event's target role exactly
      when it exists and is not an admin, and otherwise keeps its role;
      when no user has the email, nothing changes. */
  lemma PromotedIff(users: seq<User>, email: string, e: Event)
    requires UniqueEmails(users)
    ensures var r := Promoted(users, email, e);
      forall j :: 0 <= j < |users| && users[j].email == email ==>
        r[j].role == (if users[j].role == Some(AdminRole) then users[j].role else Some(e.Target()))
    ensures (forall j :: 0 <= j < |users| ==> users[j].email != email) ==> Promoted(users, email, e) == users
  {
    forall j | 0 <= j < |users| && users[j].email == email {
      FindByEmailUnique(users, email, j);
    }
  }

  /** Emails do not change, so uniqueness survives a transition. */
  lemma PromotedPreservesUnique(users: seq<User>, email: string, e: Event)
    requires UniqueEmails(users)
    ensures UniqueEmails(Promoted(users, email, e))
  {
    var r := Promoted(users, email, e);
    forall i, j | 0 <= i < j < |r| ensures r[i].email != r[j].email {
      PromotedOnlyTouchesTarget(users, email, e, i);
      PromotedOnlyTouchesTarget(users, email, e, j);
    }
  }

  /** Running the same event twice promotes no further than running it once. */
  lemma PromotedIdempotent(users: seq<User>, email: string, e: Event)
    ensures Promoted(Promoted(users, email, e), email, e) == Promoted(users, email, e)
  {
    var r := Promoted(users, email, e);
    forall j | 0 <= j < |users| ensures r[j].email == users[j].email {
      PromotedOnlyTouchesTarget(users, email, e, j);
    }
    FindByEmailReadsOnlyEmails(users, r, email);
  }

  /** `make-pro-user` and `make-user`: the user with the given id gets the role,
      whatever role it had, an admin's included; an id that matches no user
      changes nothing. */
  function SetRoleById(users: seq<User>, id: Id, role: string): (r: seq<User>)
    ensures |r| == |users|
    ensures id < |users| ==> r[id] == WithRole(users[id], role)
    ensures forall j :: 0 <= j < |users| && j != id ==> r[j] == users[j]
  {
    if id < |users| then users[id := WithRole(users[id], role)] else users
  }

  /** The operator endpoints keep emails, hence their uniqueness. */
  lemma SetRoleByIdPreservesUnique(users: seq<User>, id: Id, role: string)
    requires UniqueEmails(users)
    ensures UniqueEmails(SetRoleById(users, id, role))
  {
    var r := SetRoleById(users, id, role);
    forall i, j | 0 <= i < j < |r| ensures r[i].email != r[j].email {
      assert r[i].email == users[i].email && r[j].email == users[j].email;
    }
  }

  /** Unlike the automatic transitions, `make-user` demotes any admin it is
      pointed at, keeping the admin's email. */
  lemma MakeUserDemotesAdmin(users: seq<User>, id: Id)
    requires id < |users| && users[id].role == Some(AdminRole)
    ensures SetRoleById(users, id, UserRole)[id].role == Some(UserRole)
    ensures SetRoleById(users, id, UserRole)[id].email == users[id].email
  {
  }

  /** `POST /users`: a user whose email is already stored is turned away and
      the collection is left as it is; otherwise the body is appended. */
  function Registered(users: seq<User>, u: User): (r: seq<User>)
    ensures (exists j :: 0 <= j < |users| && users[j].email == u.email) ==> r == users
    ensures (forall j :: 0 <= j < |users| ==> users[j].email != u.email) ==> r == users + [u]
  {
    if FindByEmail(users, u.email).Some? then users else users + [u]
  }

  /** Registration keeps emails unique. */
  lemma RegisteredPreservesUnique(users: seq<User>, u: User)
    requires UniqueEmails(users)
    ensures UniqueEmails(Registered(users, u))
  {
  }

  /** Registering the same body twice leaves the collection as registering it
      once, and exactly one user then has its email. */
  lemma RegisteredTwice(users: seq<User>, u: User)
    requires UniqueEmails(users)
    ensures Registered(Registered(users, u), u) == Registered(users, u)
    ensures var r := Registered(users, u);
      exists i :: 0 <= i < |r| && r[i].email == u.email &&
        forall j :: 0 <= j < |r| && r[j].email == u.email ==> j == i
  {
    var r := Registered(users, u);
    var i := if FindByEmail(users, u.email).Some? then FindByEmail(users, u.email).value else |users|;
    assert r[i].email == u.email;
    RegisteredPreservesUnique(users, u);
  }
}
