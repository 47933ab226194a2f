/** The server's database and its write handlers. Each collection is a field
    the handlers reassign; the users collection keeps one user per email.
    Every handler states its whole new state in terms of the functions of
    `Roles` and `Surveys`, whose properties are proved there. None of these
    routes is behind `verifyToken` or `verifyAdmin`: any caller may run them. */
module SurveyDb {
  import opened Documents
  import opened Roles
  import opened Surveys

  const UserExistsMessage: string := "User already exist"

  /** The reply to `POST /users`. */
  datatype RegisterReply = AlreadyExists | Inserted(result: InsertResult) {
    /** The message of the reply body; an insertion replies with the insert
        result and no message. */
    function Message(): (m: Option<string>)
      ensures m.Some? <==> AlreadyExists?
      ensures m.Some? ==> m.value == "User already exist"
    {
      if AlreadyExists? then Some(UserExistsMessage) else None
    }
  }

  class Store {
    var users: seq<User>
    var surveys: seq<Survey>
    var participates: seq<Participation>
    var payments: seq<Payment>

    ghost predicate Valid()
      reads this
    {
      UniqueEmails(users)
    }

    constructor ()
      ensures Valid()
      ensures users == [] && surveys == [] && participates == [] && payments == []
    {
      users, surveys, participates, payments := [], [], [], [];
    }

    /** `PATCH /users/:id/make-pro-user` */
    method MakeProUser(id: Id) returns (result: UpdateResult)
      requires Valid()
      modifies this
      ensures Valid()
      ensures users == SetRoleById(old(users), id, ProUserRole)
      ensures result == UpdateReport(old(users), users, id)
      ensures surveys == old(surveys) && participates == old(participates) && payments == old(payments)
    {
      result := SetRole(id, ProUserRole);
    }

    /** `PATCH /users/:id/make-user` */
    method MakeUser(id: Id) returns (result: UpdateResult)
      requires Valid()
      modifies this
      ensures Valid()
      ensures users == SetRoleById(old(users), id, UserRole)
      ensures result == UpdateReport(old(users), users, id)
      ensures surveys == old(surveys) && participates == old(participates) && payments == old(payments)
    {
      result := SetRole(id, UserRole);
    }

    /** `updateOne({ _id: id }, { $set: { role } })` on the users collection. */
    method SetRole(id: Id, role: string) returns (result: UpdateResult)
      requires Valid()
      modifies this
      ensures Valid()
      ensures users == SetRoleById(old(users), id, role)
      ensures result == UpdateReport(old(users), users, id)
      ensures surveys == old(surveys) && participates == old(participates) && payments == old(payments)
    {
      var before := users;
      if id < |users| {
        users := users[id := WithRole(users[id], role)];
      }
      result := UpdateReport(before, users, id);
      SetRoleByIdPreservesUnique(before, id, role);
    }

    /** `POST /users`: look the email up; if a user has it, answer that it
      already exists, otherwise insert the body. */
    method RegisterUser(u: User) returns (reply: RegisterReply)
      requires Valid()
      modifies this
      ensures Valid()
      ensures users == Registered(old(users), u)
      ensures reply.AlreadyExists? <==> exists j :: 0 <= j < |old(users)| && old(users)[j].email == u.email
      ensures reply.AlreadyExists? ==> reply.Message() == Some(UserExistsMessage)
      ensures reply.Inserted? ==> reply.result.insertedId == |old(users)| && users[|old(users)|] == u
      ensures surveys == old(surveys) && participates == old(participates) && payments == old(payments)
    {
      var existing := FindByEmail(users, u.email);
      if existing.Some? {
        return AlreadyExists;
      }
      users := users + [u];
      reply := Inserted(InsertResult(|users| - 1));
    }

    /** The shared second half of `POST /surveys` and `POST /payments`: look
      the email up and, when the rule of `DecideTransition` allows it, set
      the user's role to the event's target; the update's report is returned
      only when the update ran. */
    method Transition(email: string, e: Event) returns (updateUserRole: Option<UpdateResult>)
      requires Valid()
      modifies this
      ensures Valid()
      ensures users == Promoted(old(users), email, e)
      ensures updateUserRole.Some? <==> PromotedId(old(users), email, e).Some?
      ensures updateUserRole.Some? ==> updateUserRole.value.matchedCount == 1
      ensures updateUserRole.Some? ==>
        (updateUserRole.value.modifiedCount == 1 <==> old(users)[PromotedId(old(users), email, e).value].role != Some(e.Target()))
      ensures surveys == old(surveys) && participates == old(participates) && payments == old(payments)
    {
      PromotedPreservesUnique(users, email, e);
      var found := FindByEmail(users, email);
      updateUserRole := None;
      if found.Some? {
        var i := found.value;
        if DecideTransition(Some(users[i]), e).Some? {
          var before := users;
          users := users[i := WithRole(users[i], e.Target())];
          updateUserRole := Some(UpdateReport(before, users, i));
        }
      }
    }

    /** `POST /surveys`: insert the survey, then promote its owner to
      "surveyor" unless the owner is missing or an admin. */
    method PostSurvey(s: Survey) returns (result: InsertResult, updateUserRole: Option<UpdateResult>)
      requires Valid()
      modifies this
      ensures Valid()
      ensures surveys == old(surveys) + [s] && result.insertedId == |old(surveys)|
      ensures users == Promoted(old(users), s.surverior, SurveySubmitted)
      ensures updateUserRole.Some? <==> PromotedId(old(users), s.surverior, SurveySubmitted).Some?
      ensures updateUserRole.Some? ==> updateUserRole.value.matchedCount == 1
      ensures updateUserRole.Some? ==>
        (updateUserRole.value.modifiedCount == 1 <==>
         old(users)[PromotedId(old(users), s.surverior, SurveySubmitted).value].role != Some(SurveySubmitted.Target()))
      ensures participates == old(participates) && payments == old(payments)
    {
      surveys := surveys + [s];
      result := InsertResult(|surveys| - 1);
      updateUserRole := Transition(s.surverior, SurveySubmitted);
    }

    /** `POST /payments`: append the payment, then promote the payer to
      "pro-user" unless the payer is missing or an admin. */
    method PostPayment(p: Payment) returns (result: InsertResult, updateUserRole: Option<UpdateResult>)
      requires Valid()
      modifies this
      ensures Valid()
      ensures payments == old(payments) + [p] && result.insertedId == |old(payments)|
      ensures users == Promoted(old(users), p.email, PaymentCompleted)
      ensures updateUserRole.Some? <==> PromotedId(old(users), p.email, PaymentCompleted).Some?
      ensures updateUserRole.Some? ==> updateUserRole.value.matchedCount == 1
      ensures updateUserRole.Some? ==>
        (updateUserRole.value.modifiedCount == 1 <==>
         old(users)[PromotedId(old(users), p.email, PaymentCompleted).value].role != Some(PaymentCompleted.Target()))
      ensures surveys == old(surveys) && participates == old(participates)
    {
      payments := payments + [p];
      result := InsertResult(|payments| - 1);
      updateUserRole := Transition(p.email, PaymentCompleted);
    }

    /** `PATCH /surveys/:id`: set the five descriptive fields. */
    method EditSurvey(id: Id, edit: SurveyEdit) returns (result: UpdateResult)
      requires Valid()
      modifies this
      ensures Valid()
      ensures surveys == Edited(old(surveys), id, edit)
      ensures result == UpdateReport(old(surveys), surveys, id)
      ensures users == old(users) && participates == old(participates) && payments == old(payments)
    {
      var before := surveys;
      if id < |surveys| {
        surveys := surveys[id := ApplyEdit(surveys[id], edit)];
      }
      result := UpdateReport(before, surveys, id);
    }

    /** `PUT /surveys/:id/vote`: overwrite the tally of the survey in the path,
      then append one participation record built from the body, whether or
      not the path matched a survey. */
    method Vote(id: Id, body: VoteBody) returns (result1: UpdateResult, result2: InsertResult)
      requires Valid()
      modifies this
      ensures Valid()
      ensures surveys == Voted(old(surveys), id, body.voteCount)
      ensures result1 == UpdateReport(old(surveys), surveys, id)
      ensures participates == old(participates) + [ParticipationOf(body)]
      ensures result2.insertedId == |old(participates)|
      ensures users == old(users) && payments == old(payments)
    {
      var before := surveys;
      if id < |surveys| {
        surveys := surveys[id := surveys[id].(voteCount := Some(body.voteCount))];
      }
      result1 := UpdateReport(before, surveys, id);
      participates := participates + [ParticipationOf(body)];
      result2 := InsertResult(|participates| - 1);
    }

    /** `updateOne({ _id: id }, { $set: { status } })` on the surveys collection. */
    method SetStatus(id: Id, status: string) returns (result: UpdateResult)
      requires Valid()
      modifies this
      ensures Valid()
      ensures surveys == WithStatus(old(surveys), id, status)
      ensures result == UpdateReport(old(surveys), surveys, id)
      ensures users == old(users) && participates == old(participates) && payments == old(payments)
    {
      var before := surveys;
      if id < |surveys| {
        surveys := surveys[id := surveys[id].(status := Some(status))];
      }
      result := UpdateReport(before, surveys, id);
    }

    /** `PATCH /surveys/:id/publish` */
    method Publish(id: Id) returns (result: UpdateResult)
      requires Valid()
      modifies this
      ensures Valid()
      ensures surveys == WithStatus(old(surveys), id, PublishStatus)
      ensures result == UpdateReport(old(surveys), surveys, id)
      ensures users == old(users) && participates == old(participates) && payments == old(payments)
    {
      result := SetStatus(id, PublishStatus);
    }

    /** `PATCH /surveys/:id/unpublish` */
    method Unpublish(id: Id) returns (result: UpdateResult)
      requires Valid()
      modifies this
      ensures Valid()
      ensures surveys == WithStatus(old(surveys), id, UnpublishStatus)
      ensures result == UpdateReport(old(surveys), surveys, id)
      ensures users == old(users) && participates == old(participates) && payments == old(payments)
    {
      result := SetStatus(id, UnpublishStatus);
    }
  }

  /** A user registers, posts a survey and pays; an admin does the same and
      stays an admin, until `make-user` demotes them. */
  method PromotionScenario()
  {
    var db := new Store();
    var r := db.RegisterUser(User("ann@example.com", "Ann", Some(UserRole)));
    r := db.RegisterUser(User("root@example.com", "Root", Some(AdminRole)));
    assert db.users[0].role == Some(UserRole) && db.users[1].email == "root@example.com";
    r := db.RegisterUser(User("ann@example.com", "Impostor", Some(AdminRole)));
    assert r == AlreadyExists && |db.users| == 2;

    var s := Survey("", "Lunch", "", "food", "", None, None, "ann@example.com");
    ghost var before := db.users;
    var inserted, updated := db.PostSurvey(s);
    PromotedIff(before, "ann@example.com", SurveySubmitted);
    assert db.users[0].role == Some(SurveyorRole);

    inserted, updated := db.PostPayment(Payment("ann@example.com", 10, ""));
    assert db.users[0].role == Some(ProUserRole);

    inserted, updated := db.PostPayment(Payment("root@example.com", 10, ""));
    assert updated == None && db.users[1].role == Some(AdminRole);

    var result := db.MakeUser(1);
    assert db.users[1].role == Some(UserRole) && result == UpdateResult(1, 1);

    var voted, recorded := db.Vote(0, VoteBody(42, "Ann", "ann@example.com", "elsewhere", "yes"));
    assert db.surveys[0].voteCount == Some(42) && |db.participates| == 1;
    assert db.participates[0].surveyId == "elsewhere";
  }
}
