/** The documents kept in the survey database's collections, the role names the
    server compares against, and the two lookups every handler relies on: find
    the first user with a given email, and the shape of an update's result. */
module Documents {

  datatype Option<+T> = None | Some(value: T)

  /** Document ids. The store hands them out in insertion order, so a
      document's id is its position in its collection. */
  type Id = nat

  const AdminRole: string := "admin"
  const ProUserRole: string := "pro-user"
  const SurveyorRole: string := "surveyor"
  const UserRole: string := "user"

  /** A user document. Registration stores the request body as it comes, so the
      role may be missing, or any string the client sent. */
  datatype User = User(email: string, name: string, role: Option<string>)

  /** A survey document. `surverior` is the owner's email, spelled as the
      client sends it. */
  datatype Survey = Survey(
    image: string,
    title: string,
    description: string,
    category: string,
    deadline: string,
    status: Option<string>,
    voteCount: Option<int>,
    surverior: string)

  /** One vote cast by one user; `surveyId` is copied from the vote body. */
  datatype Participation = Participation(
    votedUserName: string,
    votedUserEmail: string,
    surveyId: string,
    usersVote: string)

  datatype Payment = Payment(email: string, amount: int, metadata: string)

  /** What `updateOne` reports: how many documents the filter matched and how
      many of those actually changed. */
  datatype UpdateResult = UpdateResult(matchedCount: nat, modifiedCount: nat)

  datatype InsertResult = InsertResult(insertedId: Id)

  /** The result of an update of the document at `id`, given the collection
      before and after it. Writing the values a document already has matches
      it but does not modify it. */
  function UpdateReport<T(==)>(before: seq<T>, after: seq<T>, id: Id): (r: UpdateResult)
    requires |before| == |after|
    ensures r.matchedCount == 1 <==> id < |before|
    ensures r.modifiedCount == 1 <==> id < |before| && before[id] != after[id]
    ensures r.modifiedCount <= r.matchedCount <= 1
  {
    if id < |before| then UpdateResult(1, if before[id] == after[id] then 0 else 1)
    else UpdateResult(0, 0)
  }

  /** No two users share an email. */
  ghost predicate UniqueEmails(users: seq<User>) {
    forall i, j :: 0 <= i < j < |users| ==> users[i].email != users[j].email
  }

  /** `findOne({ email })` on the users collection: the id of the first user
      with that email, or None when there is none. */
  function FindByEmail(users: seq<User>, email: string): (r: Option<Id>)
    ensures r.Some? ==> r.value < |users| && users[r.value].email == email
    ensures r.Some? ==> forall j :: 0 <= j < r.value ==> users[j].email != email
    ensures r.None? <==> forall j :: 0 <= j < |users| ==> users[j].email != email
  {
    if |users| == 0 then None
    else if users[0].email == email then Some(0)
    else match FindByEmail(users[1..], email)
      case None => None
      case Some(k) => Some(k + 1)
  }

  /** With unique emails, the lookup finds a user exactly when that user has
      the email asked for. */
  lemma FindByEmailUnique(users: seq<User>, email: string, i: Id)
    requires UniqueEmails(users)
    requires i < |users|
    ensures FindByEmail(users, email) == Some(i) <==> users[i].email == email
  {
  }

  /** The lookup reads only emails: two tables whose users have the same
      emails, position by position, answer every lookup alike. */
  lemma {:induction false} FindByEmailReadsOnlyEmails(u1: seq<User>, u2: seq<User>, email: string)
    requires |u1| == |u2|
    requires forall j :: 0 <= j < |u1| ==> u1[j].email == u2[j].email
    ensures FindByEmail(u1, email) == FindByEmail(u2, email)
  {
    if |u1| > 0 && u1[0].email != email {
      FindByEmailReadsOnlyEmails(u1[1..], u2[1..], email);
    }
  }
}
