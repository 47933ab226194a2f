/** How the surveys collection changes under the three survey updates: an
    edit of its descriptive fields, a vote, and a status toggle. Each names
    the fields it sets; everything else stays as it was. */
module Surveys {
  import opened Documents

  /** The five fields `PATCH /surveys/:id` sets. */
  datatype SurveyEdit = SurveyEdit(image: string, title: string, description: string,
                                   category: string, deadline: string)

  /** The body of `PUT /surveys/:id/vote`. The tally is the client's: the
      server stores it as given. `surveyId` is the body's own field and need
      not be the id in the path. */
  datatype VoteBody = VoteBody(voteCount: int, votedUserName: string, votedUserEmail: string,
                               surveyId: string, usersVote: string)

  const PublishStatus: string := "publish"
  const UnpublishStatus: string := "unpublish"

  /** The survey with the five edited fields replaced. */
  function ApplyEdit(s: Survey, edit: SurveyEdit): (r: Survey)
    ensures r.image == edit.image && r.title == edit.title && r.description == edit.description
    ensures r.category == edit.category && r.deadline == edit.deadline
    ensures r.status == s.status && r.voteCount == s.voteCount && r.surverior == s.surverior
  {
    s.(image := edit.image, title := edit.title, description := edit.description,
       category := edit.category, deadline := edit.deadline)
  }

  /** The survey at `id` after `PATCH /surveys/:id`. */
  function Edited(surveys: seq<Survey>, id: Id, edit: SurveyEdit): (r: seq<Survey>)
    ensures |r| == |surveys|
    ensures id < |surveys| ==> r[id] == ApplyEdit(surveys[id], edit)
    ensures forall j :: 0 <= j < |surveys| && j != id ==> r[j] == surveys[j]
  {
    if id < |surveys| then surveys[id := ApplyEdit(surveys[id], edit)] else surveys
  }

  /** The survey at `id` with its tally overwritten by the client's value. */
  function Voted(surveys: seq<Survey>, id: Id, voteCount: int): (r: seq<Survey>)
    ensures |r| == |surveys|
    ensures id < |surveys| ==> r[id] == surveys[id].(voteCount := Some(voteCount))
    ensures forall j :: 0 <= j < |surveys| && j != id ==> r[j] == surveys[j]
  {
    if id < |surveys| then surveys[id := surveys[id].(voteCount := Some(voteCount))] else surveys
  }

  /** The survey at `id` with its status set. */
  function WithStatus(surveys: seq<Survey>, id: Id, status: string): (r: seq<Survey>)
    ensures |r| == |surveys|
    ensures id < |surveys| ==> r[id] == surveys[id].(status := Some(status))
    ensures forall j :: 0 <= j < |surveys| && j != id ==> r[j] == surveys[j]
  {
    if id < |surveys| then surveys[id := surveys[id].(status := Some(status))] else surveys
  }

  /** The participation record a vote appends: the four body fields, and the
      body's survey id rather than the path's. */
  function ParticipationOf(body: VoteBody): (p: Participation)
    ensures p.votedUserName == body.votedUserName && p.votedUserEmail == body.votedUserEmail
    ensures p.surveyId == body.surveyId && p.usersVote == body.usersVote
  {
    Participation(body.votedUserName, body.votedUserEmail, body.surveyId, body.usersVote)
  }

  /** A vote overwrites the tally: the stored tally afterwards is the
      submitted one, whatever it was before (the vote does not add one to it),
      and a tally already stored leaves the survey unmodified. */
  lemma VoteOverwrites(surveys: seq<Survey>, id: Id, voteCount: int, before: Option<int>)
    requires id < |surveys|
    ensures Voted(surveys, id, voteCount) == Voted(surveys[id := surveys[id].(voteCount := before)], id, voteCount)
    ensures Voted(surveys, id, voteCount)[id].voteCount == Some(voteCount)
    ensures surveys[id].voteCount == Some(voteCount) ==>
      UpdateReport(surveys, Voted(surveys, id, voteCount), id) == UpdateResult(1, 0)
  {
    var other := surveys[id := surveys[id].(voteCount := before)];
    assert Voted(surveys, id, voteCount)[id] == Voted(other, id, voteCount)[id];
  }

  /** An edit leaves the tally, the status and the owner of every survey as
      they were. */
  lemma EditKeepsTallyAndStatus(surveys: seq<Survey>, id: Id, edit: SurveyEdit, j: Id)
    requires j < |surveys|
    ensures var r := Edited(surveys, id, edit);
      r[j].voteCount == surveys[j].voteCount && r[j].status == surveys[j].status &&
      r[j].surverior == surveys[j].surverior
  {
  }

  /** Publishing and unpublishing are idempotent: the second of two equal
      toggles leaves the collection as the first did and reports that it
      matched the survey but modified nothing. */
  lemma StatusIdempotent(surveys: seq<Survey>, id: Id, status: string)
    ensures var once := WithStatus(surveys, id, status);
      WithStatus(once, id, status) == once &&
      UpdateReport(once, WithStatus(once, id, status), id) ==
        UpdateResult(if id < |surveys| then 1 else 0, 0)
  {
    var once := WithStatus(surveys, id, status);
    if id < |surveys| {
      assert WithStatus(once, id, status)[id] == once[id];
    }
  }

  /** The last toggle wins: publish then unpublish leaves the survey
      unpublished, and the other way round. */
  lemma LastToggleWins(surveys: seq<Survey>, id: Id, first: string, second: string)
    requires id < |surveys|
    ensures WithStatus(WithStatus(surveys, id, first), id, second) == WithStatus(surveys, id, second)
  {
  }
}
