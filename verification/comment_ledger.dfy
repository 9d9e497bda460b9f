/**
 * The external-id comment tools: a CSV of imported stories in which each row
 * records whether a "Pivotal Tracker Id" comment was added to the story
 * (pivotal-import/add_external_id_comment.py) and which the cleanup tool
 * resets once the comment is deleted (pivotal-import/delete_comments.py).
 *
 * A row moves from fresh (all four comment fields empty) to `success ==
 * "True"` or `"False"` when a comment is added, and from `"True"` back to
 * fresh when the comment is deleted.
 */
module CommentLedger {
  import opened Common
  import Decimal

  /** One row of the comment CSV; every cell is text. */
  datatype CommentRow = CommentRow(
    id: string,
    externalId: string,
    commentCreatedAt: string,
    commentId: string,
    success: string,
    error: string)

  /** A story as the target tracker lists it: its id and its external id, either possibly missing. */
  datatype FetchedStory = FetchedStory(id: Option<nat>, externalId: Option<string>)

  /** What the comment request did: the tracker's answer (its fields possibly missing) or an exception. */
  datatype PostOutcome =
    | Posted(createdAt: Option<string>, commentId: Option<nat>)
    | PostRaised(message: string)

  /** What the comment deletion request did. */
  datatype DeleteOutcome = Deleted | DeleteRaised(message: string)

  /** The dictionary `add_comment_to_story` returns. */
  datatype AddResult = AddResult(success: bool, createdAt: string, commentId: string, error: string)

  /** Python's `str(b)` for a boolean, as the CSV stores it. */
  function BoolText(b: bool): string {
    if b then "True" else "False"
  }

  /** A row with none of the four comment fields set. */
  predicate IsFresh(row: CommentRow) {
    row.commentCreatedAt == "" && row.commentId == "" && row.success == "" && row.error == ""
  }

  /** The initial row of a fetched story; a missing id is written as an empty cell. */
  function InitialRow(story: FetchedStory): (row: CommentRow)
    ensures IsFresh(row)
    ensures row.externalId == story.externalId.GetOr("")
    ensures story.id.Some? ==> row.id == Decimal.DecimalString(story.id.value)
    ensures story.id.None? ==> row.id == ""
  {
    CommentRow(if story.id.Some? then Decimal.DecimalString(story.id.value) else "", story.externalId.GetOr(""), "", "", "", "")
  }

  /** `create_initial_csv`: one fresh row per fetched story, in the order fetched. */
  method CreateInitialCsv(stories: seq<FetchedStory>) returns (rows: seq<CommentRow>)
    ensures |rows| == |stories|
    ensures forall i :: 0 <= i < |rows| ==> rows[i] == InitialRow(stories[i])
  {
    rows := [];
    for i := 0 to |stories|
      invariant rows == seq(i, j requires 0 <= j < i => InitialRow(stories[j]))
    {
      rows := rows + [InitialRow(stories[i])];
    }
  }

  /** The text of the comment that records a story's source id. */
  function CommentText(externalId: string): (text: string)
    ensures |text| == |"Pivotal Tracker Id "| + |externalId|
    ensures text[..|"Pivotal Tracker Id "|] == "Pivotal Tracker Id " && text[|"Pivotal Tracker Id "|..] == externalId
  {
    "Pivotal Tracker Id " + externalId
  }

  /**
   * `add_comment_to_story`: the outcome of posting the comment, as a result
   * row. `post` answers the request for a story id and a comment text.
   */
  function AddCommentToStory(storyId: string, externalId: string, post: (string, string) -> PostOutcome): (r: AddResult)
    ensures post(storyId, CommentText(externalId)).Posted? ==>
      && r.success && r.error == ""
      && r.createdAt == post(storyId, CommentText(externalId)).createdAt.GetOr("")
      && (post(storyId, CommentText(externalId)).commentId.Some? ==>
            r.commentId == Decimal.DecimalString(post(storyId, CommentText(externalId)).commentId.value))
      && (post(storyId, CommentText(externalId)).commentId.None? ==> r.commentId == "")
    ensures post(storyId, CommentText(externalId)).PostRaised? ==>
      r == AddResult(false, "", "", post(storyId, CommentText(externalId)).message)
  {
    match post(storyId, CommentText(externalId))
    case Posted(createdAt, commentId) =>
      AddResult(true, createdAt.GetOr(""), if commentId.Some? then Decimal.DecimalString(commentId.value) else "", "")
    case PostRaised(message) => AddResult(false, "", "", message)
  }

  /** A row is sent a comment when it has an external id and no recorded outcome. */
  predicate NeedsComment(row: CommentRow) {
    row.externalId != "" && row.success == ""
  }

  /** One row of `process_existing_stories`: an eligible row takes the outcome in its four comment fields. */
  function AddStep(row: CommentRow, post: (string, string) -> PostOutcome): CommentRow {
    if NeedsComment(row) then
      var result := AddCommentToStory(row.id, row.externalId, post);
      row.(commentCreatedAt := result.createdAt, commentId := result.commentId,
           success := BoolText(result.success), error := result.error)
    else row
  }

  /** The rows whose success cell reads `"True"`. */
  function CountSucceeded(rows: seq<CommentRow>): nat {
    if rows == [] then 0 else CountSucceeded(rows[..|rows| - 1]) + (if rows[|rows| - 1].success == "True" then 1 else 0)
  }

  /** The id cells of the eligible rows, in order: the stories a run posts to. */
  function PostedIds(rows: seq<CommentRow>): seq<string> {
    if rows == [] then [] else PostedIds(rows[..|rows| - 1]) + (if NeedsComment(rows[|rows| - 1]) then [rows[|rows| - 1].id] else [])
  }

  /**
   * `process_existing_stories`: every row is written back in order, the
   * eligible ones updated, and the rows that now read `"True"` are counted.
   */
  method ProcessExistingStories(rows: seq<CommentRow>, post: (string, string) -> PostOutcome)
    returns (updated: seq<CommentRow>, succeeded: nat, ghost posted: seq<string>)
    ensures |updated| == |rows|
    ensures forall i :: 0 <= i < |rows| ==> updated[i] == AddStep(rows[i], post)
    ensures succeeded == CountSucceeded(updated)
    ensures posted == PostedIds(rows)
  {
    updated := [];
    posted := [];
    for i := 0 to |rows|
      invariant |updated| == i
      invariant forall j :: 0 <= j < i ==> updated[j] == AddStep(rows[j], post)
      invariant posted == PostedIds(rows[..i])
    {
      var story := rows[i];
      if story.externalId != "" && story.success == "" {
        var result := AddCommentToStory(story.id, story.externalId, post);
        story := story.(commentCreatedAt := result.createdAt, commentId := result.commentId,
                        success := BoolText(result.success), error := result.error);
        posted := posted + [rows[i].id];
      }
      assert rows[..i + 1][..i] == rows[..i];
      updated := updated + [story];
    }
    assert rows[..|rows|] == rows;
    succeeded := 0;
    for i := 0 to |updated|
      invariant succeeded == CountSucceeded(updated[..i])
    {
      assert updated[..i + 1][..i] == updated[..i];
      if updated[i].success == "True" {
        succeeded := succeeded + 1;
      }
    }
    assert updated[..|updated|] == updated;
  }

  /** Adding changes only the four comment fields, and only of an eligible row. */
  lemma AddStepFrame(row: CommentRow, post: (string, string) -> PostOutcome)
    ensures AddStep(row, post).id == row.id && AddStep(row, post).externalId == row.externalId
    ensures !NeedsComment(row) ==> AddStep(row, post) == row
    ensures NeedsComment(row) ==> AddStep(row, post).success in {"True", "False"}
  {
  }

  /** A row already marked `"True"` or `"False"` is never sent a comment again. */
  lemma AddNeverRetries(row: CommentRow, post: (string, string) -> PostOutcome)
    requires row.success == "True" || row.success == "False"
    ensures AddStep(row, post) == row
  {
  }

  /** A second run with any answers changes nothing: every eligible row was settled by the first. */
  lemma AddIdempotent(row: CommentRow, post1: (string, string) -> PostOutcome, post2: (string, string) -> PostOutcome)
    ensures AddStep(AddStep(row, post1), post2) == AddStep(row, post1)
  {
    AddStepFrame(row, post1);
  }

  /** A row is cleaned up when its comment was added and its id recorded. */
  predicate HasComment(row: CommentRow) {
    row.success == "True" && row.commentId != ""
  }

  /** The error text recorded when a deletion fails. */
  function DeleteErrorText(message: string): string {
    "Error deleting comment: " + message
  }

  /**
   * One row of `delete_comments`: a deleted comment resets the four fields;
   * a failed deletion records only its error. `delete` answers the request
   * for a story id and a comment id.
   */
  function DeleteStep(row: CommentRow, delete: (string, string) -> DeleteOutcome): CommentRow {
    if HasComment(row) then
      match delete(row.id, row.commentId)
      case Deleted => row.(commentCreatedAt := "", commentId := "", success := "", error := "")
      case DeleteRaised(message) => row.(error := DeleteErrorText(message))
    else row
  }

  /** `delete_comments`: every row is written back in order, the rows with a comment updated. */
  method DeleteComments(rows: seq<CommentRow>, delete: (string, string) -> DeleteOutcome) returns (updated: seq<CommentRow>)
    ensures |updated| == |rows|
    ensures forall i :: 0 <= i < |rows| ==> updated[i] == DeleteStep(rows[i], delete)
  {
    updated := [];
    for i := 0 to |rows|
      invariant |updated| == i
      invariant forall j :: 0 <= j < i ==> updated[j] == DeleteStep(rows[j], delete)
    {
      var story := rows[i];
      if story.success == "True" && story.commentId != "" {
        match delete(story.id, story.commentId)
        case Deleted =>
          story := story.(commentCreatedAt := "", commentId := "", success := "", error := "");
        case DeleteRaised(message) =>
          story := story.(error := DeleteErrorText(message));
      }
      updated := updated + [story];
    }
  }

  /** Deleting never changes the id cells, and a row without a comment is left as it is. */
  lemma DeleteStepFrame(row: CommentRow, delete: (string, string) -> DeleteOutcome)
    ensures DeleteStep(row, delete).id == row.id && DeleteStep(row, delete).externalId == row.externalId
    ensures !HasComment(row) ==> DeleteStep(row, delete) == row
  {
  }

  /** A successful deletion leaves the row fresh, as the initial CSV wrote it. */
  lemma DeleteResetsToInitial(row: CommentRow, delete: (string, string) -> DeleteOutcome)
    requires HasComment(row) && delete(row.id, row.commentId).Deleted?
    ensures IsFresh(DeleteStep(row, delete))
  {
  }

  /** A failed deletion keeps the comment fields, so the row is tried again on the next run. */
  lemma FailedDeleteStaysEligible(row: CommentRow, delete: (string, string) -> DeleteOutcome)
    requires HasComment(row) && delete(row.id, row.commentId).DeleteRaised?
    ensures HasComment(DeleteStep(row, delete))
    ensures DeleteStep(row, delete) == row.(error := DeleteErrorText(delete(row.id, row.commentId).message))
  {
  }

  /** A row reset by one cleanup run is not touched by the next. */
  lemma DeleteSecondRunSkipsReset(row: CommentRow, delete1: (string, string) -> DeleteOutcome, delete2: (string, string) -> DeleteOutcome)
    requires HasComment(row) && delete1(row.id, row.commentId).Deleted?
    ensures DeleteStep(DeleteStep(row, delete1), delete2) == DeleteStep(row, delete1)
  {
  }

  /**
   * Round trip: adding a comment to a fresh row and deleting it again gives
   * back the fresh row, when the tracker answered with the comment's id and
   * then deleted it.
   */
  lemma AddThenDeleteRoundTrip(row: CommentRow, post: (string, string) -> PostOutcome, delete: (string, string) -> DeleteOutcome)
    requires IsFresh(row) && row.externalId != ""
    requires post(row.id, CommentText(row.externalId)).Posted?
    requires post(row.id, CommentText(row.externalId)).commentId.Some?
    requires delete(row.id, Decimal.DecimalString(post(row.id, CommentText(row.externalId)).commentId.value)).Deleted?
    ensures DeleteStep(AddStep(row, post), delete) == row
  {
    var added := AddStep(row, post);
    assert added.commentId == Decimal.DecimalString(post(row.id, CommentText(row.externalId)).commentId.value);
    assert HasComment(added);
  }

  /** A failed add is final: the row is neither retried nor cleaned up. */
  lemma FailedAddIsFinal(row: CommentRow, post: (string, string) -> PostOutcome, delete: (string, string) -> DeleteOutcome)
    requires NeedsComment(row) && post(row.id, CommentText(row.externalId)).PostRaised?
    ensures AddStep(row, post).success == "False"
    ensures DeleteStep(AddStep(row, post), delete) == AddStep(row, post)
  {
  }
}
