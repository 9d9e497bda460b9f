/**
 * Creating a list of stories with the bulk endpoint, falling back to one
 * request per story when the bulk request raises
 * (pivotal-import/pivotal_import.py, `create_stories`). The target
 * tracker's answers are parameters.
 */
module Creation {
  import opened Common
  import opened Values

  /** The target tracker's answers: the bulk endpoint for a list of payloads, and the single-story endpoint. */
  datatype StoryApi = StoryApi(bulk: seq<Row> -> Result<seq<Imported>, string>, single: Row -> Result<Imported, string>)

  /** The payloads of the stories, in order. */
  function Payloads(stories: seq<EntityRecord>): (payloads: seq<Row>)
    ensures |payloads| == |stories|
  {
    seq(|stories|, i requires 0 <= i < |stories| => stories[i].entity)
  }

  /** `story["imported_entity"] = created`. */
  function WithImported(story: EntityRecord, created: Imported): EntityRecord {
    story.(importedEntity := Some(created))
  }

  /** `zip(created_entities, stories)`: each story paired with the entity created in its place. */
  function Zipped(created: seq<Imported>, stories: seq<EntityRecord>): (zipped: seq<EntityRecord>)
    ensures |zipped| == Min(|created|, |stories|)
  {
    seq(Min(|created|, |stories|), i requires 0 <= i < Min(|created|, |stories|) => WithImported(stories[i], created[i]))
  }

  /** The stories the single-story endpoint created, in order. */
  function OneByOneCreated(stories: seq<EntityRecord>, single: Row -> Result<Imported, string>): seq<EntityRecord> {
    if stories == [] then []
    else
      var last := stories[|stories| - 1];
      var answer := single(last.entity);
      OneByOneCreated(stories[..|stories| - 1], single) + (if answer.Success? then [WithImported(last, answer.value)] else [])
  }

  /** The stories the single-story endpoint refused, each with `str(error)` as its error message, in order. */
  function OneByOneFailed(stories: seq<EntityRecord>, single: Row -> Result<Imported, string>): seq<EntityRecord> {
    if stories == [] then []
    else
      var last := stories[|stories| - 1];
      var answer := single(last.entity);
      OneByOneFailed(stories[..|stories| - 1], single) + (if answer.Failure? then [last.(errorMessage := Some(answer.error))] else [])
  }

  /**
   * The fallback splits the stories: every story lands in exactly one of
   * the two lists, a created story carries its created entity and a
   * refused one its error.
   */
  lemma {:induction false} OneByOneSplits(stories: seq<EntityRecord>, single: Row -> Result<Imported, string>)
    ensures |OneByOneCreated(stories, single)| + |OneByOneFailed(stories, single)| == |stories|
    ensures forall s :: s in OneByOneCreated(stories, single) <==>
      exists i :: 0 <= i < |stories| && single(stories[i].entity).Success? && s == WithImported(stories[i], single(stories[i].entity).value)
    ensures forall s :: s in OneByOneFailed(stories, single) <==>
      exists i :: 0 <= i < |stories| && single(stories[i].entity).Failure? && s == stories[i].(errorMessage := Some(single(stories[i].entity).error))
  {
    if stories != [] {
      var init := stories[..|stories| - 1];
      OneByOneSplits(init, single);
      forall i | 0 <= i < |init| ensures init[i] == stories[i] {
      }
    }
  }

  /** The stories created and the stories refused (the latter go to the failed-stories file). */
  datatype Created = Created(successful: seq<EntityRecord>, failed: seq<EntityRecord>)

  /**
   * `create_stories`: a bulk answer is zipped with the stories and nothing
   * fails; a bulk exception sends each story on its own, in order.
   */
  method CreateStories(stories: seq<EntityRecord>, api: StoryApi) returns (c: Created)
    ensures api.bulk(Payloads(stories)).Success? ==>
      c == Created(Zipped(api.bulk(Payloads(stories)).value, stories), [])
    ensures api.bulk(Payloads(stories)).Failure? ==>
      c == Created(OneByOneCreated(stories, api.single), OneByOneFailed(stories, api.single))
  {
    var entities := seq(|stories|, i requires 0 <= i < |stories| => stories[i].entity);
    var bulk := api.bulk(entities);
    if bulk.Success? {
      var created := bulk.value;
      var successful: seq<EntityRecord> := [];
      for i := 0 to Min(|created|, |stories|)
        invariant successful == Zipped(created[..i], stories[..i])
      {
        successful := successful + [WithImported(stories[i], created[i])];
      }
      assert Zipped(created, stories) == Zipped(created[..Min(|created|, |stories|)], stories[..Min(|created|, |stories|)]);
      return Created(successful, []);
    }
    var successful: seq<EntityRecord> := [];
    var failed: seq<EntityRecord> := [];
    for i := 0 to |stories|
      invariant successful == OneByOneCreated(stories[..i], api.single)
      invariant failed == OneByOneFailed(stories[..i], api.single)
    {
      assert stories[..i + 1][..i] == stories[..i];
      var story := stories[i];
      var answer := api.single(story.entity);
      if answer.Success? {
        successful := successful + [WithImported(story, answer.value)];
      } else {
        failed := failed + [story.(errorMessage := Some(answer.error))];
      }
    }
    assert stories[..|stories|] == stories;
    c := Created(successful, failed);
  }

  /**
   * A bulk answer with one entity per story creates every story, each
   * with the entity created in its place; a shorter answer leaves the
   * stories past its end in neither list.
   */
  lemma BulkCreatesAll(created: seq<Imported>, stories: seq<EntityRecord>)
    ensures |created| >= |stories| ==> |Zipped(created, stories)| == |stories|
    ensures forall i :: 0 <= i < |Zipped(created, stories)| ==>
      Zipped(created, stories)[i].(importedEntity := stories[i].importedEntity) == stories[i]
      && Zipped(created, stories)[i].importedEntity == Some(created[i])
    ensures |created| < |stories| ==> |Zipped(created, stories)| < |stories|
  {
  }
}
