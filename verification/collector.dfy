/**
 * The entity collector (pivotal-import/pivotal_import.py, `EntityCollector`).
 * `collect` buckets the built records by type and gathers the iteration
 * keys of the stories; `commit` hands the buckets to the emitter in the
 * order labels, epics, iterations, stories, links every batch of stories
 * to the epics and iterations created before it, and writes each created
 * entity to the imported-entities ledger, at most once per `(type, id)`.
 */
module Collector {
  import opened Common
  import opened Values
  import Emitter
  import Attachments
  import Linking

  /** `BATCH_SIZE`: the number of stories handed to the emitter at a time. */
  const BatchSize: nat := 100

  /** `items[i:i + BATCH_SIZE]` for every `i` in `range(0, len(items), BATCH_SIZE)`. */
  function Batches<T>(items: seq<T>): seq<seq<T>>
    decreases |items|
  {
    if items == [] then []
    else if |items| <= BatchSize then [items]
    else [items[..BatchSize]] + Batches(items[BatchSize..])
  }

  /** The batches joined back together. */
  function Concat<T>(batches: seq<seq<T>>): seq<T> {
    if batches == [] then [] else batches[0] + Concat(batches[1..])
  }

  /**
   * The batches are the consecutive slices of `BATCH_SIZE` items, the last
   * one possibly shorter and none empty; together they are the items, in
   * order, and there are `ceil(len / BATCH_SIZE)` of them.
   */
  lemma {:induction false} BatchesPartition<T>(items: seq<T>)
    ensures Concat(Batches(items)) == items
    ensures |Batches(items)| == (|items| + BatchSize - 1) / BatchSize
    ensures forall j :: 0 <= j < |Batches(items)| ==> 0 < |Batches(items)[j]| <= BatchSize
    ensures forall j :: 0 <= j < |Batches(items)| - 1 ==> |Batches(items)[j]| == BatchSize
    decreases |items|
  {
    if |items| > BatchSize {
      var rest := items[BatchSize..];
      BatchesPartition(rest);
      assert items[..BatchSize] + rest == items;
    }
  }

  /** Batch `j` is the slice `items[j * BATCH_SIZE:(j + 1) * BATCH_SIZE]`. */
  lemma {:induction false} BatchSlice<T>(items: seq<T>, j: nat)
    requires j < |Batches(items)|
    ensures j * BatchSize < |items|
    ensures Batches(items)[j] == items[j * BatchSize .. Min(j * BatchSize + BatchSize, |items|)]
    decreases |items|
  {
    if j == 0 {
      assert items != [];
    } else {
      assert |items| > BatchSize;
      var rest := items[BatchSize..];
      BatchSlice(rest, j - 1);
      var lo := (j - 1) * BatchSize;
      var hi := Min(lo + BatchSize, |rest|);
      assert j * BatchSize == lo + BatchSize;
      assert Min(j * BatchSize + BatchSize, |items|) == hi + BatchSize;
      assert forall k :: 0 <= k < hi - lo ==> rest[lo..hi][k] == items[lo + BatchSize .. hi + BatchSize][k];
    }
  }

  /** The batches from position `i` are the batch there followed by the batches from the next position. */
  lemma NextBatch<T>(items: seq<T>, i: nat)
    requires i < |items|
    ensures Batches(items[i..]) == [items[i..Min(i + BatchSize, |items|)]] + Batches(items[Min(i + BatchSize, |items|)..])
  {
    var rest := items[i..];
    if |rest| > BatchSize {
      assert rest[..BatchSize] == items[i..i + BatchSize];
      assert rest[BatchSize..] == items[i + BatchSize..];
    } else {
      assert rest == items[i..|items|];
      assert items[|items|..] == [];
    }
  }

  /** `written_entities`: the `(type, id)` pairs this commit has written to the ledger. */
  type Written = set<(string, nat)>

  /** `[r["imported_entity"] for r in records]`. */
  function ImportedOf(records: seq<EntityRecord>): (entities: seq<Imported>)
    requires AllImported(records)
    ensures |entities| == |records|
  {
    seq(|records|, i requires 0 <= i < |records| => records[i].importedEntity.value)
  }

  /** The ledger rows `write_to_imported_entities_csv` writes for the entities, in order. */
  function LedgerRows(entities: seq<Imported>): (rows: seq<LedgerRow>)
    ensures |rows| == |entities|
  {
    seq(|entities|, i requires 0 <= i < |entities| => LedgerRowOf(entities[i]))
  }

  /** The `(tag, id)` pairs of the entities. */
  function TagKeys(tag: string, entities: seq<Imported>): Written {
    set i | 0 <= i < |entities| :: (tag, entities[i].id)
  }

  /** One more entity adds its pair. */
  lemma TagKeysAppend(tag: string, entities: seq<Imported>, e: Imported)
    ensures TagKeys(tag, entities + [e]) == TagKeys(tag, entities) + {(tag, e.id)}
  {
    var longer := entities + [e];
    forall k | k in TagKeys(tag, longer) ensures k in TagKeys(tag, entities) + {(tag, e.id)} {
      var i :| 0 <= i < |longer| && k == (tag, longer[i].id);
      if i < |entities| {
        assert longer[i] == entities[i];
      }
    }
    forall k | k in TagKeys(tag, entities) ensures k in TagKeys(tag, longer) {
      var i :| 0 <= i < |entities| && k == (tag, entities[i].id);
      assert longer[i] == entities[i];
    }
    assert (tag, e.id) == (tag, longer[|entities|].id);
  }

  /** Every pair carries the tag. */
  lemma TagKeysTagged(tag: string, entities: seq<Imported>)
    ensures forall k :: k in TagKeys(tag, entities) ==> k.0 == tag
  {
  }

  /** The pairs of two runs of entities are the pairs of each. */
  lemma {:induction false} TagKeysConcat(tag: string, a: seq<Imported>, b: seq<Imported>)
    ensures TagKeys(tag, a + b) == TagKeys(tag, a) + TagKeys(tag, b)
  {
    if b == [] {
      assert a + b == a;
    } else {
      var init := b[..|b| - 1];
      var last := b[|b| - 1];
      TagKeysConcat(tag, a, init);
      assert a + b == (a + init) + [last];
      assert b == init + [last];
      TagKeysAppend(tag, a + init, last);
      TagKeysAppend(tag, init, last);
    }
  }

  /** `[e for e in entities if (tag, e["id"]) not in written]`: the epic and iteration filter. */
  function Unwritten(tag: string, entities: seq<Imported>, written: Written): seq<Imported> {
    if entities == [] then []
    else
      var last := entities[|entities| - 1];
      Unwritten(tag, entities[..|entities| - 1], written) + (if (tag, last.id) in written then [] else [last])
  }

  /**
   * The filter keeps exactly the entities whose pair is not yet written,
   * and keeps all of them when nothing of that type has been written.
   */
  lemma {:induction false} UnwrittenMeaning(tag: string, entities: seq<Imported>, written: Written)
    ensures forall e :: e in Unwritten(tag, entities, written) <==> e in entities && (tag, e.id) !in written
    ensures (forall k :: k in written ==> k.0 != tag) ==> Unwritten(tag, entities, written) == entities
  {
    if entities != [] {
      var init := entities[..|entities| - 1];
      UnwrittenMeaning(tag, init, written);
      assert init + [entities[|entities| - 1]] == entities;
    }
  }

  /**
   * The story loop's filter: each entity whose pair is not written yet,
   * the first time its pair appears, the pair then counting as written.
   */
  function FreshEntities(tag: string, entities: seq<Imported>, written: Written): seq<Imported> {
    if entities == [] then []
    else if (tag, entities[0].id) in written then FreshEntities(tag, entities[1..], written)
    else [entities[0]] + FreshEntities(tag, entities[1..], written + {(tag, entities[0].id)})
  }

  /** The kept entities carry pairwise distinct ids, none of them already written. */
  lemma {:induction false} FreshEntitiesDistinct(tag: string, entities: seq<Imported>, written: Written)
    ensures forall i, j :: 0 <= i < j < |FreshEntities(tag, entities, written)| ==>
      FreshEntities(tag, entities, written)[i].id != FreshEntities(tag, entities, written)[j].id
    ensures forall e :: e in FreshEntities(tag, entities, written) ==> e in entities && (tag, e.id) !in written
  {
    if entities != [] {
      var first := entities[0];
      var rest := entities[1..];
      if (tag, first.id) in written {
        FreshEntitiesDistinct(tag, rest, written);
      } else {
        var written' := written + {(tag, first.id)};
        FreshEntitiesDistinct(tag, rest, written');
        var kept := FreshEntities(tag, entities, written);
        var tail := FreshEntities(tag, rest, written');
        assert kept == [first] + tail;
        forall i, j | 0 <= i < j < |kept| ensures kept[i].id != kept[j].id {
          assert kept[j] == tail[j - 1];
          if i > 0 {
            assert kept[i] == tail[i - 1];
          } else {
            assert kept[j] in tail;
          }
        }
      }
    }
  }

  /** Every entity whose pair was not written has its id among the kept entities. */
  lemma {:induction false} FreshEntitiesComplete(tag: string, entities: seq<Imported>, written: Written, e: Imported)
    requires e in entities && (tag, e.id) !in written
    ensures exists f :: f in FreshEntities(tag, entities, written) && f.id == e.id
  {
    var first := entities[0];
    var rest := entities[1..];
    assert entities == [first] + rest;
    if (tag, first.id) in written {
      FreshEntitiesComplete(tag, rest, written, e);
    } else if e.id == first.id {
      assert first in FreshEntities(tag, entities, written);
    } else {
      var written' := written + {(tag, first.id)};
      FreshEntitiesComplete(tag, rest, written', e);
      var f :| f in FreshEntities(tag, rest, written') && f.id == e.id;
      assert f in FreshEntities(tag, entities, written);
    }
  }

  /** `FreshEntities` from position `i` looks at the entity there first. */
  lemma FreshEntitiesAt(tag: string, entities: seq<Imported>, i: nat, written: Written)
    requires i < |entities|
    ensures FreshEntities(tag, entities[i..], written) ==
      if (tag, entities[i].id) in written then FreshEntities(tag, entities[i + 1..], written)
      else [entities[i]] + FreshEntities(tag, entities[i + 1..], written + {(tag, entities[i].id)})
  {
    assert entities[i..][0] == entities[i] && entities[i..][1..] == entities[i + 1..];
  }

  /** The story loop of `commit` over one batch's created entities, as the source runs it. */
  method KeepFresh(entities: seq<Imported>, written: Written) returns (kept: seq<Imported>, written': Written)
    ensures kept == FreshEntities("story", entities, written)
    ensures written' == written + TagKeys("story", kept)
  {
    kept := [];
    written' := written;
    assert entities[0..] == entities;
    for i := 0 to |entities|
      invariant kept + FreshEntities("story", entities[i..], written') == FreshEntities("story", entities, written)
      invariant written' == written + TagKeys("story", kept)
    {
      var e := entities[i];
      FreshEntitiesAt("story", entities, i, written');
      if ("story", e.id) !in written' {
        AppendAssociative(kept, [e], FreshEntities("story", entities[i + 1..], written' + {("story", e.id)}));
        TagKeysAppend("story", kept, e);
        kept := kept + [e];
        written' := written' + {("story", e.id)};
      }
    }
  }

  /** Every story of the batch links: its `pt_iteration_id`, if any, names a created iteration. */
  predicate Linkable(batch: seq<EntityRecord>, epics: seq<EntityRecord>, iterations: seq<EntityRecord>, runLabel: string)
    requires AllImported(epics) && AllImported(iterations)
  {
    forall i :: 0 <= i < |batch| ==>
      Linking.LinkIteration(Linking.LinkEpic(batch[i], Linking.EpicLabelMap(epics, runLabel)), Linking.PtIterationMap(iterations)).Success?
  }

  /** The batch after `assign_stories_to_epics` and `assign_stories_to_iterations`. */
  function Linked(batch: seq<EntityRecord>, epics: seq<EntityRecord>, iterations: seq<EntityRecord>, runLabel: string): (linked: seq<EntityRecord>)
    requires AllImported(epics) && AllImported(iterations)
    requires Linkable(batch, epics, iterations, runLabel)
    ensures |linked| == |batch|
  {
    seq(|batch|, i requires 0 <= i < |batch| =>
      Linking.LinkIteration(Linking.LinkEpic(batch[i], Linking.EpicLabelMap(epics, runLabel)), Linking.PtIterationMap(iterations)).value)
  }

  /** `assign_stories_to_epics` then `assign_stories_to_iterations` on one batch. */
  method LinkBatch(batch: seq<EntityRecord>, epics: seq<EntityRecord>, iterations: seq<EntityRecord>, runLabel: string)
    returns (r: Result<seq<EntityRecord>, string>)
    requires AllImported(epics) && AllImported(iterations)
    ensures r.Success? <==> Linkable(batch, epics, iterations, runLabel)
    ensures r.Success? ==> r.value == Linked(batch, epics, iterations, runLabel)
  {
    var linked := Linking.AssignStoriesToEpics(batch, epics, runLabel);
    r := Linking.AssignStoriesToIterations(linked, iterations);
    if r.Success? {
      assert r.value == Linked(batch, epics, iterations, runLabel);
    }
  }

  /** No story of the batch lacks an `external_id`. */
  predicate Preparable(batch: seq<EntityRecord>, dryRun: bool, store: Attachments.FileStore) {
    forall i :: 0 <= i < |batch| ==> Attachments.ProcessStory(batch[i], dryRun, store).Success?
  }

  /** What `process_files_for_stories` makes of the batch. */
  function Prepared(batch: seq<EntityRecord>, dryRun: bool, store: Attachments.FileStore): Attachments.BatchFiles
    requires Preparable(batch, dryRun, store)
  {
    Attachments.Combine(seq(|batch|, i requires 0 <= i < |batch| => Attachments.ProcessStory(batch[i], dryRun, store).value))
  }

  /** Stories that all pass unchanged, writing nothing, leave a batch with nothing failed and nothing written. */
  lemma {:induction false} CombineQuiet(outcomes: seq<Attachments.StoryFiles>)
    requires forall i :: 0 <= i < |outcomes| ==> !outcomes[i].failed && outcomes[i].written == []
    ensures Attachments.Combine(outcomes).written == [] && Attachments.Combine(outcomes).failed == []
    ensures Attachments.Combine(outcomes).failedFiles == []
  {
    if outcomes != [] {
      CombineQuiet(outcomes[..|outcomes| - 1]);
    }
  }

  /** In a dry run, file processing neither fails a story nor writes to the ledger. */
  lemma DryRunPreparedQuiet(batch: seq<EntityRecord>, store: Attachments.FileStore)
    requires Preparable(batch, true, store)
    ensures Prepared(batch, true, store).written == [] && Prepared(batch, true, store).failed == []
    ensures Prepared(batch, true, store).failedFiles == []
  {
    var outcomes := seq(|batch|, i requires 0 <= i < |batch| => Attachments.ProcessStory(batch[i], true, store).value);
    forall i | 0 <= i < |batch| ensures !outcomes[i].failed && outcomes[i].written == [] {
      Attachments.ProcessStoryFrame(batch[i], true, store);
    }
    CombineQuiet(outcomes);
  }

  /** The ids of the entities are pairwise distinct. */
  predicate DistinctIds(entities: seq<Imported>) {
    forall i, j :: 0 <= i < j < |entities| ==> entities[i].id != entities[j].id
  }

  /** Two runs with distinct ids, the second's pairs not among the first's, join into one run with distinct ids. */
  lemma DistinctIdsConcat(tag: string, a: seq<Imported>, b: seq<Imported>)
    requires DistinctIds(a) && DistinctIds(b)
    requires forall e :: e in b ==> (tag, e.id) !in TagKeys(tag, a)
    ensures DistinctIds(a + b)
  {
    var ab := a + b;
    forall i, j | 0 <= i < j < |ab| ensures ab[i].id != ab[j].id {
      if j >= |a| && i < |a| {
        assert ab[j] == b[j - |a|];
        assert (tag, ab[i].id) in TagKeys(tag, a);
      } else if i >= |a| {
        assert ab[i] == b[i - |a|] && ab[j] == b[j - |a|];
      }
    }
  }

  /**
   * What the story loop of `commit` works with: the collector's dry-run
   * flag, exported files and run label, the emitter, and the epics and
   * iterations created before the loop.
   */
  datatype LoopSetting = LoopSetting(
    dryRun: bool,
    store: Attachments.FileStore,
    runLabel: string,
    emitDryRun: bool,
    backend: Emitter.Backend,
    epics: seq<EntityRecord>,
    iterations: seq<EntityRecord>)
  {
    /** The epics and iterations carry their created entities, as the linking needs. */
    predicate Ready() {
      AllImported(epics) && AllImported(iterations)
    }
  }

  /**
   * Where the story loop stands: the emitter's counters, the
   * `written_entities` pairs, the three files, the entities `commit` will
   * return for the stories, and whether a batch has raised.
   */
  datatype LoopState = LoopState(
    nextId: nat,
    calls: nat,
    written: Written,
    ledger: seq<LedgerRow>,
    failedStories: seq<EntityRecord>,
    failedFiles: seq<Attachments.FailedFile>,
    reported: seq<Imported>,
    stopped: bool)

  /** The batch goes through linking and file processing without raising. */
  predicate BatchRuns(setting: LoopSetting, batch: seq<EntityRecord>)
    requires setting.Ready()
  {
    Linkable(batch, setting.epics, setting.iterations, setting.runLabel)
    && Preparable(Linked(batch, setting.epics, setting.iterations, setting.runLabel), setting.dryRun, setting.store)
  }

  /** The files and stories one running batch hands on. */
  function BatchFilesOf(setting: LoopSetting, batch: seq<EntityRecord>): Attachments.BatchFiles
    requires setting.Ready() && BatchRuns(setting, batch)
  {
    Prepared(Linked(batch, setting.epics, setting.iterations, setting.runLabel), setting.dryRun, setting.store)
  }

  /**
   * One batch of the story loop: linked, its files processed, its stories
   * handed to the emitter (failed stories recorded when it raises) and,
   * outside a dry run, the created stories whose `("story", id)` is new
   * appended to the ledger. A batch that raises stops the loop and
   * changes nothing.
   */
  function BatchOutcome(setting: LoopSetting, batch: seq<EntityRecord>, s: LoopState): LoopState
    requires setting.Ready()
  {
    if !BatchRuns(setting, batch) then s.(stopped := true)
    else
      var files := BatchFilesOf(setting, batch);
      var answer := Emitter.Outcome(setting.emitDryRun, setting.backend, s.nextId, s.calls, files.successful);
      var created := if answer.Success? then ImportedOf(answer.value) else [];
      var kept := if setting.dryRun then [] else FreshEntities("story", created, s.written);
      LoopState(
        Emitter.NextIdAfter(setting.emitDryRun, s.nextId, files.successful),
        Emitter.CallsAfter(setting.emitDryRun, s.calls),
        s.written + TagKeys("story", kept),
        s.ledger + files.written + LedgerRows(kept),
        s.failedStories + (if setting.dryRun then [] else files.failed) + (if answer.Success? then [] else files.successful),
        s.failedFiles + (if setting.dryRun then [] else files.failedFiles),
        s.reported + (if setting.dryRun then created else kept),
        false)
  }

  /** The story loop over the batches, from the state `s`, up to the first batch that raises. */
  function StoryLoop(setting: LoopSetting, batches: seq<seq<EntityRecord>>, s: LoopState): LoopState
    requires setting.Ready()
    decreases |batches|
  {
    if s.stopped || batches == [] then s
    else StoryLoop(setting, batches[1..], BatchOutcome(setting, batches[0], s))
  }

  /** The loop takes the first batch, then goes on from the state it leaves. */
  lemma StoryLoopFirst(setting: LoopSetting, batch: seq<EntityRecord>, rest: seq<seq<EntityRecord>>, s: LoopState)
    requires setting.Ready()
    ensures StoryLoop(setting, [batch] + rest, s) ==
      if s.stopped then s else StoryLoop(setting, rest, BatchOutcome(setting, batch, s))
  {
    assert ([batch] + rest)[1..] == rest;
  }

  /**
   * The loop raises exactly when some batch fails to link (an unknown
   * iteration) or to process its files (a story without `external_id`);
   * whether a batch does so does not depend on what earlier batches did.
   */
  lemma {:induction false} StoryLoopStopsIff(setting: LoopSetting, batches: seq<seq<EntityRecord>>, s: LoopState)
    requires setting.Ready() && !s.stopped
    ensures StoryLoop(setting, batches, s).stopped <==> exists j :: 0 <= j < |batches| && !BatchRuns(setting, batches[j])
    decreases |batches|
  {
    if batches != [] {
      var next := BatchOutcome(setting, batches[0], s);
      if BatchRuns(setting, batches[0]) {
        StoryLoopStopsIff(setting, batches[1..], next);
        if exists j :: 0 <= j < |batches| && !BatchRuns(setting, batches[j]) {
          var j :| 0 <= j < |batches| && !BatchRuns(setting, batches[j]);
          assert batches[1..][j - 1] == batches[j];
        }
        if exists j :: 0 <= j < |batches[1..]| && !BatchRuns(setting, batches[1..][j]) {
          var j :| 0 <= j < |batches[1..]| && !BatchRuns(setting, batches[1..][j]);
          assert batches[1..][j] == batches[j + 1];
        }
      } else {
        assert next.stopped;
      }
    }
  }

  /**
   * The story loop only appends: the ledger, the failed-stories and
   * failed-files rows and the reported entities of any state it reaches
   * begin with those it started from, and the written pairs only grow.
   */
  predicate Extends(s: LoopState, t: LoopState) {
    && s.ledger <= t.ledger && s.failedStories <= t.failedStories
    && s.failedFiles <= t.failedFiles && s.reported <= t.reported && s.written <= t.written
  }

  /** One batch only appends. */
  lemma BatchExtends(setting: LoopSetting, batch: seq<EntityRecord>, s: LoopState)
    requires setting.Ready()
    ensures Extends(s, BatchOutcome(setting, batch, s))
  {
  }

  /** The whole loop only appends, whatever the batches do. */
  lemma {:induction false} StoryLoopExtends(setting: LoopSetting, batches: seq<seq<EntityRecord>>, s: LoopState)
    requires setting.Ready()
    ensures Extends(s, StoryLoop(setting, batches, s))
    decreases |batches|
  {
    if !s.stopped && batches != [] {
      var next := BatchOutcome(setting, batches[0], s);
      BatchExtends(setting, batches[0], s);
      StoryLoopExtends(setting, batches[1..], next);
    }
  }

  /**
   * A batch the emitter raises on reports nothing and writes no story: its
   * stories go to the failed-stories rows, and only the rows of the files
   * already uploaded reach the ledger.
   */
  lemma BatchEmitterRaises(setting: LoopSetting, batch: seq<EntityRecord>, s: LoopState)
    requires setting.Ready() && BatchRuns(setting, batch)
    requires Emitter.Outcome(setting.emitDryRun, setting.backend, s.nextId, s.calls, BatchFilesOf(setting, batch).successful).Failure?
    ensures var out := BatchOutcome(setting, batch, s);
      var files := BatchFilesOf(setting, batch);
      && !out.stopped
      && out.reported == s.reported && out.written == s.written
      && out.ledger == s.ledger + files.written
      && (forall story :: story in files.successful ==> story in out.failedStories)
  {
    var kept: seq<Imported> := if setting.dryRun then [] else FreshEntities("story", [], s.written);
    assert kept == [];
    assert TagKeys("story", kept) == {};
  }

  /**
   * Outside a dry run a running batch writes its uploaded files' rows and
   * then exactly the rows of the stories it reports; those stories are
   * created ones whose `("story", id)` was not yet written, and every
   * created story not yet written is among them.
   */
  lemma BatchWritesReported(setting: LoopSetting, batch: seq<EntityRecord>, s: LoopState)
    requires setting.Ready() && BatchRuns(setting, batch) && !setting.dryRun
    ensures var out := BatchOutcome(setting, batch, s);
      var files := BatchFilesOf(setting, batch);
      var answer := Emitter.Outcome(setting.emitDryRun, setting.backend, s.nextId, s.calls, files.successful);
      && |s.reported| <= |out.reported|
      && out.ledger == s.ledger + files.written + LedgerRows(out.reported[|s.reported|..])
      && (forall e :: e in out.reported[|s.reported|..] ==>
            answer.Success? && e in ImportedOf(answer.value) && ("story", e.id) !in s.written)
      && (answer.Success? ==> forall e :: e in ImportedOf(answer.value) && ("story", e.id) !in s.written ==>
            exists f :: f in out.reported[|s.reported|..] && f.id == e.id)
  {
    var files := BatchFilesOf(setting, batch);
    var answer := Emitter.Outcome(setting.emitDryRun, setting.backend, s.nextId, s.calls, files.successful);
    var created := if answer.Success? then ImportedOf(answer.value) else [];
    var kept := FreshEntities("story", created, s.written);
    var out := BatchOutcome(setting, batch, s);
    assert out.reported[|s.reported|..] == kept;
    FreshEntitiesDistinct("story", created, s.written);
    if answer.Success? {
      forall e | e in ImportedOf(answer.value) && ("story", e.id) !in s.written
        ensures exists f :: f in kept && f.id == e.id
      {
        FreshEntitiesComplete("story", created, s.written, e);
      }
    }
  }

  /**
   * What the story loop keeps about the stories outside a dry run: the
   * ids reported are pairwise distinct, none of them was written before
   * the loop, and the written pairs are the ones before the loop plus
   * one per story reported. So no story id is written to the ledger twice.
   */
  predicate WrittenOnce(before: Written, s: LoopState) {
    && DistinctIds(s.reported)
    && (forall e :: e in s.reported ==> ("story", e.id) !in before)
    && s.written == before + TagKeys("story", s.reported)
  }

  /** One batch keeps `WrittenOnce`. */
  lemma BatchWritesOnce(setting: LoopSetting, batch: seq<EntityRecord>, before: Written, s: LoopState)
    requires setting.Ready() && !setting.dryRun && WrittenOnce(before, s)
    ensures WrittenOnce(before, BatchOutcome(setting, batch, s))
  {
    if BatchRuns(setting, batch) {
      var files := BatchFilesOf(setting, batch);
      var answer := Emitter.Outcome(setting.emitDryRun, setting.backend, s.nextId, s.calls, files.successful);
      var created := if answer.Success? then ImportedOf(answer.value) else [];
      var kept := FreshEntities("story", created, s.written);
      var out := BatchOutcome(setting, batch, s);
      assert out.reported == s.reported + kept && out.written == s.written + TagKeys("story", kept);
      FreshEntitiesDistinct("story", created, s.written);
      DistinctIdsConcat("story", s.reported, kept);
      TagKeysConcat("story", s.reported, kept);
    }
  }

  /** The whole loop keeps `WrittenOnce`: outside a dry run no story id is written twice. */
  lemma {:induction false} StoryLoopWritesOnce(setting: LoopSetting, batches: seq<seq<EntityRecord>>, before: Written, s: LoopState)
    requires setting.Ready() && !setting.dryRun && WrittenOnce(before, s)
    ensures WrittenOnce(before, StoryLoop(setting, batches, s))
    decreases |batches|
  {
    if !s.stopped && batches != [] {
      BatchWritesOnce(setting, batches[0], before, s);
      StoryLoopWritesOnce(setting, batches[1..], before, BatchOutcome(setting, batches[0], s));
    }
  }

  /**
   * A dry run writes nothing: the loop leaves the ledger, the failed-files
   * rows and the written pairs as they were, and with the dry-run emitter
   * never calls the live creator.
   */
  lemma {:induction false} StoryLoopDryRun(setting: LoopSetting, batches: seq<seq<EntityRecord>>, s: LoopState)
    requires setting.Ready() && setting.dryRun
    ensures var out := StoryLoop(setting, batches, s);
      && out.ledger == s.ledger && out.failedFiles == s.failedFiles && out.written == s.written
      && (setting.emitDryRun ==> out.calls == s.calls)
    decreases |batches|
  {
    if !s.stopped && batches != [] {
      var batch := batches[0];
      if BatchRuns(setting, batch) {
        var linked := Linked(batch, setting.epics, setting.iterations, setting.runLabel);
        DryRunPreparedQuiet(linked, setting.store);
        assert TagKeys("story", []) == {};
      }
      StoryLoopDryRun(setting, batches[1..], BatchOutcome(setting, batch, s));
    }
  }

  /** The iteration key a story adds to `iteration_strings`: its `iteration`, when truthy. */
  function IterationKeyOf(item: EntityRecord): set<string> {
    if item.iteration.Some? && item.iteration.value != "" then {item.iteration.value} else {}
  }

  /** The entity collector and the files a run writes. */
  class EntityCollector {
    /** The buckets `collect` fills. */
    var stories: seq<EntityRecord>
    var epics: seq<EntityRecord>
    var labels: seq<EntityRecord>
    var iterations: seq<EntityRecord>
    var iterationStrings: set<string>
    const dryRun: bool
    const emitter: Emitter.Emitter
    /** The exported files and the upload endpoint's answers. */
    const store: Attachments.FileStore
    /** `PIVOTAL_TO_SHORTCUT_RUN_LABEL`. */
    const runLabel: string
    /** The rows of the imported-entities ledger. */
    var ledger: seq<LedgerRow>
    /** The rows of the failed-stories file. */
    var failedStories: seq<EntityRecord>
    /** The rows of the failed-files file. */
    var failedFiles: seq<Attachments.FailedFile>

    /** `EntityCollector(emitter, is_dry_run)`, with empty buckets, over the files as they stand. */
    constructor(emitter: Emitter.Emitter, dryRun: bool, store: Attachments.FileStore, runLabel: string,
                ledger: seq<LedgerRow>, failedStories: seq<EntityRecord>, failedFiles: seq<Attachments.FailedFile>)
      ensures this.emitter == emitter && this.dryRun == dryRun && this.store == store && this.runLabel == runLabel
      ensures stories == [] && epics == [] && labels == [] && iterations == [] && iterationStrings == {}
      ensures this.ledger == ledger && this.failedStories == failedStories && this.failedFiles == failedFiles
    {
      this.emitter := emitter;
      this.dryRun := dryRun;
      this.store := store;
      this.runLabel := runLabel;
      stories := [];
      epics := [];
      labels := [];
      iterations := [];
      iterationStrings := {};
      this.ledger := ledger;
      this.failedStories := failedStories;
      this.failedFiles := failedFiles;
    }

    /**
     * `collect`: a story, epic or label goes to its bucket and is counted
     * once; a story's iteration key joins the set; any other type raises.
     */
    method Collect(item: EntityRecord) returns (r: Result<map<string, nat>, string>)
      modifies this
      ensures r.Success? <==> item.kind == "story" || item.kind == "epic" || item.kind == "label"
      ensures r.Success? ==> r.value == map[item.kind := 1]
      ensures r.Failure? ==> r.error == "Unknown entity type " + item.kind
      ensures stories == old(stories) + (if item.kind == "story" then [item] else [])
      ensures epics == old(epics) + (if item.kind == "epic" then [item] else [])
      ensures labels == old(labels) + (if item.kind == "label" then [item] else [])
      ensures iterationStrings == old(iterationStrings) + (if item.kind == "story" then IterationKeyOf(item) else {})
      ensures iterations == old(iterations) && ledger == old(ledger)
      ensures failedStories == old(failedStories) && failedFiles == old(failedFiles)
    {
      if item.kind == "story" {
        stories := stories + [item];
        if item.iteration.Some? && item.iteration.value != "" {
          iterationStrings := iterationStrings + {item.iteration.value};
        }
      } else if item.kind == "epic" {
        epics := epics + [item];
      } else if item.kind == "label" {
        labels := labels + [item];
      } else {
        return Failure("Unknown entity type " + item.kind);
      }
      r := Success(map[item.kind := 1]);
    }

    /**
     * The first half of `process_story_batch`: `process_files_for_stories`
     * on the batch, which writes the uploaded files to the ledger and,
     * outside a dry run, the failed files and failed stories to their
     * files. A story without an `external_id` raises out of the commit.
     */
    method PrepareFiles(batch: seq<EntityRecord>) returns (r: Result<Attachments.BatchFiles, string>)
      modifies this
      ensures stories == old(stories) && epics == old(epics) && labels == old(labels)
      ensures iterations == old(iterations) && iterationStrings == old(iterationStrings)
      ensures r.Success? <==> Preparable(batch, dryRun, store)
      ensures dryRun ==> ledger == old(ledger) && failedStories == old(failedStories) && failedFiles == old(failedFiles)
      ensures r.Failure? ==> ledger == old(ledger) && failedStories == old(failedStories) && failedFiles == old(failedFiles)
      ensures r.Success? ==>
        && r.value == Prepared(batch, dryRun, store)
        && ledger == old(ledger) + r.value.written
        && failedFiles == old(failedFiles) + (if dryRun then [] else r.value.failedFiles)
        && failedStories == old(failedStories) + (if dryRun then [] else r.value.failed)
    {
      var processed, outcomes := Attachments.ProcessFilesForStories(batch, dryRun, store);
      if processed.Failure? {
        return Failure(processed.error);
      }
      var prepared := processed.value;
      assert outcomes == seq(|batch|, i requires 0 <= i < |batch| => Attachments.ProcessStory(batch[i], dryRun, store).value);
      if dryRun {
        DryRunPreparedQuiet(batch, store);
      }
      ledger := ledger + prepared.written;
      if !dryRun {
        failedFiles := failedFiles + prepared.failedFiles;
        failedStories := failedStories + prepared.failed;
      }
      r := Success(prepared);
    }

    /**
     * `process_story_batch`: the batch's files are processed, then the
     * stories left are handed to the emitter; when it raises they go to the
     * failed-stories file and the batch yields nothing.
     */
    method ProcessStoryBatch(batch: seq<EntityRecord>) returns (r: Result<seq<EntityRecord>, string>, ghost files: Attachments.BatchFiles)
      modifies this, emitter
      ensures stories == old(stories) && epics == old(epics) && labels == old(labels)
      ensures iterations == old(iterations) && iterationStrings == old(iterationStrings)
      ensures r.Success? <==> Preparable(batch, dryRun, store)
      ensures dryRun ==> ledger == old(ledger)
      ensures r.Failure? ==> ledger == old(ledger) && failedStories == old(failedStories) && failedFiles == old(failedFiles)
      ensures r.Failure? ==> emitter.nextId == old(emitter.nextId) && emitter.calls == old(emitter.calls)
      ensures r.Success? ==>
        var answer := Emitter.Outcome(emitter.dryRun, emitter.backend, old(emitter.nextId), old(emitter.calls), files.successful);
        && files == Prepared(batch, dryRun, store)
        && ledger == old(ledger) + files.written
        && failedFiles == old(failedFiles) + (if dryRun then [] else files.failedFiles)
        && failedStories == old(failedStories) + (if dryRun then [] else files.failed) + (if answer.Success? then [] else files.successful)
        && r.value == (if answer.Success? then answer.value else [])
      ensures r.Success? ==> AllImported(r.value)
      ensures r.Success? ==>
        && emitter.nextId == Emitter.NextIdAfter(emitter.dryRun, old(emitter.nextId), files.successful)
        && emitter.calls == Emitter.CallsAfter(emitter.dryRun, old(emitter.calls))
    {
      var processed := PrepareFiles(batch);
      if processed.Failure? {
        files := Attachments.BatchFiles([], [], [], []);
        return Failure(processed.error), files;
      }
      var prepared := processed.value;
      files := prepared;
      var answer := emitter.Emit(prepared.successful);
      if answer.Failure? {
        failedStories := failedStories + prepared.successful;
        return Success([]), files;
      }
      r := Success(answer.value);
    }

    /**
     * The label phase of `commit`: the labels are handed to the emitter and
     * replaced by its answer. Outside a dry run, a non-empty answer starts
     * the ledger afresh with the labels' rows (mode `'w'`), and their
     * `("label", id)` pairs count as written.
     */
    method CommitLabels() returns (r: Result<(seq<Imported>, Written), string>)
      modifies this, emitter
      ensures stories == old(stories) && epics == old(epics) && iterations == old(iterations)
      ensures iterationStrings == old(iterationStrings)
      ensures failedStories == old(failedStories) && failedFiles == old(failedFiles)
      ensures var answer := Emitter.Outcome(emitter.dryRun, emitter.backend, old(emitter.nextId), old(emitter.calls), old(labels));
        && (r.Success? <==> answer.Success?)
        && (r.Success? ==> labels == answer.value)
      ensures r.Success? ==>
        && emitter.calls == Emitter.CallsAfter(emitter.dryRun, old(emitter.calls))
        && (!emitter.dryRun ==> emitter.nextId == old(emitter.nextId))
      ensures emitter.dryRun && r.Success? ==>
        labels == Emitter.Stamped(old(labels), old(emitter.nextId)) && emitter.nextId == old(emitter.nextId) + |old(labels)|
      ensures r.Failure? ==> ledger == old(ledger)
      ensures r.Success? ==>
        && AllImported(labels) && r.value.0 == ImportedOf(labels)
        && ledger == (if dryRun || labels == [] then old(ledger) else LedgerRows(ImportedOf(labels)))
        && r.value.1 == (if dryRun then {} else TagKeys("label", ImportedOf(labels)))
    {
      var answer := emitter.Emit(labels);
      if answer.Failure? {
        return Failure(answer.error);
      }
      labels := answer.value;
      var written: Written := {};
      if !dryRun {
        var entities := ImportedOf(labels);
        if entities != [] {
          ledger := LedgerRows(entities);
        }
        written := TagKeys("label", entities);
      }
      r := Success((ImportedOf(labels), written));
    }

    /** Appending the entities not yet written to the ledger, and recording their pairs. */
    method AppendUnwritten(tag: string, entities: seq<Imported>, written: Written) returns (written': Written)
      modifies this
      ensures stories == old(stories) && epics == old(epics) && labels == old(labels)
      ensures iterations == old(iterations) && iterationStrings == old(iterationStrings)
      ensures failedStories == old(failedStories) && failedFiles == old(failedFiles)
      ensures ledger == old(ledger) + LedgerRows(Unwritten(tag, entities, written))
      ensures written' == written + TagKeys(tag, Unwritten(tag, entities, written))
    {
      var kept := Unwritten(tag, entities, written);
      written' := written;
      if kept != [] {
        ledger := ledger + LedgerRows(kept);
        written' := written + TagKeys(tag, kept);
      } else {
        assert TagKeys(tag, kept) == {};
      }
    }

    /**
     * The epic phase of `commit`: the epics are handed to the emitter and
     * replaced by its answer; outside a dry run, those whose
     * `("epic", id)` is not yet written are appended to the ledger.
     */
    method CommitEpics(written: Written) returns (r: Result<(seq<Imported>, Written), string>)
      modifies this, emitter
      ensures stories == old(stories) && labels == old(labels) && iterations == old(iterations)
      ensures iterationStrings == old(iterationStrings)
      ensures failedStories == old(failedStories) && failedFiles == old(failedFiles)
      ensures var answer := Emitter.Outcome(emitter.dryRun, emitter.backend, old(emitter.nextId), old(emitter.calls), old(epics));
        && (r.Success? <==> answer.Success?)
        && (r.Success? ==> epics == answer.value)
      ensures r.Success? ==>
        && emitter.calls == Emitter.CallsAfter(emitter.dryRun, old(emitter.calls))
        && (!emitter.dryRun ==> emitter.nextId == old(emitter.nextId))
      ensures emitter.dryRun && r.Success? ==>
        epics == Emitter.Stamped(old(epics), old(emitter.nextId)) && emitter.nextId == old(emitter.nextId) + |old(epics)|
      ensures r.Failure? ==> ledger == old(ledger)
      ensures r.Success? ==>
        && AllImported(epics) && r.value.0 == ImportedOf(epics)
        && ledger == (if dryRun then old(ledger) else old(ledger) + LedgerRows(Unwritten("epic", ImportedOf(epics), written)))
        && r.value.1 == (if dryRun then written else written + TagKeys("epic", Unwritten("epic", ImportedOf(epics), written)))
    {
      var answer := emitter.Emit(epics);
      if answer.Failure? {
        return Failure(answer.error);
      }
      epics := answer.value;
      var written' := written;
      if !dryRun {
        written' := AppendUnwritten("epic", ImportedOf(epics), written);
      }
      r := Success((ImportedOf(epics), written'));
    }

    /**
     * The iteration records `commit` builds: one per key of
     * `iteration_strings`, in the set's (arbitrary) order, or the
     * `ValueError` of a key that does not split into three parts.
     */
    method BuildIterationRecords() returns (r: Result<seq<EntityRecord>, string>, ghost keys: seq<string>)
      ensures r.Success? <==> forall k :: k in iterationStrings ==> Linking.IterationRecord(k).Success?
      ensures r.Success? ==>
        && NoDuplicates(keys) && |keys| == |iterationStrings|
        && (forall k :: k in keys <==> k in iterationStrings)
        && |r.value| == |keys|
        && forall i :: 0 <= i < |keys| ==> r.value[i] == Linking.IterationRecord(keys[i]).value
    {
      var remaining := iterationStrings;
      var records: seq<EntityRecord> := [];
      keys := [];
      while remaining != {}
        invariant remaining <= iterationStrings
        invariant |keys| + |remaining| == |iterationStrings|
        invariant NoDuplicates(keys)
        invariant forall k :: k in keys <==> k in iterationStrings && k !in remaining
        invariant |records| == |keys|
        invariant forall i :: 0 <= i < |keys| ==>
          Linking.IterationRecord(keys[i]).Success? && records[i] == Linking.IterationRecord(keys[i]).value
        decreases |remaining|
      {
        var key :| key in remaining;
        var record := Linking.IterationRecord(key);
        if record.Failure? {
          return Failure(record.error), keys;
        }
        records := records + [record.value];
        keys := keys + [key];
        remaining := remaining - {key};
      }
      forall k | k in iterationStrings ensures Linking.IterationRecord(k).Success? {
        var i :| 0 <= i < |keys| && keys[i] == k;
      }
      r := Success(records);
    }

    /**
     * The iteration phase of `commit`: the records built from the keys are
     * handed to the emitter and become the iterations; outside a dry run,
     * those whose `("iteration", id)` is not yet written are appended to
     * the ledger.
     */
    method CommitIterations(written: Written)
      returns (r: Result<(seq<Imported>, Written), string>, ghost records: seq<EntityRecord>, ghost keys: seq<string>)
      modifies this, emitter
      ensures stories == old(stories) && epics == old(epics) && labels == old(labels)
      ensures iterationStrings == old(iterationStrings)
      ensures failedStories == old(failedStories) && failedFiles == old(failedFiles)
      ensures var answer := Emitter.Outcome(emitter.dryRun, emitter.backend, old(emitter.nextId), old(emitter.calls), records);
        && (r.Success? <==> (forall k :: k in iterationStrings ==> Linking.IterationRecord(k).Success?) && answer.Success?)
        && (r.Success? ==> iterations == answer.value)
      ensures r.Success? ==>
        && emitter.calls == Emitter.CallsAfter(emitter.dryRun, old(emitter.calls))
        && (!emitter.dryRun ==> emitter.nextId == old(emitter.nextId))
      ensures emitter.dryRun && r.Success? ==> emitter.nextId == old(emitter.nextId) + |records|
      ensures r.Failure? ==> ledger == old(ledger)
      ensures r.Success? ==>
        && NoDuplicates(keys) && |keys| == |iterationStrings|
        && (forall k :: k in keys <==> k in iterationStrings)
        && |records| == |keys|
        && (forall i :: 0 <= i < |keys| ==> records[i] == Linking.IterationRecord(keys[i]).value)
      ensures r.Success? ==>
        && AllImported(iterations) && r.value.0 == ImportedOf(iterations)
        && ledger == (if dryRun then old(ledger) else old(ledger) + LedgerRows(Unwritten("iteration", ImportedOf(iterations), written)))
        && r.value.1 == (if dryRun then written else written + TagKeys("iteration", Unwritten("iteration", ImportedOf(iterations), written)))
    {
      var built;
      built, keys := BuildIterationRecords();
      if built.Failure? {
        records := [];
        return Failure(built.error), records, keys;
      }
      records := built.value;
      var answer := emitter.Emit(built.value);
      if answer.Failure? {
        return Failure(answer.error), records, keys;
      }
      iterations := answer.value;
      var written' := written;
      if !dryRun {
        written' := AppendUnwritten("iteration", ImportedOf(iterations), written);
      }
      r := Success((ImportedOf(iterations), written'));
    }

    /** What the story loop works with, as the collector stands. */
    function Setting(): (setting: LoopSetting)
      reads this
      ensures setting.epics == epics && setting.iterations == iterations
    {
      LoopSetting(dryRun, store, runLabel, emitter.dryRun, emitter.backend, epics, iterations)
    }

    /** The story loop's state, as the collector and its emitter stand, with `written_entities` and the entities returned so far. */
    function State(written: Written, reported: seq<Imported>): (s: LoopState)
      reads this, emitter
      ensures !s.stopped && s.ledger == ledger && s.reported == reported && s.written == written
    {
      LoopState(emitter.nextId, emitter.calls, written, ledger, failedStories, failedFiles, reported, false)
    }

    /**
     * One batch of the story loop of `commit`: the batch is linked to the
     * epics and iterations (a missing iteration raises out of the commit),
     * processed, and, outside a dry run, each created story whose
     * `("story", id)` is not yet written is appended to the ledger and to
     * the entities returned; in a dry run every created story is returned.
     */
    method CommitBatch(batch: seq<EntityRecord>, written: Written, reported: seq<Imported>)
      returns (r: Result<(seq<Imported>, Written), string>)
      requires AllImported(epics) && AllImported(iterations)
      modifies this, emitter
      ensures stories == old(stories) && epics == old(epics) && labels == old(labels)
      ensures iterations == old(iterations) && iterationStrings == old(iterationStrings)
      ensures var out := BatchOutcome(old(Setting()), batch, old(State(written, reported)));
        && (r.Success? <==> !out.stopped)
        && (r.Success? ==> r.value == (out.reported, out.written))
        && ledger == out.ledger && failedStories == out.failedStories && failedFiles == out.failedFiles
        && emitter.nextId == out.nextId && emitter.calls == out.calls
    {
      var linkedAll := LinkBatch(batch, epics, iterations, runLabel);
      if linkedAll.Failure? {
        return Failure(linkedAll.error);
      }
      var created, files := ProcessStoryBatch(linkedAll.value);
      if created.Failure? {
        return Failure(created.error);
      }
      var entities := ImportedOf(created.value);
      var kept: seq<Imported> := [];
      var w := written;
      assert written + TagKeys("story", kept) == written;
      assert LedgerRows(kept) == [];
      if !dryRun {
        kept, w := KeepFresh(entities, written);
        if kept != [] {
          AppendAssociative(old(ledger), files.written, LedgerRows(kept));
          ledger := ledger + LedgerRows(kept);
        }
      }
      r := Success((reported + (if dryRun then entities else kept), w));
    }

    /**
     * The story loop of `commit`: the stories in consecutive batches of
     * `BATCH_SIZE`, each linked, processed and written as it comes, until
     * the end or the first batch that raises.
     */
    method CommitStories(written: Written) returns (r: Result<seq<Imported>, string>)
      requires AllImported(epics) && AllImported(iterations)
      modifies this, emitter
      ensures stories == old(stories) && epics == old(epics) && labels == old(labels)
      ensures iterations == old(iterations) && iterationStrings == old(iterationStrings)
      ensures var out := StoryLoop(old(Setting()), Batches(old(stories)), old(State(written, [])));
        && (r.Success? <==> !out.stopped)
        && (r.Success? ==> r.value == out.reported)
        && ledger == out.ledger && failedStories == out.failedStories && failedFiles == out.failedFiles
        && emitter.nextId == out.nextId && emitter.calls == out.calls
    {
      var all := stories;
      ghost var setting := Setting();
      ghost var init := State(written, []);
      var i := 0;
      var w := written;
      var reported: seq<Imported> := [];
      assert all[0..] == all;
      while i < |all|
        invariant i <= |all|
        invariant stories == all && labels == old(labels) && iterationStrings == old(iterationStrings)
        invariant Setting() == setting
        invariant StoryLoop(setting, Batches(all[i..]), State(w, reported)) == StoryLoop(setting, Batches(all), init)
        decreases |all| - i
      {
        var next := Min(i + BatchSize, |all|);
        var batch := all[i..next];
        NextBatch(all, i);
        StoryLoopFirst(setting, batch, Batches(all[next..]), State(w, reported));
        var out := CommitBatch(batch, w, reported);
        if out.Failure? {
          return Failure(out.error);
        }
        reported := out.value.0;
        w := out.value.1;
        i := next;
      }
      assert all[i..] == [];
      r := Success(reported);
    }

    /**
     * The first two phases of `commit`: labels, then epics. They return
     * the entities created and the pairs written. Outside a dry run the
     * ledger then holds the labels' rows (or what it held before, when
     * there are no labels), then the epics' rows, and only label and epic
     * pairs are written; the emitter has stamped one id per entity (dry
     * run) or been called twice (live).
     */
    method CommitLabelsAndEpics() returns (r: Result<(seq<Imported>, Written), string>)
      modifies this, emitter
      ensures dryRun ==> ledger == old(ledger)
      ensures stories == old(stories) && iterations == old(iterations) && iterationStrings == old(iterationStrings)
      ensures failedStories == old(failedStories) && failedFiles == old(failedFiles)
      ensures r.Success? ==>
        && AllImported(labels) && AllImported(epics)
        && r.value.0 == ImportedOf(labels) + ImportedOf(epics)
        && (forall k :: k in r.value.1 ==> k.0 == "label" || k.0 == "epic")
        && (!dryRun ==>
              ledger == (if labels == [] then old(ledger) else LedgerRows(ImportedOf(labels))) + LedgerRows(ImportedOf(epics)))
        && (emitter.dryRun ==> emitter.calls == old(emitter.calls) && emitter.nextId == old(emitter.nextId) + |labels| + |epics|)
        && (!emitter.dryRun ==> emitter.calls == old(emitter.calls) + 2 && emitter.nextId == old(emitter.nextId))
    {
      var fromLabels := CommitLabels();
      if fromLabels.Failure? {
        return Failure(fromLabels.error);
      }
      var fromEpics := CommitEpics(fromLabels.value.1);
      if fromEpics.Failure? {
        return Failure(fromEpics.error);
      }
      if !dryRun {
        UnwrittenMeaning("epic", ImportedOf(epics), fromLabels.value.1);
        TagKeysTagged("label", ImportedOf(labels));
        TagKeysTagged("epic", ImportedOf(epics));
      }
      r := Success((fromLabels.value.0 + fromEpics.value.0, fromEpics.value.1));
    }

    /**
     * The first three phases of `commit`: labels, then epics, then
     * iterations. They return the entities created and the pairs written.
     * Outside a dry run the ledger then holds the labels' rows (or what it
     * held before, when there are no labels), then the epics' and the
     * iterations' rows, and no story pair is written; the failed-stories
     * and failed-files rows are untouched, and the emitter has stamped one
     * id per entity (dry run) or been called three times (live).
     */
    method CommitEntities() returns (r: Result<(seq<Imported>, Written), string>)
      modifies this, emitter
      ensures dryRun ==> ledger == old(ledger)
      ensures stories == old(stories) && iterationStrings == old(iterationStrings)
      ensures failedStories == old(failedStories) && failedFiles == old(failedFiles)
      ensures r.Success? ==>
        && AllImported(labels) && AllImported(epics) && AllImported(iterations)
        && r.value.0 == ImportedOf(labels) + ImportedOf(epics) + ImportedOf(iterations)
        && (forall k :: k in r.value.1 ==> k.0 != "story")
        && (!dryRun ==>
              ledger == (if labels == [] then old(ledger) else LedgerRows(ImportedOf(labels)))
                + LedgerRows(ImportedOf(epics)) + LedgerRows(ImportedOf(iterations)))
        && (emitter.dryRun ==>
              emitter.calls == old(emitter.calls) && emitter.nextId == old(emitter.nextId) + |labels| + |epics| + |iterations|)
        && (!emitter.dryRun ==> emitter.calls == old(emitter.calls) + 3 && emitter.nextId == old(emitter.nextId))
    {
      var named := CommitLabelsAndEpics();
      if named.Failure? {
        return Failure(named.error);
      }
      ghost var beforeIterations := emitter.nextId;
      var fromIterations, records, keys := CommitIterations(named.value.1);
      if fromIterations.Failure? {
        return Failure(fromIterations.error);
      }
      if emitter.dryRun {
        assert |iterations| == |records|;
        assert emitter.nextId == beforeIterations + |iterations|;
      }
      if !dryRun {
        UnwrittenMeaning("iteration", ImportedOf(iterations), named.value.1);
        TagKeysTagged("iteration", ImportedOf(iterations));
      }
      r := Success((named.value.0 + fromIterations.value.0, fromIterations.value.1));
    }

    /**
     * `commit`: labels, then epics, then iterations, then the stories batch
     * by batch. When the first three phases succeed (`reachedStories`), the
     * story loop starts from `start`: outside a dry run the ledger then
     * holds the labels' rows (or what it held before, when there are no
     * labels), then the epics' and the iterations' rows, and no story pair
     * is written yet. The commit returns the labels', epics' and
     * iterations' entities followed by the stories'; the files and the
     * emitter end as the story loop leaves them, and outside a dry run no
     * story id is written twice.
     */
    method Commit() returns (r: Result<seq<Imported>, string>, ghost reachedStories: bool, ghost start: LoopState)
      modifies this, emitter
      ensures dryRun ==> ledger == old(ledger)
      ensures r.Success? ==> reachedStories
      ensures reachedStories ==>
        && AllImported(labels) && AllImported(epics) && AllImported(iterations)
        && stories == old(stories)
        && !start.stopped && start.reported == []
        && start.failedStories == old(failedStories) && start.failedFiles == old(failedFiles)
        && (forall k :: k in start.written ==> k.0 != "story")
        && (!dryRun ==>
              start.ledger == (if labels == [] then old(ledger) else LedgerRows(ImportedOf(labels)))
                + LedgerRows(ImportedOf(epics)) + LedgerRows(ImportedOf(iterations)))
        && (emitter.dryRun ==>
              start.calls == old(emitter.calls) && start.nextId == old(emitter.nextId) + |labels| + |epics| + |iterations|)
        && (!emitter.dryRun ==> start.calls == old(emitter.calls) + 3 && start.nextId == old(emitter.nextId))
      ensures reachedStories ==>
        var out := StoryLoop(Setting(), Batches(stories), start);
        && (r.Success? <==> !out.stopped)
        && (r.Success? ==> r.value == ImportedOf(labels) + ImportedOf(epics) + ImportedOf(iterations) + out.reported)
        && ledger == out.ledger && failedStories == out.failedStories && failedFiles == out.failedFiles
        && emitter.nextId == out.nextId && emitter.calls == out.calls
        && (!dryRun ==> DistinctIds(out.reported))
    {
      reachedStories := false;
      start := State({}, []);
      var entities := CommitEntities();
      if entities.Failure? {
        return Failure(entities.error), reachedStories, start;
      }
      reachedStories := true;
      start := State(entities.value.1, []);
      ghost var setting := Setting();
      if !dryRun {
        StoryLoopWritesOnce(setting, Batches(stories), entities.value.1, start);
      } else {
        StoryLoopDryRun(setting, Batches(stories), start);
      }
      var fromStories := CommitStories(entities.value.1);
      if fromStories.Failure? {
        return Failure(fromStories.error), reachedStories, start;
      }
      r := Success(entities.value.0 + fromStories.value);
    }
  }
}
