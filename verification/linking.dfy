/**
 * Linking stories to the epics and iterations created before them
 * (pivotal-import/pivotal_import.py, `collect_epic_label_mapping`,
 * `assign_stories_to_epics`, `collect_pt_iteration_mapping`,
 * `assign_stories_to_iterations`), and the `id|start|end` iteration key
 * that a story carries until `commit` turns it into an iteration entity.
 */
module Linking {
  import opened Common
  import opened Values
  import EntityBuilder

  /** The two labels every imported entity carries; they never stand for an epic. */
  predicate IsMarker(name: string, runLabel: string) {
    name == EntityBuilder.PivotalToShortcutLabel || name == runLabel
  }

  /** The given non-marker labels, each mapped to `id`. */
  function LabelEntries(names: seq<string>, id: nat, runLabel: string): map<string, nat> {
    map name | name in names && !IsMarker(name, runLabel) :: id
  }

  /** One more label adds its entry, unless it is a marker. */
  lemma LabelEntriesAppend(names: seq<string>, name: string, id: nat, runLabel: string)
    ensures LabelEntries(names + [name], id, runLabel) ==
      if IsMarker(name, runLabel) then LabelEntries(names, id, runLabel) else LabelEntries(names, id, runLabel)[name := id]
  {
  }

  /** The non-marker labels of one epic, each mapped to the epic's created id. */
  function EpicEntries(epic: EntityRecord, runLabel: string): map<string, nat>
    requires epic.importedEntity.Some?
  {
    LabelEntries(LabelsAt(epic.entity), epic.importedEntity.value.id, runLabel)
  }

  /** `collect_epic_label_mapping`: label name to epic id, later epics overwriting earlier ones. */
  function EpicLabelMap(epics: seq<EntityRecord>, runLabel: string): map<string, nat>
    requires AllImported(epics)
  {
    if epics == [] then map[]
    else EpicLabelMap(epics[..|epics| - 1], runLabel) + EpicEntries(epics[|epics| - 1], runLabel)
  }

  /** A label is mapped exactly when it is not a marker and some epic carries it. */
  lemma {:induction false} EpicLabelMapKeys(epics: seq<EntityRecord>, runLabel: string, name: string)
    requires AllImported(epics)
    ensures name in EpicLabelMap(epics, runLabel) <==>
      !IsMarker(name, runLabel) && exists i :: 0 <= i < |epics| && name in LabelsAt(epics[i].entity)
  {
    if epics != [] {
      var init := epics[..|epics| - 1];
      var last := epics[|epics| - 1];
      EpicLabelMapKeys(init, runLabel, name);
      assert name in EpicEntries(last, runLabel) <==> name in LabelsAt(last.entity) && !IsMarker(name, runLabel);
      forall i | 0 <= i < |init| ensures init[i] == epics[i] {
      }
    }
  }

  /** A label maps to the id of the last epic carrying it. */
  lemma {:induction false} EpicLabelMapLastWins(epics: seq<EntityRecord>, runLabel: string, name: string, i: nat)
    requires AllImported(epics)
    requires i < |epics| && name in LabelsAt(epics[i].entity) && !IsMarker(name, runLabel)
    requires forall k :: i < k < |epics| ==> name !in LabelsAt(epics[k].entity)
    ensures name in EpicLabelMap(epics, runLabel)
    ensures EpicLabelMap(epics, runLabel)[name] == epics[i].importedEntity.value.id
  {
    var init := epics[..|epics| - 1];
    if i < |init| {
      forall k | i < k < |init| ensures name !in LabelsAt(init[k].entity) {
        assert init[k] == epics[k];
      }
      assert init[i] == epics[i];
      EpicLabelMapLastWins(init, runLabel, name, i);
    }
  }

  /** `collect_epic_label_mapping` as the source computes it, one label at a time. */
  method CollectEpicLabelMapping(epics: seq<EntityRecord>, runLabel: string) returns (m: map<string, nat>)
    requires AllImported(epics)
    ensures m == EpicLabelMap(epics, runLabel)
  {
    m := map[];
    for i := 0 to |epics|
      invariant m == EpicLabelMap(epics[..i], runLabel)
    {
      assert epics[..i + 1][..i] == epics[..i];
      m := AddEpicLabels(m, LabelsAt(epics[i].entity), epics[i].importedEntity.value.id, runLabel);
    }
    assert epics[..|epics|] == epics;
  }

  /** The inner loop of `collect_epic_label_mapping`: one epic's labels written into the map. */
  method AddEpicLabels(m: map<string, nat>, names: seq<string>, id: nat, runLabel: string) returns (m': map<string, nat>)
    ensures m' == m + LabelEntries(names, id, runLabel)
  {
    m' := m;
    for j := 0 to |names|
      invariant m' == m + LabelEntries(names[..j], id, runLabel)
    {
      assert names[..j + 1] == names[..j] + [names[j]];
      LabelEntriesAppend(names[..j], names[j], id, runLabel);
      if !IsMarker(names[j], runLabel) {
        m' := m'[names[j] := id];
      }
    }
    assert names[..|names|] == names;
  }

  /** The id mapped to the last of `names` found in `m`, if any. */
  function LastMapped(names: seq<string>, m: map<string, nat>): Option<nat> {
    if names == [] then None
    else if names[|names| - 1] in m then Some(m[names[|names| - 1]])
    else LastMapped(names[..|names| - 1], m)
  }

  /** No name is mapped exactly when nothing is found; otherwise the found id belongs to the last mapped name. */
  lemma {:induction false} LastMappedMeaning(names: seq<string>, m: map<string, nat>)
    ensures LastMapped(names, m).None? <==> forall j :: 0 <= j < |names| ==> names[j] !in m
    ensures LastMapped(names, m).Some? ==> exists j :: (0 <= j < |names| && names[j] in m
      && LastMapped(names, m).value == m[names[j]]
      && forall k :: j < k < |names| ==> names[k] !in m)
  {
    if names != [] {
      var init := names[..|names| - 1];
      LastMappedMeaning(init, m);
      if names[|names| - 1] !in m {
        forall j | 0 <= j < |init| ensures init[j] == names[j] {
        }
      }
    }
  }

  /** A story linked to the epic of its last mapped label; without one it is left as it is. */
  function LinkEpic(story: EntityRecord, m: map<string, nat>): EntityRecord {
    match LastMapped(LabelsAt(story.entity), m)
    case None => story
    case Some(id) => story.(entity := story.entity["epic_id" := Num(id)])
  }

  /** Linking an epic touches the payload's `epic_id` and nothing else. */
  lemma LinkEpicFrame(story: EntityRecord, m: map<string, nat>)
    ensures var linked := LinkEpic(story, m);
      && linked.(entity := story.entity) == story
      && (forall k :: k != "epic_id" ==> (k in linked.entity <==> k in story.entity))
      && (forall k :: k != "epic_id" && k in story.entity ==> linked.entity[k] == story.entity[k])
      && (LastMapped(LabelsAt(story.entity), m).Some? ==> linked.entity["epic_id"] == Num(LastMapped(LabelsAt(story.entity), m).value))
  {
  }

  /** `assign_stories_to_epics`: every story linked through the epic label map, in order. */
  method AssignStoriesToEpics(stories: seq<EntityRecord>, epics: seq<EntityRecord>, runLabel: string) returns (linked: seq<EntityRecord>)
    requires AllImported(epics)
    ensures |linked| == |stories|
    ensures forall i :: 0 <= i < |stories| ==> linked[i] == LinkEpic(stories[i], EpicLabelMap(epics, runLabel))
  {
    var m := CollectEpicLabelMapping(epics, runLabel);
    linked := [];
    for i := 0 to |stories|
      invariant |linked| == i
      invariant forall j :: 0 <= j < i ==> linked[j] == LinkEpic(stories[j], m)
    {
      var story := stories[i];
      var names := LabelsAt(story.entity);
      var epicId: Option<nat> := None;
      for j := 0 to |names|
        invariant epicId == LastMapped(names[..j], m)
      {
        assert names[..j + 1][..j] == names[..j];
        if names[j] in m {
          epicId := Some(m[names[j]]);
        }
      }
      assert names[..|names|] == names;
      if epicId.Some? {
        story := story.(entity := story.entity["epic_id" := Num(epicId.value)]);
      }
      linked := linked + [story];
    }
  }

  /** `str(pt_iteration_id)`: the text of the id, or `"None"` when the record has none. */
  function PtKey(ptIterationId: Option<string>): string {
    match ptIterationId
    case Some(id) => id
    case None => "None"
  }

  /** `collect_pt_iteration_mapping`: source iteration id to created iteration id, later entries overwriting earlier ones. */
  function PtIterationMap(iterations: seq<EntityRecord>): map<string, nat>
    requires AllImported(iterations)
  {
    if iterations == [] then map[]
    else
      var last := iterations[|iterations| - 1];
      PtIterationMap(iterations[..|iterations| - 1])[PtKey(last.ptIterationId) := last.importedEntity.value.id]
  }

  /** A source iteration id is mapped exactly when some iteration has it, and maps to the last such iteration. */
  lemma {:induction false} PtIterationMapLookup(iterations: seq<EntityRecord>, key: string)
    requires AllImported(iterations)
    ensures key in PtIterationMap(iterations) <==> exists i :: 0 <= i < |iterations| && PtKey(iterations[i].ptIterationId) == key
    ensures key in PtIterationMap(iterations) ==> exists i :: (0 <= i < |iterations| && PtKey(iterations[i].ptIterationId) == key
      && PtIterationMap(iterations)[key] == iterations[i].importedEntity.value.id
      && forall k :: i < k < |iterations| ==> PtKey(iterations[k].ptIterationId) != key)
  {
    if iterations != [] {
      var init := iterations[..|iterations| - 1];
      PtIterationMapLookup(init, key);
      forall i | 0 <= i < |init| ensures init[i] == iterations[i] {
      }
    }
  }

  /** `collect_pt_iteration_mapping` as the source computes it. */
  method CollectPtIterationMapping(iterations: seq<EntityRecord>) returns (m: map<string, nat>)
    requires AllImported(iterations)
    ensures m == PtIterationMap(iterations)
  {
    m := map[];
    for i := 0 to |iterations|
      invariant m == PtIterationMap(iterations[..i])
    {
      assert iterations[..i + 1][..i] == iterations[..i];
      m := m[PtKey(iterations[i].ptIterationId) := iterations[i].importedEntity.value.id];
    }
    assert iterations[..|iterations|] == iterations;
  }

  /** A story's source iteration id is truthy. */
  predicate HasPtIteration(story: EntityRecord) {
    story.ptIterationId.Some? && story.ptIterationId.value != ""
  }

  /**
   * One story of `assign_stories_to_iterations`: a story with a source
   * iteration gets the created iteration's id, and a source iteration
   * missing from the map raises a `KeyError`.
   */
  function LinkIteration(story: EntityRecord, m: map<string, nat>): Result<EntityRecord, string> {
    if !HasPtIteration(story) then Success(story)
    else if story.ptIterationId.value !in m then Failure("KeyError: " + story.ptIterationId.value)
    else Success(story.(entity := story.entity["iteration_id" := Num(m[story.ptIterationId.value])]))
  }

  /**
   * A story without a source iteration is left as it is; one whose
   * iteration was created is linked to it, touching `iteration_id` only;
   * one whose iteration is unknown stops the import.
   */
  lemma LinkIterationMeaning(story: EntityRecord, iterations: seq<EntityRecord>)
    requires AllImported(iterations)
    ensures !HasPtIteration(story) ==> LinkIteration(story, PtIterationMap(iterations)) == Success(story)
    ensures HasPtIteration(story) ==>
      (LinkIteration(story, PtIterationMap(iterations)).Success? <==>
         exists i :: 0 <= i < |iterations| && PtKey(iterations[i].ptIterationId) == story.ptIterationId.value)
    ensures var r := LinkIteration(story, PtIterationMap(iterations));
      r.Success? && HasPtIteration(story) ==>
        && r.value.(entity := story.entity) == story
        && r.value.entity == story.entity["iteration_id" := Num(PtIterationMap(iterations)[story.ptIterationId.value])]
  {
    if HasPtIteration(story) {
      PtIterationMapLookup(iterations, story.ptIterationId.value);
    }
  }

  /** `assign_stories_to_iterations`: every story linked, in order, or the first `KeyError`. */
  method AssignStoriesToIterations(stories: seq<EntityRecord>, iterations: seq<EntityRecord>) returns (r: Result<seq<EntityRecord>, string>)
    requires AllImported(iterations)
    ensures var m := PtIterationMap(iterations);
      && (r.Success? <==> forall i :: 0 <= i < |stories| ==> LinkIteration(stories[i], m).Success?)
      && (r.Success? ==> |r.value| == |stories| && forall i :: 0 <= i < |stories| ==> r.value[i] == LinkIteration(stories[i], m).value)
  {
    var m := CollectPtIterationMapping(iterations);
    var linked: seq<EntityRecord> := [];
    for i := 0 to |stories|
      invariant |linked| == i
      invariant forall j :: 0 <= j < i ==> LinkIteration(stories[j], m).Success? && linked[j] == LinkIteration(stories[j], m).value
    {
      var story := stories[i];
      if HasPtIteration(story) {
        var key := story.ptIterationId.value;
        if key !in m {
          return Failure("KeyError: " + key);
        }
        story := story.(entity := story.entity["iteration_id" := Num(m[key])]);
      }
      linked := linked + [story];
    }
    r := Success(linked);
  }

  /** Python's `s.split("|")`. */
  function SplitPipes(s: string): (parts: seq<string>)
    ensures |parts| >= 1
  {
    if s == [] then [""]
    else
      var rest := SplitPipes(s[1..]);
      if s[0] == '|' then [""] + rest
      else [[s[0]] + rest[0]] + rest[1..]
  }

  /** No `|` in the text. */
  predicate PipeFree(s: string) {
    forall i :: 0 <= i < |s| ==> s[i] != '|'
  }

  /** Splitting `a + "|" + b` at pipes, with `a` pipe-free, gives `a` and then the parts of `b`. */
  lemma {:induction false} SplitPipesJoin(a: string, b: string)
    requires PipeFree(a)
    ensures SplitPipes(a + "|" + b) == [a] + SplitPipes(b)
  {
    if a == [] {
      assert ("|" + b)[1..] == b;
    } else {
      assert (a + "|" + b)[1..] == a[1..] + "|" + b;
      SplitPipesJoin(a[1..], b);
      assert [a[0]] + a[1..] == a;
    }
  }

  /** A pipe-free text is one part. */
  lemma {:induction false} SplitPipesSingle(a: string)
    requires PipeFree(a)
    ensures SplitPipes(a) == [a]
  {
    if a != [] {
      SplitPipesSingle(a[1..]);
      assert [a[0]] + a[1..] == a;
    }
  }

  /** The iteration key splits back into the id and the two dates it was joined from. */
  lemma IterationKeyRoundTrip(id: string, start: string, end: string)
    requires PipeFree(id) && PipeFree(start) && PipeFree(end)
    ensures SplitPipes(EntityBuilder.IterationKey(id, start, end)) == [id, start, end]
  {
    assert EntityBuilder.IterationKey(id, start, end) == id + "|" + (start + "|" + end);
    SplitPipesJoin(id, start + "|" + end);
    SplitPipesJoin(start, end);
    SplitPipesSingle(end);
  }

  /**
   * The iteration record `commit` builds from one key: named `"PT " + id`,
   * with the two dates, and a `ValueError` when the key does not split into
   * exactly three parts.
   */
  function IterationRecord(key: string): (r: Result<EntityRecord, string>)
    ensures r.Success? <==> |SplitPipes(key)| == 3
    ensures r.Success? ==> var parts := SplitPipes(key);
      && r.value.kind == "iteration" && r.value.ptIterationId == Some(parts[0])
      && r.value.entity == map["name" := Str("PT " + parts[0]), "start_date" := Str(parts[1]), "end_date" := Str(parts[2])]
      && r.value.importedEntity.None?
  {
    var parts := SplitPipes(key);
    if |parts| != 3 then Failure("ValueError: expected 3 parts")
    else
      var entity := map["name" := Str("PT " + parts[0]), "start_date" := Str(parts[1]), "end_date" := Str(parts[2])];
      Success(Record("iteration", entity).(ptIterationId := Some(parts[0])))
  }

  /** The key of a story's iteration becomes the iteration the story is later linked to. */
  lemma IterationRecordOfKey(id: string, start: string, end: string)
    requires PipeFree(id) && PipeFree(start) && PipeFree(end)
    ensures var r := IterationRecord(EntityBuilder.IterationKey(id, start, end));
      && r.Success? && r.value.ptIterationId == Some(id)
      && r.value.entity["name"] == Str("PT " + id)
      && r.value.entity["start_date"] == Str(start) && r.value.entity["end_date"] == Str(end)
  {
    IterationKeyRoundTrip(id, start, end);
  }
}
