/**
 * The entity builder: turns one parsed export row into the record the
 * collector buffers (pivotal-import/pivotal_import.py, `build_entity` and its
 * helpers), plus the composition of the user map the builder resolves names
 * with (`load_users`).
 */
module EntityBuilder {
  import opened Common
  import opened Values
  import Markdown

  /** The label every entity created by the importer carries. */
  const PivotalToShortcutLabel: string := "pivotal->shortcut"

  /** The label of chore stories made from source releases. */
  const PivotalReleaseTypeLabel: string := "pivotal-release"

  /** The label of stories that had reviews in the source tracker. */
  const PivotalHadReviewLabel: string := "pivotal-had-review"

  /** The text that opens the review table comment, up to its header rows. */
  const ReviewAsCommentTextPrefix: string :=
    "\\[Pivotal Importer\\] Reviewers have been added as followers on this Shortcut Story.\n\n"
    + "The following table describes the state of their reviews when they were imported into Shortcut from Pivotal Tracker:\n\n"
    + "| Reviewer | Review Type | Review Status |\n"
    + "|---|---|---|"

  /** The top-level payload keys the target tracker accepts for a story. */
  const StoryKeys: set<string> := {
    "comments", "created_at", "custom_fields", "deadline", "description", "estimate",
    "external_id", "external_links", "follower_ids", "group_id", "iteration_id", "labels",
    "name", "owner_ids", "requested_by_id", "story_type", "tasks", "workflow_state_id"
  }

  /** The top-level payload keys the target tracker accepts for an epic. */
  const EpicKeys: set<string> := {
    "created_at", "description", "external_id", "group_ids", "labels", "name"
  }

  /** The keys the builder itself writes into the row; every other key keeps its parsed value. */
  const BuilderKeys: set<string> := StoryWrittenKeys + {"labels", "story_type", "group_ids"}

  /**
   * The per-run marker label, `"pivotal->shortcut " + timestamp`; the
   * timestamp is taken once when the run starts. It always differs from the
   * migration label, which it extends.
   */
  function RunLabel(timestamp: string): (name: string)
    ensures |name| > |PivotalToShortcutLabel|
    ensures name[..|PivotalToShortcutLabel|] == PivotalToShortcutLabel
    ensures name != PivotalToShortcutLabel
  {
    PivotalToShortcutLabel + " " + timestamp
  }

  /** Everything the builder reads besides the row. */
  datatype Context = Context(
    groupId: Option<string>,
    userConfig: map<string, Option<UserId>>,
    workflowConfig: map<string, Option<int>>,
    priorityConfig: map<string, Option<string>>,
    priorityCustomFieldId: string,
    runLabel: string)

  /** Why a row cannot be built: the exception `build_entity` raises. */
  datatype BuildError =
    | MissingField(key: string)              // KeyError on a row key
    | UnmappedWorkflowState(state: Value)     // KeyError on the workflow-state map
    | UnmappedPriority(priority: Value)       // KeyError on the priority map
    | IterationNotText                        // TypeError joining the iteration key

  /** The label record of this run, collected before any row. */
  function BuildRunLabelEntity(runLabel: string): (r: EntityRecord)
    ensures r.kind == "label"
    ensures r.entity.Keys == {"name"} && r.entity["name"] == Str(runLabel)
    ensures r.importedEntity.None? && r.iteration.None?
  {
    Record("label", map["name" := Str(runLabel)])
  }

  /** The allow-list of payload keys for an entity type. */
  function SelectKeys(kind: string): set<string> {
    if kind == "epic" then EpicKeys else StoryKeys
  }

  /** `{k: d[k] for k in keys if k in d}`: the keys of `d` that are allowed, with their values. */
  function Project(d: Row, keys: set<string>): Row {
    map k | k in d && k in keys :: d[k]
  }

  /** The projection keeps exactly the allowed keys of `d`, with their values. */
  lemma ProjectKeepsAllowed(d: Row, keys: set<string>)
    ensures Project(d, keys).Keys == d.Keys * keys
    ensures forall k :: k in Project(d, keys) ==> Project(d, keys)[k] == d[k]
  {
  }

  /**
   * The target ids of the names found in the user map, in input order; a
   * name missing from the map is dropped, a name mapped to no member keeps
   * its null id.
   */
  function KnownUserIds(users: map<string, Option<UserId>>, names: seq<string>): (ids: seq<Option<UserId>>)
    ensures |ids| <= |names|
  {
    if names == [] then []
    else (if names[0] in users then [users[names[0]]] else []) + KnownUserIds(users, names[1..])
  }

  /** An id is kept exactly when some listed name maps to it. */
  lemma {:induction false} KnownUserIdsMembers(users: map<string, Option<UserId>>, names: seq<string>)
    ensures forall x :: x in KnownUserIds(users, names) <==> exists n :: n in names && n in users && users[n] == x
  {
    if names != [] {
      KnownUserIdsMembers(users, names[1..]);
      assert forall n :: n in names <==> n == names[0] || n in names[1..];
    }
  }

  /** Filtering distributes over concatenation, so the input order is kept. */
  lemma {:induction false} KnownUserIdsAppend(users: map<string, Option<UserId>>, a: seq<string>, b: seq<string>)
    ensures KnownUserIds(users, a + b) == KnownUserIds(users, a) + KnownUserIds(users, b)
  {
    if a == [] {
      assert a + b == b;
    } else {
      assert (a + b)[0] == a[0];
      assert (a + b)[1..] == a[1..] + b;
      KnownUserIdsAppend(users, a[1..], b);
    }
  }

  /** The id of a user name when the map holds a non-empty id for it (`user_to_sc_id.get(name)` truthy). */
  function ResolvedUser(users: map<string, Option<UserId>>, v: Value): (r: Option<UserId>)
    ensures r.Some? <==> v.Str? && v.str != "" && v.str in users && users[v.str].Some? && users[v.str].value != ""
    ensures r.Some? ==> users[v.str] == r
  {
    if v.Str? && v.str != "" && v.str in users && users[v.str].Some? && users[v.str].value != "" then users[v.str]
    else None
  }

  /** A copied comment: a named author is removed and, when known, replaced by the author's id. */
  function ResolvedAuthor(users: map<string, Option<UserId>>, c: Comment): (r: Comment)
    ensures r.author == "" && r.text == c.text && r.attachments == c.attachments
    ensures r.authorId == (if c.author != "" && ResolvedUser(users, Str(c.author)).Some? then ResolvedUser(users, Str(c.author)) else c.authorId)
  {
    if c.author == "" then c
    else c.(author := "", authorId := if ResolvedUser(users, Str(c.author)).Some? then ResolvedUser(users, Str(c.author)) else c.authorId)
  }

  /** Every comment of the row with its author resolved, in order. */
  function ResolvedAuthors(users: map<string, Option<UserId>>, comments: seq<Comment>): seq<Comment> {
    seq(|comments|, i requires 0 <= i < |comments| => ResolvedAuthor(users, comments[i]))
  }

  /** The comment loop of `build_entity`. */
  method ResolveCommentAuthors(users: map<string, Option<UserId>>, comments: seq<Comment>) returns (out: seq<Comment>)
    ensures out == ResolvedAuthors(users, comments)
  {
    out := [];
    for i := 0 to |comments|
      invariant out == ResolvedAuthors(users, comments[..i])
    {
      out := out + [ResolvedAuthor(users, comments[i])];
    }
    assert comments[..|comments|] == comments;
  }

  /** Tasks from the zipped title and state lists; a task is complete when its state is "completed". */
  function ZipTasks(titles: seq<string>, states: seq<string>): (tasks: seq<Task>)
    ensures |tasks| == Min(|titles|, |states|)
  {
    if titles == [] || states == [] then []
    else [Task(titles[0], states[0] == "completed")] + ZipTasks(titles[1..], states[1..])
  }

  /** Task `i` pairs title `i` with state `i`. */
  lemma {:induction false} ZipTasksPairs(titles: seq<string>, states: seq<string>)
    ensures forall i :: 0 <= i < |ZipTasks(titles, states)| ==>
      ZipTasks(titles, states)[i] == Task(titles[i], states[i] == "completed")
  {
    if titles != [] && states != [] {
      ZipTasksPairs(titles[1..], states[1..]);
    }
  }

  /** One line of the review table, each cell escaped. */
  function ReviewRow(reviewer: string, reviewType: string, reviewStatus: string): string {
    "\n|" + Markdown.EscapeMdTableSyntax(reviewer) + "|" + Markdown.EscapeMdTableSyntax(reviewType)
    + "|" + Markdown.EscapeMdTableSyntax(reviewStatus) + "|"
  }

  /** The length of `zip(reviewers, types, states)`. */
  function Min3(a: int, b: int, c: int): int {
    Min(a, Min(b, c))
  }

  /** The lines of the first `n` (reviewer, type, status) triples. */
  function ReviewTable(reviewers: seq<string>, types: seq<string>, states: seq<string>, n: nat): string
    requires n <= Min3(|reviewers|, |types|, |states|)
  {
    if n == 0 then ""
    else ReviewTable(reviewers, types, states, n - 1) + ReviewRow(reviewers[n - 1], types[n - 1], states[n - 1])
  }

  /** The review comment text: the prefix, then one line per zipped triple. */
  function ReviewText(reviewers: seq<string>, types: seq<string>, states: seq<string>): string {
    ReviewAsCommentTextPrefix + ReviewTable(reviewers, types, states, Min3(|reviewers|, |types|, |states|))
  }

  /** The review-table loop of `build_entity`. */
  method ReviewCommentText(reviewers: seq<string>, types: seq<string>, states: seq<string>) returns (text: string)
    ensures text == ReviewText(reviewers, types, states)
  {
    var table := "";
    var n := Min3(|reviewers|, |types|, |states|);
    for i := 0 to n
      invariant table == ReviewTable(reviewers, types, states, i)
    {
      table := table + ReviewRow(reviewers[i], types[i], states[i]);
    }
    text := ReviewAsCommentTextPrefix + table;
  }

  /** Escaping a cell adds no line break. */
  lemma {:induction false} EscapeKeepsLineBreaks(s: string)
    ensures LineBreaks(Markdown.EscapeMdTableSyntax(s)) == LineBreaks(s)
  {
    if s != [] {
      var head := if s[0] == '|' then "\\|" else [s[0]];
      EscapeKeepsLineBreaks(s[1..]);
      LineBreaksAppend(head, Markdown.EscapeMdTableSyntax(s[1..]));
      assert s == [s[0]] + s[1..];
      LineBreaksAppend([s[0]], s[1..]);
      assert LineBreaks([s[0]]) == (if s[0] == '\n' then 1 else 0) by {
        assert [s[0]][..0] == [];
      }
      if s[0] == '|' {
        assert head[..1] == "\\";
        assert LineBreaks("\\") == 0 by {
          assert "\\"[..0] == [];
        }
      }
    }
  }

  /** One line of the table holds exactly one line break when its cells hold none. */
  lemma ReviewRowLineBreaks(reviewer: string, reviewType: string, reviewStatus: string)
    requires LineBreaks(reviewer) == 0 && LineBreaks(reviewType) == 0 && LineBreaks(reviewStatus) == 0
    ensures LineBreaks(ReviewRow(reviewer, reviewType, reviewStatus)) == 1
  {
    var e1 := Markdown.EscapeMdTableSyntax(reviewer);
    var e2 := Markdown.EscapeMdTableSyntax(reviewType);
    var e3 := Markdown.EscapeMdTableSyntax(reviewStatus);
    EscapeKeepsLineBreaks(reviewer);
    EscapeKeepsLineBreaks(reviewType);
    EscapeKeepsLineBreaks(reviewStatus);
    assert LineBreaks("|") == 0 by {
      assert "|"[..0] == [];
    }
    assert LineBreaks("\n|") == 1 by {
      assert "\n|"[..1] == "\n";
      assert "\n"[..0] == [];
    }
    LineBreaksAppend("\n|", e1);
    LineBreaksAppend("\n|" + e1, "|");
    LineBreaksAppend("\n|" + e1 + "|", e2);
    LineBreaksAppend("\n|" + e1 + "|" + e2, "|");
    LineBreaksAppend("\n|" + e1 + "|" + e2 + "|", e3);
    LineBreaksAppend("\n|" + e1 + "|" + e2 + "|" + e3, "|");
  }

  /**
   * The table has one line per (reviewer, type, status) triple that `zip`
   * pairs up, whatever pipes the cells hold, as long as they hold no line
   * break.
   */
  lemma {:induction false} ReviewTableLines(reviewers: seq<string>, types: seq<string>, states: seq<string>, n: nat)
    requires n <= Min3(|reviewers|, |types|, |states|)
    requires forall i :: 0 <= i < n ==> LineBreaks(reviewers[i]) == 0 && LineBreaks(types[i]) == 0 && LineBreaks(states[i]) == 0
    ensures LineBreaks(ReviewTable(reviewers, types, states, n)) == n
  {
    if n > 0 {
      ReviewTableLines(reviewers, types, states, n - 1);
      ReviewRowLineBreaks(reviewers[n - 1], types[n - 1], states[n - 1]);
      LineBreaksAppend(ReviewTable(reviewers, types, states, n - 1), ReviewRow(reviewers[n - 1], types[n - 1], states[n - 1]));
    }
  }

  /** The workflow-state id stored for a mapped state (null when the map holds none). */
  function NumOrNull(o: Option<int>): Value {
    match o
    case Some(n) => Num(n)
    case None => Null
  }

  /** The `group_id` of a story: the configured group, or null. */
  function GroupIdValue(groupId: Option<string>): Value {
    match groupId
    case Some(g) => Str(g)
    case None => Null
  }

  /** The iteration key of a story: id, start and end joined by `|`. */
  function IterationKey(id: string, start: string, end: string): string {
    id + "|" + start + "|" + end
  }

  /** The row's type is `"epic"`. */
  predicate IsEpicRow(row: Row) {
    "story_type" in row && row["story_type"] == Str("epic")
  }

  /** The row's type is `"release"`. */
  predicate IsReleaseRow(row: Row) {
    "story_type" in row && row["story_type"] == Str("release")
  }

  /** `a` and `b` hold the same keys with the same values, except perhaps the keys in `keys`. */
  ghost predicate SameExcept(a: Row, b: Row, keys: set<string>) {
    forall k {:trigger Named(k)} :: k !in keys ==> (k in a <==> k in b) && (k in a ==> a[k] == b[k])
  }

  /**
   * The trigger of `SameExcept`: its facts about a key are drawn only where a
   * proof names that key, which keeps the frame reasoning cheap.
   */
  ghost predicate Named(k: string) {
    true
  }

  lemma SameExceptTrans(a: Row, b: Row, c: Row, k1: set<string>, k2: set<string>)
    requires SameExcept(a, b, k1) && SameExcept(b, c, k2)
    ensures SameExcept(a, c, k1 + k2)
  {
    forall k | k !in k1 + k2
      ensures (k in a <==> k in c) && (k in a ==> a[k] == c[k])
    {
      assert Named(k);
    }
  }

  /** `a` and `b` agree on the key `k`: both lack it, or both hold it with the same value. */
  ghost predicate AgreeAt(a: Row, b: Row, k: string) {
    (k in a <==> k in b) && (k in a ==> a[k] == b[k])
  }

  lemma SameExceptWeaken(a: Row, b: Row, k1: set<string>, k2: set<string>)
    requires SameExcept(a, b, k1) && k1 <= k2
    ensures SameExcept(a, b, k2)
  {
    forall k | k !in k2
      ensures (k in a <==> k in b) && (k in a ==> a[k] == b[k])
    {
      assert Named(k);
    }
  }

  lemma SameAt(a: Row, b: Row, keys: set<string>, k: string)
    requires SameExcept(a, b, keys) && k !in keys
    ensures AgreeAt(a, b, k)
  {
    assert Named(k);
  }

  // The steps of `build_entity`, one function per step; `Build` chains them.
  // The lemma after each step names the keys it may change.

  function WithMarkerLabels(ctx: Context, d: Row): (d': Row)
    ensures "labels" in d' && d'["labels"] == Labels(LabelsAt(d) + [PivotalToShortcutLabel, ctx.runLabel])
  {
    d["labels" := Labels(LabelsAt(d) + [PivotalToShortcutLabel, ctx.runLabel])]
  }

  lemma WithMarkerLabelsFrame(ctx: Context, d: Row)
    ensures SameExcept(WithMarkerLabels(ctx, d), d, {"labels"})
  {
  }

  function WithReleaseAsChore(d: Row): (d': Row)
    ensures IsReleaseRow(d) ==>
      && "story_type" in d' && d'["story_type"] == Str("chore")
      && "labels" in d' && d'["labels"] == Labels(LabelsAt(d) + [PivotalReleaseTypeLabel])
    ensures !IsReleaseRow(d) ==> d' == d
  {
    if IsReleaseRow(d) then
      var d1 := d["story_type" := Str("chore")];
      d1["labels" := Labels(LabelsAt(d1) + [PivotalReleaseTypeLabel])]
    else d
  }

  lemma WithReleaseAsChoreFrame(d: Row)
    ensures SameExcept(WithReleaseAsChore(d), d, {"story_type", "labels"})
  {
  }

  function WithWorkflowState(ctx: Context, d: Row): (r: Result<Row, BuildError>)
    ensures r.Failure? <==> TruthyAt(d, "pt_state") && !(d["pt_state"].Str? && d["pt_state"].str in ctx.workflowConfig)
    ensures r.Failure? ==> r.error == UnmappedWorkflowState(d["pt_state"])
    ensures r.Success? && TruthyAt(d, "pt_state") ==>
      "workflow_state_id" in r.value && r.value["workflow_state_id"] == NumOrNull(ctx.workflowConfig[d["pt_state"].str])
  {
    if TruthyAt(d, "pt_state") then
      var state := d["pt_state"];
      if state.Str? && state.str in ctx.workflowConfig then
        Success(d["workflow_state_id" := NumOrNull(ctx.workflowConfig[state.str])])
      else Failure(UnmappedWorkflowState(state))
    else Success(d)
  }

  lemma WithWorkflowStateFrame(ctx: Context, d: Row)
    ensures WithWorkflowState(ctx, d).Success? ==> SameExcept(WithWorkflowState(ctx, d).value, d, {"workflow_state_id"})
  {
  }

  function WithTasks(d: Row): (d': Row)
    ensures ZipTasks(StrsAt(d, "task_titles"), StrsAt(d, "task_states")) != [] ==>
      "tasks" in d' && d'["tasks"] == Tasks(ZipTasks(StrsAt(d, "task_titles"), StrsAt(d, "task_states")))
  {
    var tasks := ZipTasks(StrsAt(d, "task_titles"), StrsAt(d, "task_states"));
    if tasks != [] then d["tasks" := Tasks(tasks)] else d
  }

  lemma WithTasksFrame(d: Row)
    ensures SameExcept(WithTasks(d), d, {"tasks"})
  {
  }

  function WithRequester(ctx: Context, d: Row): (d': Row)
    ensures "requester" in d && ResolvedUser(ctx.userConfig, d["requester"]).Some? ==>
      "requested_by_id" in d' && d'["requested_by_id"] == Str(ResolvedUser(ctx.userConfig, d["requester"]).value)
    ensures !("requester" in d && ResolvedUser(ctx.userConfig, d["requester"]).Some?) ==> d' == d
  {
    if "requester" in d && ResolvedUser(ctx.userConfig, d["requester"]).Some? then
      d["requested_by_id" := Str(ResolvedUser(ctx.userConfig, d["requester"]).value)]
    else d
  }

  lemma WithRequesterFrame(ctx: Context, d: Row)
    ensures SameExcept(WithRequester(ctx, d), d, {"requested_by_id"})
  {
  }

  function WithOwners(ctx: Context, d: Row): (d': Row)
    ensures StrsAt(d, "owners") != [] ==>
      "owner_ids" in d' && d'["owner_ids"] == UserIds(KnownUserIds(ctx.userConfig, StrsAt(d, "owners")))
  {
    var owners := StrsAt(d, "owners");
    if owners != [] then d["owner_ids" := UserIds(KnownUserIds(ctx.userConfig, owners))] else d
  }

  lemma WithOwnersFrame(ctx: Context, d: Row)
    ensures SameExcept(WithOwners(ctx, d), d, {"owner_ids"})
  {
  }

  function WithReviewers(ctx: Context, d: Row): (d': Row)
    ensures StrsAt(d, "reviewers") != [] ==>
      && "follower_ids" in d' && d'["follower_ids"] == UserIds(KnownUserIds(ctx.userConfig, StrsAt(d, "reviewers")))
      && "labels" in d' && d'["labels"] == Labels(LabelsAt(d) + [PivotalHadReviewLabel])
    ensures StrsAt(d, "reviewers") == [] ==> d' == d
  {
    var reviewers := StrsAt(d, "reviewers");
    if reviewers != [] then
      var d1 := d["follower_ids" := UserIds(KnownUserIds(ctx.userConfig, reviewers))];
      d1["labels" := Labels(LabelsAt(d1) + [PivotalHadReviewLabel])]
    else d
  }

  lemma WithReviewersFrame(ctx: Context, d: Row)
    ensures SameExcept(WithReviewers(ctx, d), d, {"follower_ids", "labels"})
  {
  }

  /** The keys the people step may write. */
  const PeopleKeys: set<string> := {"tasks", "requested_by_id", "owner_ids", "follower_ids", "labels"}

  /** Tasks, requester, owners and reviewers, in the order `build_entity` sets them. */
  function People(ctx: Context, d: Row): Row {
    WithReviewers(ctx, WithOwners(ctx, WithRequester(ctx, WithTasks(d))))
  }

  lemma PeopleFrame(ctx: Context, d: Row)
    ensures SameExcept(People(ctx, d), d, PeopleKeys)
  {
    var t := WithTasks(d);
    var q := WithRequester(ctx, t);
    var o := WithOwners(ctx, q);
    WithTasksFrame(d);
    WithRequesterFrame(ctx, t);
    WithOwnersFrame(ctx, q);
    WithReviewersFrame(ctx, o);
    SameExceptTrans(q, t, d, {"requested_by_id"}, {"tasks"});
    SameExceptTrans(o, q, d, {"owner_ids"}, {"requested_by_id"} + {"tasks"});
    SameExceptTrans(People(ctx, d), o, d, {"follower_ids", "labels"}, {"owner_ids"} + ({"requested_by_id"} + {"tasks"}));
    assert {"follower_ids", "labels"} + ({"owner_ids"} + ({"requested_by_id"} + {"tasks"})) == PeopleKeys;
  }

  /** The people step leaves every key it does not write as it is. */
  lemma PeopleKeeps(ctx: Context, d: Row, k: string)
    requires k != "tasks" && k != "requested_by_id" && k != "owner_ids" && k != "follower_ids" && k != "labels"
    ensures AgreeAt(People(ctx, d), d, k)
  {
  }

  lemma PeopleTasks(ctx: Context, d: Row)
    ensures var tasks := ZipTasks(StrsAt(d, "task_titles"), StrsAt(d, "task_states"));
      tasks != [] ==> "tasks" in People(ctx, d) && People(ctx, d)["tasks"] == Tasks(tasks)
  {
  }

  lemma PeopleRequester(ctx: Context, d: Row)
    ensures "requester" in d && ResolvedUser(ctx.userConfig, d["requester"]).Some? ==>
      "requested_by_id" in People(ctx, d) && People(ctx, d)["requested_by_id"] == Str(ResolvedUser(ctx.userConfig, d["requester"]).value)
    ensures !("requester" in d && ResolvedUser(ctx.userConfig, d["requester"]).Some?) ==>
      AgreeAt(People(ctx, d), d, "requested_by_id")
  {
    assert AgreeAt(WithTasks(d), d, "requester");
  }

  lemma PeopleOwners(ctx: Context, d: Row)
    ensures StrsAt(d, "owners") != [] ==>
      "owner_ids" in People(ctx, d) && People(ctx, d)["owner_ids"] == UserIds(KnownUserIds(ctx.userConfig, StrsAt(d, "owners")))
  {
    assert AgreeAt(WithRequester(ctx, WithTasks(d)), d, "owners");
  }

  lemma PeopleFollowersAndLabels(ctx: Context, d: Row)
    ensures StrsAt(d, "reviewers") != [] ==>
      "follower_ids" in People(ctx, d) && People(ctx, d)["follower_ids"] == UserIds(KnownUserIds(ctx.userConfig, StrsAt(d, "reviewers")))
    ensures LabelsAt(People(ctx, d)) == LabelsAt(d) + (if StrsAt(d, "reviewers") != [] then [PivotalHadReviewLabel] else [])
  {
    var o := WithOwners(ctx, WithRequester(ctx, WithTasks(d)));
    assert AgreeAt(o, d, "reviewers");
    assert AgreeAt(o, d, "labels");
  }

  function WithReviewComment(d: Row, comments: seq<Comment>): seq<Comment> {
    var reviewers := StrsAt(d, "reviewers");
    if reviewers != [] then
      comments + [Comment("", TextAt(d, "requested_by_id"), ReviewText(reviewers, StrsAt(d, "review_types"), StrsAt(d, "review_states")), [])]
    else comments
  }

  function WithPriority(ctx: Context, d: Row): (r: Result<Row, BuildError>)
    ensures r.Failure? <==> TruthyAt(d, "priority") && !(d["priority"].Str? && d["priority"].str in ctx.priorityConfig)
    ensures r.Failure? ==> r.error == UnmappedPriority(d["priority"])
    ensures r.Success? && TruthyAt(d, "priority") ==>
      "custom_fields" in r.value
      && r.value["custom_fields"] == CustomFields([CustomField(ctx.priorityCustomFieldId, ctx.priorityConfig[d["priority"].str])])
  {
    if TruthyAt(d, "priority") then
      var priority := d["priority"];
      if priority.Str? && priority.str in ctx.priorityConfig then
        Success(d["custom_fields" := CustomFields([CustomField(ctx.priorityCustomFieldId, ctx.priorityConfig[priority.str])])])
      else Failure(UnmappedPriority(priority))
    else Success(d)
  }

  lemma WithPriorityFrame(ctx: Context, d: Row)
    ensures WithPriority(ctx, d).Success? ==> SameExcept(WithPriority(ctx, d).value, d, {"custom_fields"})
  {
  }

  /** The iteration checks of a story row, in the order `build_entity` makes them. */
  function IterationFailure(d: Row): Option<BuildError> {
    if !TruthyAt(d, "pt_iteration_id") then None
    else if "pt_iteration_start_date" !in d then Some(MissingField("pt_iteration_start_date"))
    else if "pt_iteration_end_date" !in d then Some(MissingField("pt_iteration_end_date"))
    else if !(d["pt_iteration_id"].Str? && d["pt_iteration_start_date"].Str? && d["pt_iteration_end_date"].Str?) then
      Some(IterationNotText)
    else None
  }

  function IterationOf(d: Row): (r: Result<Option<string>, BuildError>)
    ensures r.Failure? <==> IterationFailure(d).Some?
    ensures r.Failure? ==> r.error == IterationFailure(d).value
    ensures r.Success? ==> r.value == (if TruthyAt(d, "pt_iteration_id") then
      Some(IterationKey(d["pt_iteration_id"].str, d["pt_iteration_start_date"].str, d["pt_iteration_end_date"].str))
      else None)
  {
    if TruthyAt(d, "pt_iteration_id") then
      if "pt_iteration_start_date" !in d then Failure(MissingField("pt_iteration_start_date"))
      else if "pt_iteration_end_date" !in d then Failure(MissingField("pt_iteration_end_date"))
      else
        var id, start, end := d["pt_iteration_id"], d["pt_iteration_start_date"], d["pt_iteration_end_date"];
        if id.Str? && start.Str? && end.Str? then Success(Some(IterationKey(id.str, start.str, end.str)))
        else Failure(IterationNotText)
    else Success(None)
  }

  function WithComments(d: Row, comments: seq<Comment>): (d': Row)
    ensures comments == [] ==> "comments" !in d'
    ensures comments != [] ==> "comments" in d' && d'["comments"] == Comments(comments)
  {
    if comments != [] then d["comments" := Comments(comments)]
    else if "comments" in d then d - {"comments"}
    else d
  }

  lemma WithCommentsFrame(d: Row, comments: seq<Comment>)
    ensures SameExcept(WithComments(d, comments), d, {"comments"})
  {
  }

  /** The story-only part of `build_entity`: the updated row and the iteration key. */
  function WithGroup(ctx: Context, d: Row): Row {
    d["group_id" := GroupIdValue(ctx.groupId)]
  }

  lemma WithGroupFrame(ctx: Context, d: Row)
    ensures SameExcept(WithGroup(ctx, d), d, {"group_id"})
  {
  }

  /** The keys the story part may write. */
  const StoryWrittenKeys: set<string> := {"comments"} + ({"custom_fields"} + (PeopleKeys + ({"workflow_state_id"} + {"group_id"})))

  function StoryFields(ctx: Context, d: Row, comments: seq<Comment>): Result<(Row, Option<string>), BuildError> {
    var d1 := WithGroup(ctx, d);
    var d2 :- WithWorkflowState(ctx, d1);
    var d3 := People(ctx, d2);
    var comments' := WithReviewComment(d3, comments);
    var d4 :- WithPriority(ctx, d3);
    var iteration :- IterationOf(d4);
    Success((WithComments(d4, comments'), iteration))
  }

  /** `build_entity` as a function of the context and the parsed row. */
  function Build(ctx: Context, row: Row): Result<EntityRecord, BuildError> {
    var d := WithMarkerLabels(ctx, row);
    if "story_type" !in d then Failure(MissingField("story_type"))
    else
      var kind := if d["story_type"] == Str("epic") then "epic" else "story";
      var comments := ResolvedAuthors(ctx.userConfig, CommentsAt(d));
      var d1 := WithReleaseAsChore(d);
      var ptIterationId := TextAt(d1, "pt_iteration_id");
      if kind == "story" then
        var story :- StoryFields(ctx, d1, comments);
        Success(EntityRecord(kind, Project(story.0, SelectKeys(kind)), story.1, ptIterationId, story.0, None, None))
      else
        var d2 := d1["group_ids" := Strs(if ctx.groupId.Some? then [ctx.groupId.value] else [])];
        Success(EntityRecord(kind, Project(d2, SelectKeys(kind)), None, ptIterationId, d2, None, None))
  }

  /** Sets the tasks zipped from the title and state lists, when there are any. */
  method AddTasks(d: Row) returns (d': Row)
    ensures d' == WithTasks(d)
  {
    d' := d;
    var tasks := ZipTasks(StrsAt(d, "task_titles"), StrsAt(d, "task_states"));
    if tasks != [] {
      d' := d'["tasks" := Tasks(tasks)];
    }
  }

  /** Sets the requester's id, when the requester resolves to one. */
  method AddRequester(ctx: Context, d: Row) returns (d': Row)
    ensures d' == WithRequester(ctx, d)
  {
    d' := d;
    if "requester" in d {
      var requesterId := ResolvedUser(ctx.userConfig, d["requester"]);
      if requesterId.Some? {
        d' := d'["requested_by_id" := Str(requesterId.value)];
      }
    }
  }

  /** Sets the owners' ids, when the row lists owners. */
  method AddOwners(ctx: Context, d: Row) returns (d': Row)
    ensures d' == WithOwners(ctx, d)
  {
    d' := d;
    var owners := StrsAt(d, "owners");
    if owners != [] {
      d' := d'["owner_ids" := UserIds(KnownUserIds(ctx.userConfig, owners))];
    }
  }

  /** Sets the reviewers' ids as followers and adds the review label, when the row lists reviewers. */
  method AddReviewers(ctx: Context, d: Row) returns (d': Row)
    ensures d' == WithReviewers(ctx, d)
  {
    d' := d;
    var reviewers := StrsAt(d, "reviewers");
    if reviewers != [] {
      d' := d'["follower_ids" := UserIds(KnownUserIds(ctx.userConfig, reviewers))];
      d' := d'["labels" := Labels(LabelsAt(d') + [PivotalHadReviewLabel])];
    }
  }

  /** Tasks, requester, owners, reviewers and the review comment of a story. */
  method AddPeople(ctx: Context, row: Row, comments: seq<Comment>) returns (d: Row, comments': seq<Comment>)
    ensures d == People(ctx, row)
    ensures comments' == WithReviewComment(d, comments)
  {
    d := AddTasks(row);
    d := AddRequester(ctx, d);
    d := AddOwners(ctx, d);
    var o := d;
    d := AddReviewers(ctx, d);
    WithReviewersFrame(ctx, o);
    SameAt(d, o, {"follower_ids", "labels"}, "reviewers");
    var reviewers := StrsAt(d, "reviewers");
    comments' := comments;
    if reviewers != [] {
      var text := ReviewCommentText(reviewers, StrsAt(d, "review_types"), StrsAt(d, "review_states"));
      comments' := comments' + [Comment("", TextAt(d, "requested_by_id"), text, [])];
    }
  }

  /** Sets the workflow-state id of the row's state; a state the configuration does not map raises. */
  method AddWorkflowState(ctx: Context, d: Row) returns (r: Result<Row, BuildError>)
    ensures r == WithWorkflowState(ctx, d)
  {
    if TruthyAt(d, "pt_state") {
      var state := d["pt_state"];
      if !(state.Str? && state.str in ctx.workflowConfig) {
        return Failure(UnmappedWorkflowState(state));
      }
      return Success(d["workflow_state_id" := NumOrNull(ctx.workflowConfig[state.str])]);
    }
    return Success(d);
  }

  /** Sets the priority custom field of the row's priority; a priority the configuration does not map raises. */
  method AddPriority(ctx: Context, d: Row) returns (r: Result<Row, BuildError>)
    ensures r == WithPriority(ctx, d)
  {
    if TruthyAt(d, "priority") {
      var priority := d["priority"];
      if !(priority.Str? && priority.str in ctx.priorityConfig) {
        return Failure(UnmappedPriority(priority));
      }
      var customFields := [CustomField(ctx.priorityCustomFieldId, ctx.priorityConfig[priority.str])];
      return Success(d["custom_fields" := CustomFields(customFields)]);
    }
    return Success(d);
  }

  /** The iteration key of the row, when it names an iteration. */
  method IterationKeyOf(d: Row) returns (r: Result<Option<string>, BuildError>)
    ensures r == IterationOf(d)
  {
    if TruthyAt(d, "pt_iteration_id") {
      if "pt_iteration_start_date" !in d {
        return Failure(MissingField("pt_iteration_start_date"));
      }
      if "pt_iteration_end_date" !in d {
        return Failure(MissingField("pt_iteration_end_date"));
      }
      var id, start, end := d["pt_iteration_id"], d["pt_iteration_start_date"], d["pt_iteration_end_date"];
      if !(id.Str? && start.Str? && end.Str?) {
        return Failure(IterationNotText);
      }
      return Success(Some(IterationKey(id.str, start.str, end.str)));
    }
    return Success(None);
  }

  /** The story-only part of `build_entity`, on the row as updated so far. */
  method AddStoryFields(ctx: Context, row: Row, comments: seq<Comment>) returns (r: Result<(Row, Option<string>), BuildError>)
    ensures r == StoryFields(ctx, row, comments)
  {
    var d := row["group_id" := GroupIdValue(ctx.groupId)];
    var state := AddWorkflowState(ctx, d);
    if state.Failure? {
      return Failure(state.error);
    }
    var comments';
    d, comments' := AddPeople(ctx, state.value, comments);
    var priority := AddPriority(ctx, d);
    if priority.Failure? {
      return Failure(priority.error);
    }
    d := priority.value;
    var iteration := IterationKeyOf(d);
    if iteration.Failure? {
      return Failure(iteration.error);
    }
    if comments' != [] {
      d := d["comments" := Comments(comments')];
    } else if "comments" in d {
      d := d - {"comments"};
    }
    r := Success((d, iteration.value));
  }

  /**
   * `build_entity`: the row `d` is updated step by step and then projected on
   * the allow-list of its type.
   */
  method BuildEntity(ctx: Context, row: Row) returns (r: Result<EntityRecord, BuildError>)
    ensures r == Build(ctx, row)
  {
    var d := row;
    d := d["labels" := Labels(LabelsAt(d) + [PivotalToShortcutLabel, ctx.runLabel])];
    if "story_type" !in d {
      return Failure(MissingField("story_type"));
    }
    var kind := if d["story_type"] == Str("epic") then "epic" else "story";
    var comments := ResolveCommentAuthors(ctx.userConfig, CommentsAt(d));
    if d["story_type"] == Str("release") {
      d := d["story_type" := Str("chore")];
      d := d["labels" := Labels(LabelsAt(d) + [PivotalReleaseTypeLabel])];
    }
    var iteration: Option<string> := None;
    var ptIterationId := TextAt(d, "pt_iteration_id");
    if kind == "story" {
      var story := AddStoryFields(ctx, d, comments);
      if story.Failure? {
        return Failure(story.error);
      }
      d, iteration := story.value.0, story.value.1;
    } else {
      d := d["group_ids" := Strs(if ctx.groupId.Some? then [ctx.groupId.value] else [])];
    }
    var entity := Project(d, SelectKeys(kind));
    r := Success(EntityRecord(kind, entity, iteration, ptIterationId, d, None, None));
  }

  /** The first exception the story part of `build_entity` raises, in the order it checks. */
  function StoryFailure(ctx: Context, d: Row): Option<BuildError> {
    if TruthyAt(d, "pt_state") && !(d["pt_state"].Str? && d["pt_state"].str in ctx.workflowConfig) then
      Some(UnmappedWorkflowState(d["pt_state"]))
    else if TruthyAt(d, "priority") && !(d["priority"].Str? && d["priority"].str in ctx.priorityConfig) then
      Some(UnmappedPriority(d["priority"]))
    else IterationFailure(d)
  }

  /** The story checks read only the state, priority and iteration keys. */
  lemma StoryFailureAgree(ctx: Context, a: Row, b: Row)
    requires AgreeAt(a, b, "pt_state") && AgreeAt(a, b, "priority")
    requires AgreeAt(a, b, "pt_iteration_id")
    requires AgreeAt(a, b, "pt_iteration_start_date") && AgreeAt(a, b, "pt_iteration_end_date")
    ensures StoryFailure(ctx, a) == StoryFailure(ctx, b)
  {
    IterationAgree(a, b);
  }

  /** The first exception `build_entity` raises for a row, in the order it checks. */
  function BuildFailure(ctx: Context, row: Row): Option<BuildError> {
    if "story_type" !in row then Some(MissingField("story_type"))
    else if IsEpicRow(row) then None
    else StoryFailure(ctx, row)
  }

  /** Grouping the story and mapping its state leave every other key as it is. */
  lemma GroupStateKeeps(ctx: Context, d: Row, k: string)
    requires WithWorkflowState(ctx, WithGroup(ctx, d)).Success?
    requires k != "group_id" && k != "workflow_state_id"
    ensures AgreeAt(WithWorkflowState(ctx, WithGroup(ctx, d)).value, d, k)
  {
  }

  /** Mapping the priority and setting the comments leave every other key as it is. */
  lemma PriorityCommentsKeep(ctx: Context, d: Row, comments: seq<Comment>, k: string)
    requires WithPriority(ctx, d).Success?
    requires k != "custom_fields" && k != "comments"
    ensures AgreeAt(WithComments(WithPriority(ctx, d).value, comments), d, k)
  {
  }

  /** The iteration key depends only on the three iteration keys. */
  lemma IterationAgree(a: Row, b: Row)
    requires AgreeAt(a, b, "pt_iteration_id")
    requires AgreeAt(a, b, "pt_iteration_start_date") && AgreeAt(a, b, "pt_iteration_end_date")
    ensures IterationFailure(a) == IterationFailure(b)
    ensures IterationOf(a) == IterationOf(b)
  {
  }

  /**
   * The rows a successful story part goes through: grouped and state mapped
   * (`d2`), people set (`d3`), priority mapped (`d4`); the result is the last
   * with its comments.
   */
  lemma StoryFieldsSteps(ctx: Context, d: Row, comments: seq<Comment>) returns (d2: Row, d3: Row, d4: Row)
    requires StoryFields(ctx, d, comments).Success?
    ensures WithWorkflowState(ctx, WithGroup(ctx, d)) == Success(d2)
    ensures d3 == People(ctx, d2)
    ensures WithPriority(ctx, d3) == Success(d4)
    ensures IterationOf(d4).Success?
    ensures StoryFields(ctx, d, comments).value == (WithComments(d4, WithReviewComment(d3, comments)), IterationOf(d4).value)
  {
    d2 := WithWorkflowState(ctx, WithGroup(ctx, d)).value;
    d3 := People(ctx, d2);
    d4 := WithPriority(ctx, d3).value;
  }

  lemma StoryFieldsFailure(ctx: Context, d: Row, comments: seq<Comment>)
    ensures StoryFields(ctx, d, comments).Failure? <==> StoryFailure(ctx, d).Some?
    ensures StoryFields(ctx, d, comments).Failure? ==> StoryFields(ctx, d, comments).error == StoryFailure(ctx, d).value
  {
    var w := WithWorkflowState(ctx, WithGroup(ctx, d));
    if w.Success? {
      var d3 := People(ctx, w.value);
      GroupStateKeeps(ctx, d, "priority");
      PeopleKeeps(ctx, w.value, "priority");
      var p := WithPriority(ctx, d3);
      if p.Success? {
        GroupStateKeeps(ctx, d, "pt_iteration_id");
        GroupStateKeeps(ctx, d, "pt_iteration_start_date");
        GroupStateKeeps(ctx, d, "pt_iteration_end_date");
        PeopleKeeps(ctx, w.value, "pt_iteration_id");
        PeopleKeeps(ctx, w.value, "pt_iteration_start_date");
        PeopleKeeps(ctx, w.value, "pt_iteration_end_date");
        IterationAgree(p.value, d);
      }
    }
  }

  /** The story part writes only its own keys. */
  lemma StoryFieldsFrame(ctx: Context, d: Row, comments: seq<Comment>)
    requires StoryFields(ctx, d, comments).Success?
    ensures SameExcept(StoryFields(ctx, d, comments).value.0, d, StoryWrittenKeys)
  {
    var d2, d3, d4 := StoryFieldsSteps(ctx, d, comments);
    var d1 := WithGroup(ctx, d);
    var out := WithComments(d4, WithReviewComment(d3, comments));
    WithGroupFrame(ctx, d);
    WithWorkflowStateFrame(ctx, d1);
    PeopleFrame(ctx, d2);
    WithPriorityFrame(ctx, d3);
    WithCommentsFrame(d4, WithReviewComment(d3, comments));
    SameExceptTrans(d2, d1, d, {"workflow_state_id"}, {"group_id"});
    SameExceptTrans(d3, d2, d, PeopleKeys, {"workflow_state_id"} + {"group_id"});
    SameExceptTrans(d4, d3, d, {"custom_fields"}, PeopleKeys + ({"workflow_state_id"} + {"group_id"}));
    SameExceptTrans(out, d4, d, {"comments"}, {"custom_fields"} + (PeopleKeys + ({"workflow_state_id"} + {"group_id"})));
  }

  /** A story is placed in the configured group, or in none. */
  lemma StoryFieldsGroup(ctx: Context, d: Row, comments: seq<Comment>)
    requires StoryFields(ctx, d, comments).Success?
    ensures var out := StoryFields(ctx, d, comments).value.0;
      "group_id" in out && out["group_id"] == GroupIdValue(ctx.groupId)
  {
    var d2, d3, d4 := StoryFieldsSteps(ctx, d, comments);
    PeopleKeeps(ctx, d2, "group_id");
    PriorityCommentsKeep(ctx, d3, WithReviewComment(d3, comments), "group_id");
  }

  /** A story with a state gets the workflow state the configuration maps it to. */
  lemma StoryFieldsState(ctx: Context, d: Row, comments: seq<Comment>)
    requires StoryFields(ctx, d, comments).Success?
    ensures var out := StoryFields(ctx, d, comments).value.0;
      TruthyAt(d, "pt_state") ==>
        && d["pt_state"].Str? && d["pt_state"].str in ctx.workflowConfig
        && "workflow_state_id" in out && out["workflow_state_id"] == NumOrNull(ctx.workflowConfig[d["pt_state"].str])
  {
    var d2, d3, d4 := StoryFieldsSteps(ctx, d, comments);
    PeopleKeeps(ctx, d2, "workflow_state_id");
    PriorityCommentsKeep(ctx, d3, WithReviewComment(d3, comments), "workflow_state_id");
  }

  /** A story with a priority gets the priority custom field the configuration maps it to. */
  lemma StoryFieldsPriority(ctx: Context, d: Row, comments: seq<Comment>)
    requires StoryFields(ctx, d, comments).Success?
    ensures var out := StoryFields(ctx, d, comments).value.0;
      TruthyAt(d, "priority") ==>
        && d["priority"].Str? && d["priority"].str in ctx.priorityConfig
        && "custom_fields" in out
        && out["custom_fields"] == CustomFields([CustomField(ctx.priorityCustomFieldId, ctx.priorityConfig[d["priority"].str])])
  {
    var d2, d3, d4 := StoryFieldsSteps(ctx, d, comments);
    GroupStateKeeps(ctx, d, "priority");
    PeopleKeeps(ctx, d2, "priority");
  }

  /** A story gets one task per zipped title and state. */
  lemma StoryFieldsTasks(ctx: Context, d: Row, comments: seq<Comment>)
    requires StoryFields(ctx, d, comments).Success?
    ensures var out := StoryFields(ctx, d, comments).value.0;
      var tasks := ZipTasks(StrsAt(d, "task_titles"), StrsAt(d, "task_states"));
      tasks != [] ==> "tasks" in out && out["tasks"] == Tasks(tasks)
  {
    var d2, d3, d4 := StoryFieldsSteps(ctx, d, comments);
    GroupStateKeeps(ctx, d, "task_titles");
    GroupStateKeeps(ctx, d, "task_states");
    PeopleTasks(ctx, d2);
    PriorityCommentsKeep(ctx, d3, WithReviewComment(d3, comments), "tasks");
  }

  /** A story whose requester resolves gets the requester's id. */
  lemma StoryFieldsRequester(ctx: Context, d: Row, comments: seq<Comment>)
    requires StoryFields(ctx, d, comments).Success?
    ensures var out := StoryFields(ctx, d, comments).value.0;
      "requester" in d && ResolvedUser(ctx.userConfig, d["requester"]).Some? ==>
        "requested_by_id" in out && out["requested_by_id"] == Str(ResolvedUser(ctx.userConfig, d["requester"]).value)
  {
    var d2, d3, d4 := StoryFieldsSteps(ctx, d, comments);
    GroupStateKeeps(ctx, d, "requester");
    PeopleRequester(ctx, d2);
    PriorityCommentsKeep(ctx, d3, WithReviewComment(d3, comments), "requested_by_id");
  }

  /** A story with owners gets the ids of the owners the user map knows. */
  lemma StoryFieldsOwners(ctx: Context, d: Row, comments: seq<Comment>)
    requires StoryFields(ctx, d, comments).Success?
    ensures var out := StoryFields(ctx, d, comments).value.0;
      StrsAt(d, "owners") != [] ==>
        "owner_ids" in out && out["owner_ids"] == UserIds(KnownUserIds(ctx.userConfig, StrsAt(d, "owners")))
  {
    var d2, d3, d4 := StoryFieldsSteps(ctx, d, comments);
    GroupStateKeeps(ctx, d, "owners");
    PeopleOwners(ctx, d2);
    PriorityCommentsKeep(ctx, d3, WithReviewComment(d3, comments), "owner_ids");
  }

  /** A story with reviewers gets the ids of the reviewers the user map knows as followers. */
  lemma StoryFieldsFollowers(ctx: Context, d: Row, comments: seq<Comment>)
    requires StoryFields(ctx, d, comments).Success?
    ensures var out := StoryFields(ctx, d, comments).value.0;
      StrsAt(d, "reviewers") != [] ==>
        "follower_ids" in out && out["follower_ids"] == UserIds(KnownUserIds(ctx.userConfig, StrsAt(d, "reviewers")))
  {
    var d2, d3, d4 := StoryFieldsSteps(ctx, d, comments);
    GroupStateKeeps(ctx, d, "reviewers");
    PeopleFollowersAndLabels(ctx, d2);
    PriorityCommentsKeep(ctx, d3, WithReviewComment(d3, comments), "follower_ids");
  }

  /** Story labels: the row's own, then the review marker when it had reviewers. */
  lemma StoryFieldsLabels(ctx: Context, d: Row, comments: seq<Comment>)
    requires StoryFields(ctx, d, comments).Success?
    ensures LabelsAt(StoryFields(ctx, d, comments).value.0)
      == LabelsAt(d) + (if StrsAt(d, "reviewers") != [] then [PivotalHadReviewLabel] else [])
  {
    var d2, d3, d4 := StoryFieldsSteps(ctx, d, comments);
    GroupStateKeeps(ctx, d, "reviewers");
    GroupStateKeeps(ctx, d, "labels");
    PeopleFollowersAndLabels(ctx, d2);
    PriorityCommentsKeep(ctx, d3, WithReviewComment(d3, comments), "labels");
  }

  /** The review table comment, attributed to the resolved requester, else to the row's own requester id. */
  function ReviewComment(ctx: Context, d: Row): Comment {
    var requester := if "requester" in d then ResolvedUser(ctx.userConfig, d["requester"]) else None;
    Comment("", if requester.Some? then requester else TextAt(d, "requested_by_id"),
      ReviewText(StrsAt(d, "reviewers"), StrsAt(d, "review_types"), StrsAt(d, "review_states")), [])
  }

  /** The review comment reads only the requester and review keys. */
  lemma ReviewCommentAgree(ctx: Context, a: Row, b: Row)
    requires AgreeAt(a, b, "requester") && AgreeAt(a, b, "requested_by_id")
    requires AgreeAt(a, b, "reviewers") && AgreeAt(a, b, "review_types") && AgreeAt(a, b, "review_states")
    ensures ReviewComment(ctx, a) == ReviewComment(ctx, b)
  {
  }

  /** The people step appends the review comment of the row it starts from. */
  lemma PeopleReviewComment(ctx: Context, d: Row, comments: seq<Comment>)
    ensures StrsAt(d, "reviewers") != [] ==> WithReviewComment(People(ctx, d), comments) == comments + [ReviewComment(ctx, d)]
    ensures StrsAt(d, "reviewers") == [] ==> WithReviewComment(People(ctx, d), comments) == comments
  {
    var p := People(ctx, d);
    PeopleKeeps(ctx, d, "reviewers");
    PeopleKeeps(ctx, d, "review_types");
    PeopleKeeps(ctx, d, "review_states");
    PeopleRequester(ctx, d);
    assert StrsAt(p, "reviewers") == StrsAt(d, "reviewers");
    assert StrsAt(p, "review_types") == StrsAt(d, "review_types");
    assert StrsAt(p, "review_states") == StrsAt(d, "review_states");
  }

  /** Story comments: the given ones, then the review table when there were reviewers; none at all drops the key. */
  lemma StoryFieldsComments(ctx: Context, d: Row, comments: seq<Comment>)
    requires StoryFields(ctx, d, comments).Success?
    ensures var out := StoryFields(ctx, d, comments).value.0;
      var reviewed := StrsAt(d, "reviewers") != [];
      && (comments == [] && !reviewed ==> "comments" !in out)
      && (comments != [] || reviewed ==>
            "comments" in out && out["comments"] == Comments(comments + (if reviewed then [ReviewComment(ctx, d)] else [])))
  {
    var d2, d3, d4 := StoryFieldsSteps(ctx, d, comments);
    GroupStateKeeps(ctx, d, "requester");
    GroupStateKeeps(ctx, d, "requested_by_id");
    GroupStateKeeps(ctx, d, "reviewers");
    GroupStateKeeps(ctx, d, "review_types");
    GroupStateKeeps(ctx, d, "review_states");
    ReviewCommentAgree(ctx, d2, d);
    PeopleReviewComment(ctx, d2, comments);
  }

  /** The iteration key of a story, in terms of the row it starts from. */
  lemma StoryFieldsIteration(ctx: Context, d: Row, comments: seq<Comment>)
    requires StoryFields(ctx, d, comments).Success?
    ensures IterationOf(d).Success? && StoryFields(ctx, d, comments).value.1 == IterationOf(d).value
  {
    var d2, d3, d4 := StoryFieldsSteps(ctx, d, comments);
    GroupStateKeeps(ctx, d, "pt_iteration_id");
    GroupStateKeeps(ctx, d, "pt_iteration_start_date");
    GroupStateKeeps(ctx, d, "pt_iteration_end_date");
    PeopleKeeps(ctx, d2, "pt_iteration_id");
    PeopleKeeps(ctx, d2, "pt_iteration_start_date");
    PeopleKeeps(ctx, d2, "pt_iteration_end_date");
    IterationAgree(d4, d);
  }

  /** Marking the row and turning a release into a chore touch only the labels and the type. */
  lemma MarkedKeeps(ctx: Context, row: Row, k: string)
    requires k != "labels" && k != "story_type"
    ensures AgreeAt(WithReleaseAsChore(WithMarkerLabels(ctx, row)), row, k)
  {
  }

  lemma MarkedFrame(ctx: Context, row: Row)
    ensures SameExcept(WithReleaseAsChore(WithMarkerLabels(ctx, row)), row, {"story_type", "labels"})
  {
    var d0 := WithMarkerLabels(ctx, row);
    WithMarkerLabelsFrame(ctx, row);
    WithReleaseAsChoreFrame(d0);
    SameExceptTrans(WithReleaseAsChore(d0), d0, row, {"story_type", "labels"}, {"labels"});
    assert {"story_type", "labels"} + {"labels"} == {"story_type", "labels"};
  }

  /** A story row's build is its story part, run on the marked row with the resolved comments. */
  lemma BuildStorySteps(ctx: Context, row: Row) returns (d1: Row, comments: seq<Comment>)
    requires Build(ctx, row).Success? && !IsEpicRow(row)
    ensures d1 == WithReleaseAsChore(WithMarkerLabels(ctx, row))
    ensures comments == ResolvedAuthors(ctx.userConfig, CommentsAt(row))
    ensures StoryFields(ctx, d1, comments).Success?
    ensures var story := StoryFields(ctx, d1, comments).value;
      Build(ctx, row).value == EntityRecord("story", Project(story.0, StoryKeys), story.1, TextAt(row, "pt_iteration_id"), story.0, None, None)
  {
    var d0 := WithMarkerLabels(ctx, row);
    assert AgreeAt(d0, row, "comments");
    assert CommentsAt(d0) == CommentsAt(row);
    MarkedKeeps(ctx, row, "pt_iteration_id");
    d1 := WithReleaseAsChore(d0);
    comments := ResolvedAuthors(ctx.userConfig, CommentsAt(row));
  }

  /**
   * `build_entity` raises exactly when the row has no type, or is a story
   * whose state or priority is not mapped or whose iteration is incomplete,
   * and it raises the first of these.
   */
  lemma BuildFailsOnFirstBadField(ctx: Context, row: Row)
    ensures Build(ctx, row).Failure? <==> BuildFailure(ctx, row).Some?
    ensures Build(ctx, row).Failure? ==> Build(ctx, row).error == BuildFailure(ctx, row).value
  {
    var d0 := WithMarkerLabels(ctx, row);
    assert AgreeAt(d0, row, "story_type");
    if "story_type" in row && !IsEpicRow(row) {
      assert AgreeAt(d0, row, "comments");
      var d1 := WithReleaseAsChore(d0);
      var comments := ResolvedAuthors(ctx.userConfig, CommentsAt(d0));
      StoryFieldsFailure(ctx, d1, comments);
      MarkedKeeps(ctx, row, "pt_state");
      MarkedKeeps(ctx, row, "priority");
      MarkedKeeps(ctx, row, "pt_iteration_id");
      MarkedKeeps(ctx, row, "pt_iteration_start_date");
      MarkedKeeps(ctx, row, "pt_iteration_end_date");
      StoryFailureAgree(ctx, d1, row);
    }
  }

  /** A built record has the row's kind, the row's source iteration id and no backend answer yet. */
  lemma BuildRecordShape(ctx: Context, row: Row)
    requires Build(ctx, row).Success?
    ensures var r := Build(ctx, row).value;
      && "story_type" in row
      && r.kind == (if IsEpicRow(row) then "epic" else "story")
      && r.ptIterationId == TextAt(row, "pt_iteration_id")
      && r.importedEntity.None? && r.errorMessage.None?
  {
    var d0 := WithMarkerLabels(ctx, row);
    assert AgreeAt(d0, row, "story_type");
    MarkedKeeps(ctx, row, "pt_iteration_id");
  }

  /** An epic row always builds: an epic record in the configured group, with no iteration. */
  lemma BuildEpic(ctx: Context, row: Row)
    requires IsEpicRow(row)
    ensures Build(ctx, row).Success?
    ensures var r := Build(ctx, row).value;
      var groupIds := Strs(if ctx.groupId.Some? then [ctx.groupId.value] else []);
      && r.kind == "epic" && r.iteration.None?
      && "group_ids" in r.parsedRow && r.parsedRow["group_ids"] == groupIds
      && "group_ids" in r.entity && r.entity["group_ids"] == groupIds
  {
    var d0 := WithMarkerLabels(ctx, row);
    assert AgreeAt(d0, row, "story_type");
  }

  /**
   * The labels of a built row: the row's own, the migration and run labels,
   * the release label for a release, and the review label for a story with
   * reviewers, in that order.
   */
  lemma BuildLabels(ctx: Context, row: Row)
    requires Build(ctx, row).Success?
    ensures LabelsAt(Build(ctx, row).value.parsedRow) ==
      LabelsAt(row) + [PivotalToShortcutLabel, ctx.runLabel]
      + (if IsReleaseRow(row) then [PivotalReleaseTypeLabel] else [])
      + (if !IsEpicRow(row) && StrsAt(row, "reviewers") != [] then [PivotalHadReviewLabel] else [])
  {
    var d0 := WithMarkerLabels(ctx, row);
    var d1 := WithReleaseAsChore(d0);
    assert AgreeAt(d0, row, "story_type");
    assert LabelsAt(d0) == LabelsAt(row) + [PivotalToShortcutLabel, ctx.runLabel];
    assert LabelsAt(d1) == LabelsAt(row) + [PivotalToShortcutLabel, ctx.runLabel]
      + (if IsReleaseRow(row) then [PivotalReleaseTypeLabel] else []);
    if IsEpicRow(row) {
      BuildEpic(ctx, row);
    } else {
      var d1', comments := BuildStorySteps(ctx, row);
      StoryFieldsLabels(ctx, d1, comments);
      MarkedKeeps(ctx, row, "reviewers");
    }
  }

  /** Every built payload carries the migration label and the label of this run. */
  lemma BuildMarksEntity(ctx: Context, row: Row)
    requires Build(ctx, row).Success?
    ensures var e := Build(ctx, row).value.entity;
      && "labels" in e && e["labels"].Labels?
      && PivotalToShortcutLabel in e["labels"].names && ctx.runLabel in e["labels"].names
  {
    BuildLabels(ctx, row);
    BuildPayloadIsAllowListed(ctx, row);
    var r := Build(ctx, row).value;
    var names := LabelsAt(r.parsedRow);
    assert names[|LabelsAt(row)|] == PivotalToShortcutLabel;
    assert names[|LabelsAt(row)| + 1] == ctx.runLabel;
    assert names != [];
  }

  /** The payload is the built row cut down to the keys the target tracker accepts for its kind. */
  lemma BuildPayloadIsAllowListed(ctx: Context, row: Row)
    requires Build(ctx, row).Success?
    ensures var r := Build(ctx, row).value;
      && r.entity.Keys == r.parsedRow.Keys * SelectKeys(r.kind)
      && forall k :: k in r.entity ==> r.entity[k] == r.parsedRow[k]
  {
    var r := Build(ctx, row).value;
    assert r.entity == Project(r.parsedRow, SelectKeys(r.kind));
    ProjectKeepsAllowed(r.parsedRow, SelectKeys(r.kind));
  }

  /** Every key the builder does not write keeps its parsed value. */
  lemma BuildKeepsOtherKeys(ctx: Context, row: Row)
    requires Build(ctx, row).Success?
    ensures SameExcept(Build(ctx, row).value.parsedRow, row, BuilderKeys)
  {
    var d1 := WithReleaseAsChore(WithMarkerLabels(ctx, row));
    MarkedFrame(ctx, row);
    var out := Build(ctx, row).value.parsedRow;
    if IsEpicRow(row) {
      BuildEpic(ctx, row);
      assert out == d1["group_ids" := out["group_ids"]];
      assert SameExcept(out, d1, {"group_ids"}) by {
        forall k | k !in {"group_ids"} ensures AgreeAt(out, d1, k) { assert Named(k); }
      }
      SameExceptTrans(out, d1, row, {"group_ids"}, {"story_type", "labels"});
      SameExceptWeaken(out, row, {"group_ids"} + {"story_type", "labels"}, BuilderKeys);
    } else {
      var d1', comments := BuildStorySteps(ctx, row);
      StoryFieldsFrame(ctx, d1, comments);
      SameExceptTrans(out, d1, row, StoryWrittenKeys, {"story_type", "labels"});
      SameExceptWeaken(out, row, StoryWrittenKeys + {"story_type", "labels"}, BuilderKeys);
    }
  }

  /** Group, workflow state and priority of a built story, in terms of the parsed row. */
  lemma BuildStoryState(ctx: Context, row: Row)
    requires Build(ctx, row).Success? && !IsEpicRow(row)
    ensures var out := Build(ctx, row).value.parsedRow;
      && "group_id" in out && out["group_id"] == GroupIdValue(ctx.groupId)
      && (TruthyAt(row, "pt_state") ==>
            && row["pt_state"].Str? && row["pt_state"].str in ctx.workflowConfig
            && "workflow_state_id" in out && out["workflow_state_id"] == NumOrNull(ctx.workflowConfig[row["pt_state"].str]))
      && (TruthyAt(row, "priority") ==>
            && row["priority"].Str? && row["priority"].str in ctx.priorityConfig
            && "custom_fields" in out
            && out["custom_fields"] == CustomFields([CustomField(ctx.priorityCustomFieldId, ctx.priorityConfig[row["priority"].str])]))
  {
    var d1, comments := BuildStorySteps(ctx, row);
    MarkedKeeps(ctx, row, "pt_state");
    MarkedKeeps(ctx, row, "priority");
    StoryFieldsGroup(ctx, d1, comments);
    StoryFieldsState(ctx, d1, comments);
    StoryFieldsPriority(ctx, d1, comments);
  }

  /** Tasks, requester, owners and followers of a built story, in terms of the parsed row. */
  lemma BuildStoryPeople(ctx: Context, row: Row)
    requires Build(ctx, row).Success? && !IsEpicRow(row)
    ensures var out := Build(ctx, row).value.parsedRow;
      var tasks := ZipTasks(StrsAt(row, "task_titles"), StrsAt(row, "task_states"));
      && (tasks != [] ==> "tasks" in out && out["tasks"] == Tasks(tasks))
      && ("requester" in row && ResolvedUser(ctx.userConfig, row["requester"]).Some? ==>
            "requested_by_id" in out && out["requested_by_id"] == Str(ResolvedUser(ctx.userConfig, row["requester"]).value))
      && (StrsAt(row, "owners") != [] ==>
            "owner_ids" in out && out["owner_ids"] == UserIds(KnownUserIds(ctx.userConfig, StrsAt(row, "owners"))))
      && (StrsAt(row, "reviewers") != [] ==>
            "follower_ids" in out && out["follower_ids"] == UserIds(KnownUserIds(ctx.userConfig, StrsAt(row, "reviewers"))))
  {
    var d1, comments := BuildStorySteps(ctx, row);
    MarkedKeeps(ctx, row, "task_titles");
    MarkedKeeps(ctx, row, "task_states");
    MarkedKeeps(ctx, row, "requester");
    MarkedKeeps(ctx, row, "owners");
    MarkedKeeps(ctx, row, "reviewers");
    StoryFieldsTasks(ctx, d1, comments);
    StoryFieldsRequester(ctx, d1, comments);
    StoryFieldsOwners(ctx, d1, comments);
    StoryFieldsFollowers(ctx, d1, comments);
  }

  /**
   * The comments of a built story: the row's comments with their authors
   * resolved, then the review table when the row had reviewers; a story left
   * with no comment has no `comments` key.
   */
  lemma BuildStoryComments(ctx: Context, row: Row)
    requires Build(ctx, row).Success? && !IsEpicRow(row)
    ensures var out := Build(ctx, row).value.parsedRow;
      var comments := ResolvedAuthors(ctx.userConfig, CommentsAt(row));
      var reviewed := StrsAt(row, "reviewers") != [];
      && (comments == [] && !reviewed ==> "comments" !in out)
      && (comments != [] || reviewed ==>
            "comments" in out && out["comments"] == Comments(comments + (if reviewed then [ReviewComment(ctx, row)] else [])))
  {
    var d1, comments := BuildStorySteps(ctx, row);
    StoryFieldsComments(ctx, d1, comments);
    MarkedKeeps(ctx, row, "requester");
    MarkedKeeps(ctx, row, "requested_by_id");
    MarkedKeeps(ctx, row, "reviewers");
    MarkedKeeps(ctx, row, "review_types");
    MarkedKeeps(ctx, row, "review_states");
    ReviewCommentAgree(ctx, d1, row);
  }

  /** A built story's iteration key is the one its parsed row names. */
  lemma BuildStoryIteration(ctx: Context, row: Row)
    requires Build(ctx, row).Success? && !IsEpicRow(row)
    ensures IterationOf(row).Success? && Build(ctx, row).value.iteration == IterationOf(row).value
  {
    var d1, comments := BuildStorySteps(ctx, row);
    StoryFieldsIteration(ctx, d1, comments);
    MarkedKeeps(ctx, row, "pt_iteration_id");
    MarkedKeeps(ctx, row, "pt_iteration_start_date");
    MarkedKeeps(ctx, row, "pt_iteration_end_date");
    IterationAgree(d1, row);
  }

  /** A member of the target workspace. */
  datatype Member = Member(email: string, id: UserId)

  /** `{m.email: m.id for m in members}`: one entry per member email. */
  function EmailToId(members: seq<Member>): (m: map<string, UserId>)
    ensures m.Keys == set i | 0 <= i < |members| :: members[i].email
  {
    if members == [] then map[]
    else
      var last := members[|members| - 1];
      var init := members[..|members| - 1];
      assert forall i :: 0 <= i < |init| ==> init[i] == members[i];
      EmailToId(init)[last.email := last.id]
  }

  /** A later member with the same email overwrites an earlier one. */
  lemma {:induction false} EmailToIdLastWins(members: seq<Member>, j: nat)
    requires j < |members|
    requires forall k :: j < k < |members| ==> members[k].email != members[j].email
    ensures EmailToId(members)[members[j].email] == members[j].id
  {
    if j < |members| - 1 {
      var init := members[..|members| - 1];
      assert init[j] == members[j];
      EmailToIdLastWins(init, j);
    }
  }

  /** Member `i` is the last member with the email. */
  predicate LastWithEmail(members: seq<Member>, i: int, email: string) {
    0 <= i < |members| && members[i].email == email && forall k :: i < k < |members| ==> members[k].email != email
  }

  /** A mapped email maps to the id of the last member with that email. */
  lemma {:induction false} EmailToIdLast(members: seq<Member>, email: string)
    requires email in EmailToId(members)
    ensures exists i :: LastWithEmail(members, i, email) && EmailToId(members)[email] == members[i].id
  {
    var last := members[|members| - 1];
    var init := members[..|members| - 1];
    assert EmailToId(members) == EmailToId(init)[last.email := last.id];
    if last.email == email {
      assert LastWithEmail(members, |members| - 1, email);
    } else {
      EmailToIdLast(init, email);
      var i :| LastWithEmail(init, i, email) && EmailToId(init)[email] == init[i].id;
      assert LastWithEmail(members, i, email);
    }
  }

  /**
   * `load_users`: the source user names whose mapped email is non-empty, each
   * to the id of the member with that email, or null when no member has it.
   */
  function LoadUsers(members: seq<Member>, userToEmail: map<string, Option<string>>): (users: map<string, Option<UserId>>)
    ensures forall u :: u in users <==> u in userToEmail && userToEmail[u].Some? && userToEmail[u].value != ""
    ensures forall u :: u in users ==>
      (users[u].Some? <==> exists i :: 0 <= i < |members| && members[i].email == userToEmail[u].value)
    ensures forall u :: u in users && users[u].Some? ==>
      && users[u].value == EmailToId(members)[userToEmail[u].value]
      && exists i :: LastWithEmail(members, i, userToEmail[u].value) && users[u].value == members[i].id
  {
    var emailToId := EmailToId(members);
    forall e | e in emailToId
      ensures exists i :: LastWithEmail(members, i, e) && emailToId[e] == members[i].id
    {
      EmailToIdLast(members, e);
    }
    map u | u in userToEmail && userToEmail[u].Some? && userToEmail[u].value != "" ::
      if userToEmail[u].value in emailToId then Some(emailToId[userToEmail[u].value]) else None
  }
}
