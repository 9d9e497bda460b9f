# pivotal-import, modelled in Dafny

This project models the core of `pivotal-import`, a set of scripts that moves a
Pivotal Tracker export into Shortcut. Four parts are modelled:

- **The entity builder.** It turns one parsed export row into a typed record:
  - the marker labels are added;
  - a release becomes a chore;
  - users are resolved through the user map;
  - tasks are zipped from the title and state lists;
  - the review table is written as a Markdown comment;
  - priority and workflow state are mapped;
  - an `id|start|end` iteration key is produced;
  - the payload is cut down to the allow-list of its type.
- **The entity collector.** It buckets the records by type. Its `commit` hands them to an emitter in the order labels, epics, iterations, stories. Stories go in batches of 100. Each batch is linked to the epics and iterations created before it, and its attachments are uploaded and linked into the comment text. Outside a dry run, the story loop never writes a story id to the imported-entities ledger twice. Label rows are written unfiltered. Epic and iteration rows are filtered against the pairs written before their phase, so equal pairs within one answer are all written. The emitter is either:
  - the dry-run allocator, which hands out ids 0, 1, 2, …;
  - the live creator, whose answers are a parameter here.

  The bulk-then-one-by-one `create_stories` is modelled alongside.
- **The deletion tool.** It reads the ledger and deduplicates its rows. It deletes them in reverse dependency order (files, stories, iterations, epics, labels), counting a 404 as already deleted. It then rewrites the ledger without exactly the rows it deleted.
- **The external-id comment tools.** They keep a CSV with one row per imported story:
  - adding the "Pivotal Tracker Id" comment moves a fresh row to `"True"` or `"False"`;
  - deleting the comment moves a `"True"` row back to fresh.

Everything that talks to Shortcut, the file system or the clock is a parameter:
- the bulk and single story endpoints;
- the upload service;
- the delete and comment requests;
- the directory listing of exported files;
- the run label's timestamp.

Files, the ledger and the CSVs are in-memory sequences of rows.

Modules:
- `common.dfy`: `Option`, `Result` and sequence helpers.
- `values.dfy`: rows, values, records, ledger rows.
- `decimal.dfy`: `str(n)` for ids.
- `markdown.dfy`: the table-cell escape.
- `entity_builder.dfy`: `build_entity`, `load_users`.
- `linking.dfy`: the epic and iteration maps and the iteration key.
- `emitter.dfy`: the dry-run and live emitter.
- `creation.dfy`: `create_stories`.
- `attachments.dfy`: `process_files_for_stories`, `clean_story`.
- `collector.dfy`: `EntityCollector`.
- `deletion.dfy`: `delete_imported_entities.py`.
- `comment_ledger.dfy`: `add_external_id_comment.py`, `delete_comments.py`.

Two behaviours of the code are worth knowing before reading the model:
- **The ledger is not append-only.** `commit` writes the labels with mode `'w'` (pivotal_import.py:485), so a non-empty label answer starts the ledger afresh. `Collector.EntityCollector.CommitLabels` and `Collector.EntityCollector.Commit` state that.
- **The dry-run emitter can fail.** It reads `item["entity"]["name"]` after it has already used up the id, so a record without a name raises `KeyError`, and the next id is one past that record. `Emitter.Emitter.Emit` states that.

## Model

| member | source | states |
|---|---|---|
| Markdown.EscapeMdTableSyntax | pivotal-import/pivotal_import.py:155-156 | the escaped cell is one character longer per pipe in the cell |
| Markdown.EscapedPipesArePreceded | pivotal-import/pivotal_import.py:155-156 | no pipe in an escaped cell stands without a backslash right before it |
| Markdown.UnescapeEscape | pivotal-import/pivotal_import.py:155-156 | escaping loses nothing: reading each backslash-pipe back as a pipe recovers the cell |
| Markdown.EscapeKeepsPipeFree | pivotal-import/pivotal_import.py:155-156 | a cell without pipes is left as it is |
| Decimal.DecimalString | pivotal-import/pivotal_import.py:773 | `str(id)` is a non-empty string of digits, at least two long from 10 on |
| Decimal.ParseDecimalString | pivotal-import/pivotal_import.py:773 | reading back the text of an id gives the id |
| Decimal.DecimalStringInjective | pivotal-import/pivotal_import.py:773 | distinct ids are written as distinct text |
| Values.LedgerRowOfInjective | pivotal-import/pivotal_import.py:771-774 | two created entities with the same ledger row have the same type and id |
| EntityBuilder.RunLabel | pivotal-import/pivotal_import.py:29-31 | the run label extends the migration label and always differs from it |
| EntityBuilder.BuildRunLabelEntity | pivotal-import/pivotal_import.py:159-160 | the run label's record is a label whose payload holds only its name |
| EntityBuilder.ProjectKeepsAllowed | pivotal-import/pivotal_import.py:300 | the projection keeps exactly the allowed keys of the row, with the row's values |
| EntityBuilder.KnownUserIdsMembers | pivotal-import/pivotal_import.py:228-243 | `KnownUserIds`: an id is kept exactly when some listed name is in the user map and maps to it |
| EntityBuilder.KnownUserIdsAppend | pivotal-import/pivotal_import.py:228-243 | the filter distributes over concatenation, so input order is kept |
| EntityBuilder.ResolvedUser | pivotal-import/pivotal_import.py:219-226 | a user resolves exactly when the map holds a non-empty id for the name, and to that id |
| EntityBuilder.ResolvedAuthor | pivotal-import/pivotal_import.py:181-189 | a copied comment loses its author name; it takes the author's id only when the author resolves, else keeps its own |
| EntityBuilder.ResolveCommentAuthors | pivotal-import/pivotal_import.py:180-189 | the comment loop resolves every comment's author, in order |
| EntityBuilder.ZipTasks | pivotal-import/pivotal_import.py:209-214 | there are as many tasks as zipped (title, state) pairs |
| EntityBuilder.ZipTasksPairs | pivotal-import/pivotal_import.py:209-214 | task `i` has title `i` and is complete exactly when state `i` is `"completed"` |
| EntityBuilder.ReviewCommentText | pivotal-import/pivotal_import.py:247-257 | the review-table loop yields the prefix followed by one escaped row per zipped triple |
| Common.LineBreaksAppend | pivotal-import/pivotal_import.py:257 | line breaks of a concatenation add up |
| EntityBuilder.EscapeKeepsLineBreaks | pivotal-import/pivotal_import.py:254-256 | escaping a cell adds no line break |
| EntityBuilder.ReviewRowLineBreaks | pivotal-import/pivotal_import.py:257 | one table row holds exactly one line break when its cells hold none |
| EntityBuilder.ReviewTableLines | pivotal-import/pivotal_import.py:247-257 | the table has one line per zipped (reviewer, type, status) triple, whatever pipes the cells hold |
| EntityBuilder.WithMarkerLabels | pivotal-import/pivotal_import.py:166-168 | the labels become the row's own labels followed by the migration label and the run label |
| EntityBuilder.WithReleaseAsChore | pivotal-import/pivotal_import.py:194-196 | a release becomes a chore and gains the release label; any other row is unchanged |
| EntityBuilder.WithWorkflowState | pivotal-import/pivotal_import.py:204-206 | an unmapped truthy state raises, a mapped one sets the configured workflow-state id |
| EntityBuilder.WithTasks | pivotal-import/pivotal_import.py:209-216 | non-empty zipped tasks are stored under `tasks` |
| EntityBuilder.WithRequester | pivotal-import/pivotal_import.py:219-226 | a resolving requester sets `requested_by_id`; otherwise the row is unchanged |
| EntityBuilder.WithOwners | pivotal-import/pivotal_import.py:228-235 | listed owners set `owner_ids` to the ids of the owners the user map knows, in order |
| EntityBuilder.WithReviewers | pivotal-import/pivotal_import.py:237-244 | listed reviewers set `follower_ids` to the known reviewers' ids and append the review label; none leaves the row unchanged |
| EntityBuilder.WithPriority | pivotal-import/pivotal_import.py:262-275 | an unmapped truthy priority raises, a mapped one sets the single priority custom field |
| EntityBuilder.IterationOf | pivotal-import/pivotal_import.py:277-285 | a truthy iteration id yields id, start and end joined by pipes; a missing date raises, no id yields none |
| EntityBuilder.WithComments | pivotal-import/pivotal_import.py:290-293 | non-empty comments are stored; none at all removes the key |
| EntityBuilder.PeopleFrame | pivotal-import/pivotal_import.py:208-244 | the people step writes only tasks, requester, owners, followers and labels |
| EntityBuilder.PeopleKeeps | pivotal-import/pivotal_import.py:208-244 | every other key keeps its value through the people step |
| EntityBuilder.PeopleTasks | pivotal-import/pivotal_import.py:208-216 | the people step sets the zipped tasks |
| EntityBuilder.PeopleRequester | pivotal-import/pivotal_import.py:219-226 | the people step sets the resolved requester |
| EntityBuilder.PeopleOwners | pivotal-import/pivotal_import.py:228-235 | the people step sets the known owners' ids |
| EntityBuilder.PeopleFollowersAndLabels | pivotal-import/pivotal_import.py:237-244 | the people step sets the known reviewers' ids and the review label |
| EntityBuilder.AddTasks | pivotal-import/pivotal_import.py:208-216 | the tasks step of the in-place update agrees with `WithTasks` |
| EntityBuilder.AddRequester | pivotal-import/pivotal_import.py:219-226 | the requester step agrees with `WithRequester` |
| EntityBuilder.AddOwners | pivotal-import/pivotal_import.py:228-235 | the owners step agrees with `WithOwners` |
| EntityBuilder.AddReviewers | pivotal-import/pivotal_import.py:237-244 | the reviewers step agrees with `WithReviewers` |
| EntityBuilder.AddPeople | pivotal-import/pivotal_import.py:208-260 | the people steps and the review comment agree with `People` and `WithReviewComment` |
| EntityBuilder.AddWorkflowState | pivotal-import/pivotal_import.py:204-206 | the state step agrees with `WithWorkflowState`, including its failure |
| EntityBuilder.AddPriority | pivotal-import/pivotal_import.py:262-275 | the priority step agrees with `WithPriority`, including its failure |
| EntityBuilder.IterationKeyOf | pivotal-import/pivotal_import.py:277-285 | the iteration step agrees with `IterationOf` |
| EntityBuilder.AddStoryFields | pivotal-import/pivotal_import.py:200-293 | the story part of the in-place update agrees with its functional reading |
| EntityBuilder.BuildEntity | pivotal-import/pivotal_import.py:163-307 | the step-by-step update of the row, then its projection, agrees with `Build` |
| EntityBuilder.StoryFailureAgree | pivotal-import/pivotal_import.py:204-285 | the story checks read only the state, priority and iteration keys |
| EntityBuilder.GroupStateKeeps | pivotal-import/pivotal_import.py:202-206 | grouping and state mapping leave every other key as it is |
| EntityBuilder.PriorityCommentsKeep | pivotal-import/pivotal_import.py:262-293 | priority mapping and setting the comments leave every other key as it is |
| EntityBuilder.IterationAgree | pivotal-import/pivotal_import.py:277-285 | the iteration key depends only on the three iteration keys |
| EntityBuilder.StoryFieldsSteps | pivotal-import/pivotal_import.py:200-293 | a successful story part goes through grouping, people, priority, then comments |
| EntityBuilder.StoryFieldsFailure | pivotal-import/pivotal_import.py:200-293 | the story part raises exactly the first failing check, in source order |
| EntityBuilder.StoryFieldsFrame | pivotal-import/pivotal_import.py:200-293 | the story part writes only its own keys |
| EntityBuilder.StoryFieldsGroup | pivotal-import/pivotal_import.py:202 | a story is placed in the configured group, or in none |
| EntityBuilder.StoryFieldsState | pivotal-import/pivotal_import.py:204-206 | a story with a state gets the mapped workflow state |
| EntityBuilder.StoryFieldsPriority | pivotal-import/pivotal_import.py:265-275 | a story with a priority gets the mapped priority field |
| EntityBuilder.StoryFieldsTasks | pivotal-import/pivotal_import.py:209-216 | a story gets one task per zipped title and state |
| EntityBuilder.StoryFieldsRequester | pivotal-import/pivotal_import.py:219-226 | a story whose requester resolves gets the requester's id |
| EntityBuilder.StoryFieldsOwners | pivotal-import/pivotal_import.py:228-235 | a story with owners gets the known owners' ids |
| EntityBuilder.StoryFieldsFollowers | pivotal-import/pivotal_import.py:237-243 | a story with reviewers gets the known reviewers' ids as followers |
| EntityBuilder.StoryFieldsLabels | pivotal-import/pivotal_import.py:244 | story labels are the row's own, then the review label when it had reviewers |
| EntityBuilder.StoryFieldsComments | pivotal-import/pivotal_import.py:247-293 | story comments are the given ones, then the review table when reviewed; none removes the key |
| EntityBuilder.StoryFieldsIteration | pivotal-import/pivotal_import.py:277-285 | the story's iteration key is the one its row names |
| EntityBuilder.ReviewCommentAgree | pivotal-import/pivotal_import.py:247-260 | the review comment reads only the requester and review keys |
| EntityBuilder.PeopleReviewComment | pivotal-import/pivotal_import.py:247-260 | the review comment is attributed to the resolved requester, else to the row's requester id |
| EntityBuilder.MarkedKeeps | pivotal-import/pivotal_import.py:166-196 | marking the row and turning a release into a chore touch only labels and type |
| EntityBuilder.MarkedFrame | pivotal-import/pivotal_import.py:166-196 | the marked row differs from the parsed one only in labels and type |
| EntityBuilder.BuildStorySteps | pivotal-import/pivotal_import.py:163-307 | a story's build is its story part on the marked row with the resolved comments |
| EntityBuilder.BuildFailsOnFirstBadField | pivotal-import/pivotal_import.py:163-307 | the build raises exactly when the type is missing or a story has an unmapped state or priority or an incomplete iteration, and it raises the first such failure |
| EntityBuilder.BuildRecordShape | pivotal-import/pivotal_import.py:174-177 | the record is an epic exactly for an epic row, else a story; it carries the row's iteration id and no answer yet |
| EntityBuilder.BuildEpic | pivotal-import/pivotal_import.py:295-298 | an epic always builds; its `group_ids` is `[group]`, or `[]` without a group, and it has no iteration |
| EntityBuilder.BuildLabels | pivotal-import/pivotal_import.py:166-244 | labels are the row's own, then the migration and run labels, then the release label for a release, then the review label for a reviewed story |
| EntityBuilder.BuildMarksEntity | pivotal-import/pivotal_import.py:166-168 | every built payload carries the migration label and the run label |
| EntityBuilder.BuildPayloadIsAllowListed | pivotal-import/pivotal_import.py:116-145 | the payload is the built row cut to its type's allow-list, with the row's values |
| EntityBuilder.BuildKeepsOtherKeys | pivotal-import/pivotal_import.py:163-307 | every key the builder does not write keeps its parsed value |
| EntityBuilder.BuildStoryState | pivotal-import/pivotal_import.py:200-275 | a built story has the configured group, mapped state and mapped priority |
| EntityBuilder.BuildStoryPeople | pivotal-import/pivotal_import.py:208-243 | a built story has the zipped tasks, resolved requester and known owners' and reviewers' ids |
| EntityBuilder.BuildStoryComments | pivotal-import/pivotal_import.py:180-293 | a built story's comments are the row's, with authors resolved, then the review table; none removes the key |
| EntityBuilder.BuildStoryIteration | pivotal-import/pivotal_import.py:277-285 | a built story's iteration key is the one its row names |
| EntityBuilder.EmailToId | pivotal-import/pivotal_import.py:331 | the email map has one key per member email |
| EntityBuilder.EmailToIdLastWins | pivotal-import/pivotal_import.py:331 | a later member with the same email overwrites an earlier one |
| EntityBuilder.EmailToIdLast | pivotal-import/pivotal_import.py:331 | a member email maps to the id of the last member with that email |
| EntityBuilder.LoadUsers | pivotal-import/pivotal_import.py:329-337 | a user is mapped exactly when its email is non-empty; it maps to an id exactly when some member has that email, and then to the id of the last such member |
| Linking.LabelEntriesAppend | pivotal-import/pivotal_import.py:378-384 | one more label adds its entry unless it is a marker |
| Linking.EpicLabelMapKeys | pivotal-import/pivotal_import.py:372-385 | a label is mapped exactly when it is not a marker and some epic carries it |
| Linking.EpicLabelMapLastWins | pivotal-import/pivotal_import.py:372-385 | a label maps to the id of the last epic carrying it |
| Linking.CollectEpicLabelMapping | pivotal-import/pivotal_import.py:372-385 | the nested loop builds the epic label map |
| Linking.AddEpicLabels | pivotal-import/pivotal_import.py:378-384 | the inner loop writes one epic's non-marker labels into the map |
| Linking.LastMappedMeaning | pivotal-import/pivotal_import.py:394-399 | no label is mapped exactly when none is found; otherwise the id belongs to the last mapped label |
| Linking.LinkEpicFrame | pivotal-import/pivotal_import.py:394-399 | linking touches only the payload's `epic_id`, and leaves a story with no mapped label as it is |
| Linking.AssignStoriesToEpics | pivotal-import/pivotal_import.py:388-400 | every story is linked through the epic label map, in order |
| Linking.PtIterationMapLookup | pivotal-import/pivotal_import.py:403-412 | a source iteration id is mapped exactly when some iteration has it, to the last such |
| Linking.CollectPtIterationMapping | pivotal-import/pivotal_import.py:403-412 | the loop builds the source-to-created iteration map |
| Linking.LinkIterationMeaning | pivotal-import/pivotal_import.py:420-424 | a story without an iteration is unchanged, a known one is linked on `iteration_id` only, an unknown one raises |
| Linking.AssignStoriesToIterations | pivotal-import/pivotal_import.py:415-425 | every story is linked in order, or the first unknown iteration raises |
| Linking.SplitPipesJoin | pivotal-import/pivotal_import.py:511 | `SplitPipes`: splitting `a`, a pipe, then `b`, with `a` pipe-free, gives `a`, then the parts of `b` |
| Linking.SplitPipesSingle | pivotal-import/pivotal_import.py:511 | a pipe-free text splits into itself |
| Linking.IterationKeyRoundTrip | pivotal-import/pivotal_import.py:285 | the iteration key splits back into the id and two dates it was joined from |
| Linking.IterationRecord | pivotal-import/pivotal_import.py:510-523 | a three-part key becomes an iteration named `"PT " + id` with its dates; any other key raises |
| Linking.IterationRecordOfKey | pivotal-import/pivotal_import.py:509-524 | the key of a story's iteration becomes the iteration that story is later linked to |
| Emitter.Stamped | pivotal-import/pivotal_import.py:354-367 | the dry run returns one record per item |
| Emitter.FirstNameless | pivotal-import/pivotal_import.py:364 | the first record without a `name`, where the dry run raises |
| Emitter.StampedIds | pivotal-import/pivotal_import.py:354-367 | a stamped record is the item plus its created entity (payload, id `base + i`, type, URL); ledger rows of stamps are pairwise distinct |
| Emitter.Outcome | pivotal-import/pivotal_import.py:345-369 | the dry run succeeds exactly when every record has a name, the live creator exactly when its call succeeds; every answered record carries its entity |
| Emitter.Emitter.constructor | pivotal-import/pivotal_import.py:345-346 | a fresh emitter counts from 0 |
| Emitter.Emitter.Emit | pivotal-import/pivotal_import.py:345-369 | the dry run stamps ids `nextId`, `nextId + 1`, … across calls, or raises after the nameless record has used its id; the live creator is called once |
| Emitter.Emitter.MockEmit | pivotal-import/pivotal_import.py:354-367 | the dry-run loop stamps consecutive ids and fails exactly at the first nameless record |
| Creation.Payloads | pivotal-import/pivotal_import.py:84 | one payload per story |
| Creation.Zipped | pivotal-import/pivotal_import.py:88-90 | the zipped stories are as many as the shorter list |
| Creation.OneByOneSplits | pivotal-import/pivotal_import.py:96-103 | every story lands in exactly one list: created with its entity, or failed with its error |
| Creation.CreateStories | pivotal-import/pivotal_import.py:79-110 | a bulk answer is zipped with the stories and nothing fails; a bulk exception sends each story alone, in order |
| Creation.BulkCreatesAll | pivotal-import/pivotal_import.py:88-90 | an answer with one entity per story creates every story with its own entity; a shorter one drops the rest |
| Attachments.PresentAttachments | pivotal-import/pivotal_import.py:698-702 | the attachments kept are exactly those whose file was exported |
| Attachments.UploadFiles | pivotal-import/pivotal_import.py:704-715 | the dry run stores every file under a mock URL and writes nothing; a live upload writes one ledger row per stored file |
| Attachments.LinkText | pivotal-import/pivotal_import.py:731-733 | a link starts with `!` exactly for an image |
| Attachments.LinkTextsAsWritten | pivotal-import/pivotal_import.py:727-734 | the source pairs the k-th stored file with the k-th attachment |
| Attachments.LinkTexts | pivotal-import/pivotal_import.py:727-734 | the corrected pairing: the k-th stored file with the k-th found attachment |
| Attachments.AsWrittenMislabelsImage | pivotal-import/pivotal_import.py:727-734 | counterexample: the source links an image as a plain link when an earlier attachment is missing |
| Attachments.LinksMatchOwnAttachment | pivotal-import/pivotal_import.py:698-734 | with the corrected pairing, each link uses its own attachment's content type |
| Attachments.DryRunLinksInOrder | pivotal-import/pivotal_import.py:705-710 | the dry run's stored files come back in the order of the found attachments |
| Attachments.WithLinks | pivotal-import/pivotal_import.py:737-738 | without links the text is unchanged; otherwise the old text is kept as a prefix, followed by a blank line, and the result ends with a line break; when no link holds a line break, the added part holds exactly one line break per link plus two |
| Attachments.LinkBlockLines | pivotal-import/pivotal_import.py:738 | the block added for links, whose parts hold no line break, holds two line breaks more than there are links |
| Attachments.ProcessCommentFrame | pivotal-import/pivotal_import.py:689-741 | `ProcessComment`: a processed comment keeps its author and starts with its old text; its attachments are gone; it gains text only when nothing failed |
| Attachments.ProcessComments | pivotal-import/pivotal_import.py:689-741 | the comment loop keeps the number of comments and each comment's author, and only appends to each text; with no failure every comment is processed |
| Attachments.DryRunCommentsNeverFail | pivotal-import/pivotal_import.py:705-710 | a dry run never fails and writes nothing |
| Attachments.ProcessCommentsAt | pivotal-import/pivotal_import.py:689-741 | the loop reaches a comment when nothing before failed; a failing comment stops it, leaving later comments as they were |
| Attachments.ProcessCommentsNoFailure | pivotal-import/pivotal_import.py:718-724 | when no failure is reported, no comment failed |
| Attachments.ProcessStoryFrame | pivotal-import/pivotal_import.py:670-747 | `ProcessStory`: a story changes only its comments (same number) and, on failure, its error; with exported files its comments are the comment loop's, and when no upload failed every comment has lost its attachments; the error message lists the failed file names, and each failed-files row pairs the story's id with one of them, in order; without exported files it is unchanged |
| Attachments.CombineSplits | pivotal-import/pivotal_import.py:743-747 | `Combine`: the stories to create are exactly those without a failed upload; the others fail |
| Attachments.ProcessFilesForStories | pivotal-import/pivotal_import.py:655-756 | every story of the batch is processed in order, or the first missing `external_id` raises |
| Attachments.CleanStory | pivotal-import/pivotal_import.py:810-814 | only the comments change, each losing its attachments |
| Collector.BatchesPartition | pivotal-import/pivotal_import.py:537-538 | the batches are non-empty, at most 100 long, `ceil(n/100)` of them, and join back to the stories in order |
| Collector.BatchSlice | pivotal-import/pivotal_import.py:537-538 | batch `j` is the slice from `j*BATCH_SIZE` up to `(j+1)*BATCH_SIZE`, cut at the end of the list |
| Collector.NextBatch | pivotal-import/pivotal_import.py:537-538 | the batches from a position are the batch there followed by the batches from the next position |
| Collector.TagKeysTagged | pivotal-import/pivotal_import.py:486 | every recorded pair carries its phase's type |
| Collector.ImportedOf | pivotal-import/pivotal_import.py:484 | one created entity per record |
| Collector.LedgerRows | pivotal-import/pivotal_import.py:759-779 | one ledger row per entity |
| Collector.TagKeysAppend | pivotal-import/pivotal_import.py:486 | one more entity adds its `(type, id)` pair |
| Collector.TagKeysConcat | pivotal-import/pivotal_import.py:486 | the pairs of two runs of entities are the pairs of each |
| Collector.UnwrittenMeaning | pivotal-import/pivotal_import.py:500-501 | the filter keeps exactly the entities whose pair is not written, and all of them when nothing of the type is |
| Collector.FreshEntitiesDistinct | pivotal-import/pivotal_import.py:552-556 | the kept stories have pairwise distinct ids, none already written |
| Collector.FreshEntitiesComplete | pivotal-import/pivotal_import.py:552-556 | every story whose pair was not written has its id among those kept |
| Collector.FreshEntitiesAt | pivotal-import/pivotal_import.py:552-556 | the filter looks at the story at its position first |
| Collector.KeepFresh | pivotal-import/pivotal_import.py:551-556 | the loop keeps the first story of each unwritten pair and records the pair |
| Collector.Linked | pivotal-import/pivotal_import.py:542-543 | the batch is linked to epics, then to iterations, or raises |
| Collector.LinkBatch | pivotal-import/pivotal_import.py:542-543 | the two linking calls agree with `Linked` |
| Collector.CombineQuiet | pivotal-import/pivotal_import.py:743-754 | unchanged stories that wrote nothing leave nothing failed or written |
| Collector.DryRunPreparedQuiet | pivotal-import/pivotal_import.py:705-710 | in a dry run, file processing fails no story and writes nothing |
| Collector.DistinctIdsConcat | pivotal-import/pivotal_import.py:554-556 | runs with distinct ids, none of the second written by the first, join to distinct ids |
| Collector.StoryLoopStopsIff | pivotal-import/pivotal_import.py:537-545 | `StoryLoop`: the story loop raises exactly when some batch fails to link or to process its files |
| Collector.BatchExtends | pivotal-import/pivotal_import.py:538-564 | one batch only appends to the ledger, the failed rows, the returned entities and the written pairs |
| Collector.StoryLoopExtends | pivotal-import/pivotal_import.py:537-564 | the whole story loop only appends, including when a batch raises |
| Collector.BatchEmitterRaises | pivotal-import/pivotal_import.py:461-474 | `BatchOutcome`: a batch the emitter raises on returns nothing and writes no story, its stories join the failed ones, and only its uploaded files reach the ledger |
| Collector.BatchWritesReported | pivotal-import/pivotal_import.py:549-560 | `BatchOutcome`: outside a dry run a batch writes its uploaded files, then exactly the stories it returns; these are created and unwritten, and every created unwritten story id is among them |
| Collector.BatchWritesOnce | pivotal-import/pivotal_import.py:549-556 | one batch keeps the returned story ids distinct, new, and recorded as written |
| Collector.StoryLoopWritesOnce | pivotal-import/pivotal_import.py:537-561 | outside a dry run the whole loop writes no story id twice and none written before it |
| Collector.StoryLoopDryRun | pivotal-import/pivotal_import.py:562-564 | a dry run leaves the ledger, the failed files and the written pairs unchanged, and never calls the live creator |
| Collector.EntityCollector.constructor | pivotal-import/pivotal_import.py:436-445 | the collector starts with empty buckets |
| Collector.EntityCollector.Collect | pivotal-import/pivotal_import.py:447-459 | a story, epic or label joins its bucket and is counted once; a story's iteration key joins the set; any other type raises |
| Collector.EntityCollector.PrepareFiles | pivotal-import/pivotal_import.py:655-756 | file processing writes uploaded files to the ledger and, outside a dry run, the failures to their files |
| Collector.EntityCollector.ProcessStoryBatch | pivotal-import/pivotal_import.py:461-474 | the processed stories go to the emitter; on an exception they are recorded as failed and the batch yields nothing |
| Collector.EntityCollector.CommitLabels | pivotal-import/pivotal_import.py:480-493 | labels are replaced by the emitter's answer; outside a dry run a non-empty answer restarts the ledger with their rows |
| Collector.EntityCollector.AppendUnwritten | pivotal-import/pivotal_import.py:500-504 | only unwritten entities are appended, and their pairs recorded |
| Collector.EntityCollector.CommitEpics | pivotal-import/pivotal_import.py:495-506 | epics are replaced by the emitter's answer; outside a dry run the unwritten ones are appended |
| Collector.EntityCollector.BuildIterationRecords | pivotal-import/pivotal_import.py:509-523 | one iteration record per key, or the error of a key that does not split in three |
| Collector.EntityCollector.CommitIterations | pivotal-import/pivotal_import.py:508-533 | the iterations are the emitter's answer for the built records; outside a dry run the unwritten ones are appended |
| Collector.EntityCollector.CommitBatch | pivotal-import/pivotal_import.py:538-564 | the batch's result, ledger, failed rows and emitter counters are those of `BatchOutcome`, whose meaning the `Batch*` lemmas state; a batch that raises changes none of them |
| Collector.EntityCollector.CommitStories | pivotal-import/pivotal_import.py:535-564 | the loop's result, ledger, failed rows and emitter counters are those of `StoryLoop` over the batches of 100, whose meaning the `StoryLoop*` lemmas state |
| Collector.EntityCollector.CommitLabelsAndEpics | pivotal-import/pivotal_import.py:480-506 | the label and epic entities in order; the ledger holds the label rows, or its old rows when there are none, then the epic rows; only label and epic pairs are recorded; the emitter counters advance one id per entity, or one call per phase |
| Collector.EntityCollector.CommitEntities | pivotal-import/pivotal_import.py:480-533 | as above, with the iterations appended; no story pair is recorded yet and the failed rows are untouched |
| Collector.EntityCollector.Commit | pivotal-import/pivotal_import.py:476-567 | labels, epics, iterations, then the story loop from the state they leave; it returns their entities in that order; the files and counters end as the loop leaves them; outside a dry run no story id is written twice |
| Deletion.DeleteEntityMeaning | pivotal-import/delete_imported_entities.py:20-63 | `DeleteEntity`: a known type sends one request to its prefix plus id; it counts as deleted exactly on 204 or HTTP 404; it stops the run exactly on an HTTP error without a response |
| Deletion.UnknownTypeSendsNothing | pivotal-import/delete_imported_entities.py:22-32 | an unknown type fails whatever the server would answer |
| Deletion.Rank | pivotal-import/delete_imported_entities.py:120 | ranks are at most 5, and 0 exactly for an unknown type |
| Deletion.Distinct | pivotal-import/delete_imported_entities.py:124-127 | the deduplicated set holds exactly the ledger's rows |
| Deletion.SortByRank | pivotal-import/delete_imported_entities.py:130-131 | every distinct row exactly once, ranks non-decreasing |
| Deletion.AppendRank | pivotal-import/delete_imported_entities.py:130-131 | appending one rank's rows keeps the order sorted and duplicate-free |
| Deletion.CountOfTypePositive | pivotal-import/delete_imported_entities.py:136 | a type is counted exactly when some row has it |
| Deletion.CountOfTypeDistinct | pivotal-import/delete_imported_entities.py:136 | over distinct rows, a type's count is its number of distinct rows |
| Deletion.TypeCountsMeaning | pivotal-import/delete_imported_entities.py:136-144 | the counter holds exactly the present types, each with its row count |
| Deletion.DistinctTypeCounts | pivotal-import/delete_imported_entities.py:136-151 | the dry-run report counts each type once per distinct ledger row |
| Deletion.RemainingMembers | pivotal-import/delete_imported_entities.py:79-82 | a row stays exactly when it was not deleted |
| Deletion.RemainingNothingDeleted | pivotal-import/delete_imported_entities.py:79-82 | with nothing deleted the ledger is rewritten as it was |
| Deletion.UpdateCsvAfterDeletion | pivotal-import/delete_imported_entities.py:66-92 | the rows not deleted, in order; unchanged for no deletion |
| Deletion.SucceededInOrderMembers | pivotal-import/delete_imported_entities.py:141-145 | a row is among the successes exactly when its attempt succeeded |
| Deletion.SucceededInOrderNoDuplicates | pivotal-import/delete_imported_entities.py:141-145 | distinct attempts give distinct successes |
| Deletion.SucceededInOrderAppend | pivotal-import/delete_imported_entities.py:143-145 | one more attempt adds its row exactly when it succeeded |
| Deletion.TypeCountsAppend | pivotal-import/delete_imported_entities.py:144 | counting one more row is one increment of its type |
| Deletion.SucceededMeaning | pivotal-import/delete_imported_entities.py:141-145 | once every row was tried, the successes are exactly the rows whose deletion returned True |
| Deletion.DeleteInOrder | pivotal-import/delete_imported_entities.py:140-147 | each row is tried once in order; only successes are counted and recorded, and the recorded rows are exactly those whose deletion returned True; the loop aborts exactly when some row gets an HTTP error without a response |
| Deletion.RunDeletion | pivotal-import/delete_imported_entities.py:115-151 | the rows are deduplicated and ranked. With apply, the deleted rows are exactly those whose deletion returned True, the ledger keeps exactly the others, each type is counted once per deleted row, and the run aborts exactly when some row has no response. Without apply, nothing is deleted, the ledger is unchanged, and each type is counted once per distinct ledger row |
| Deletion.RunKeepsExactlyTheFailures | pivotal-import/delete_imported_entities.py:140-148 | a ledger row is kept exactly when its deletion did not succeed; each type is counted once per distinct deleted row |
| CommentLedger.InitialRow | pivotal-import/add_external_id_comment.py:42-50 | an initial row copies id and external id (default `""`) with the four comment fields empty |
| CommentLedger.CreateInitialCsv | pivotal-import/add_external_id_comment.py:29-53 | one initial row per fetched story, in order |
| CommentLedger.CommentText | pivotal-import/add_external_id_comment.py:60-62 | the comment is `"Pivotal Tracker Id "` followed by the external id |
| CommentLedger.AddCommentToStory | pivotal-import/add_external_id_comment.py:55-76 | success carries the response's time and id (default `""`) and no error; failure carries only the error |
| CommentLedger.ProcessExistingStories | pivotal-import/add_external_id_comment.py:78-115 | every row is written back in order, eligible ones updated; the count is the rows reading `"True"` |
| CommentLedger.AddStepFrame | pivotal-import/add_external_id_comment.py:92-102 | id and external id never change; an ineligible row is untouched; an eligible one ends `"True"` or `"False"` |
| CommentLedger.AddNeverRetries | pivotal-import/add_external_id_comment.py:92 | a row marked `"True"` or `"False"` is never sent again |
| CommentLedger.AddIdempotent | pivotal-import/add_external_id_comment.py:92-102 | a second run changes nothing, whatever the tracker answers |
| CommentLedger.DeleteComments | pivotal-import/delete_comments.py:5-47 | every row is written back in order, rows with a comment updated |
| CommentLedger.DeleteStepFrame | pivotal-import/delete_comments.py:18-39 | id and external id never change; a row without a comment is untouched |
| CommentLedger.DeleteResetsToInitial | pivotal-import/delete_comments.py:28-33 | a successful deletion leaves the row fresh, as initially written |
| CommentLedger.FailedDeleteStaysEligible | pivotal-import/delete_comments.py:35-37 | a failed deletion changes only the error, so the row is tried again |
| CommentLedger.DeleteSecondRunSkipsReset | pivotal-import/delete_comments.py:18 | a reset row is not touched by the next run |
| CommentLedger.AddThenDeleteRoundTrip | pivotal-import/delete_comments.py:28-33 | adding a comment to a fresh row and deleting it gives back the fresh row |
| CommentLedger.FailedAddIsFinal | pivotal-import/add_external_id_comment.py:70-76 | a failed add reads `"False"` and is neither retried nor cleaned up |
| Common.Join | pivotal-import/pivotal_import.py:738 | joining nothing gives `""`, joining one part gives that part |
| Common.JoinAppend | pivotal-import/pivotal_import.py:738 | joining parts plus one more is the join of the parts, the separator, then the new part |
| Common.NoLineBreaks | pivotal-import/pivotal_import.py:738 | a text without a line-break character counts no line breaks |
| Common.JoinLineBreaks | pivotal-import/pivotal_import.py:738 | joining parts free of line breaks with a line break gives one line break fewer than there are parts |

## Left out

- Network calls are parameters: `sc_post`, `sc_delete`, `sc_upload_files`, `fetch_members` and the live creator `sc_creator`. `lib` is not part of this model.
- `sc_creator` (pivotal_import.py:817 on) is not modelled. It writes its own ledger rows; its `write_to_imported_entities_csv([], mode='w')` at line 829 writes nothing, so it never truncates; and its call to `write_failed_stories` with two arguments at line 878 would raise `TypeError`. The live emitter is its answers alone.
- File-system and CSV mechanics are not modelled: `open`, `DictReader`/`DictWriter`, headers, `os.walk`, `os.replace`, `os.makedirs`, `load_mapping_csv`'s reading. Files are in-memory sequences, and an exported directory is the set of the file names found under it, with no paths.
- I/O errors are not modelled. Those swallowed by `try`/`except` around the writes, and the early returns on a missing CSV, are left out.
- The failed-stories and failed-files files are not modelled as CSV. They are rows appended to the collector's fields, without their timestamps.
- Timestamps are not modelled. `datetime.now()` feeds the run label and the CSV timestamps; the run label is a parameter, and so is its timestamp.
- `add_attached_files_in_comments`, `process_pt_csv_export`, `parse_row` and the rest of the CSV-export parsing are left out. They use SQLite and file reading and are not part of this model.
- Printing, logging, `argparse`, `main`, `validate_environment` and `time.sleep` are left out; they have no behaviour to model.
- `Linking.EpicLabelMapKeys`: `is not` (pivotal_import.py:381-382) is modelled as string inequality, since both labels come from the same constants.
- Mutation of the shared story dictionaries is not modelled, and neither is aliasing. The model passes values: linked and processed stories are returned rather than written back into `self.stories`.
- `Collector.EntityCollector.Commit`: when an earlier phase fails, its contract does not give that phase's condition. `CommitLabels`, `CommitEpics` and `CommitIterations` give it. For the story loop, `Commit` states when it raises through `StoryLoop` and `StoryLoopStopsIff`.
- `Collector.EntityCollector.Commit` states the dry-run stamping per phase in `CommitLabels` and `CommitEpics`, not for the whole commit.
- `Collector.EntityCollector.CommitStories`: the contract states when the loop raises, but not the message it raises with.
- `Attachments.ProcessComment` builds a comment's links with the corrected pairing (`Attachments.LinkTexts`), not with the source's zip over all the comment's attachments (`Attachments.LinkTextsAsWritten`, pivotal_import.py:728). They differ only when an attachment's file is missing from the export, as the finding below shows.
- `Attachments.ProcessComments` and everything built on it (`Attachments.ProcessStory`, `Attachments.ProcessFilesForStories`, the collector's `Prepared`, `PrepareFiles`, `ProcessStoryBatch`, `BatchOutcome` and the commit) carry the corrected pairing for the same reason.
- `Attachments.ProcessFilesForStories`: the comment texts it returns use the corrected pairing, as the two lines above say.
- `Collector.EntityCollector.CommitIterations` builds iterations in the set's iteration order, which the model leaves open (any enumeration of the keys).
- `Deletion.SortByRank` orders rows within one rank in the set's own order, which the model leaves open.
- A `KeyError` raised out of `commit` leaves the rows already written in the same batch out of the model's ledger, because the model rolls the batch back.
- `create_stories` is not called by `commit` (stories go through the emitter). It is modelled on its own.
- `self.files` in `EntityCollector` is never read and is not modelled.
- A row value of an unexpected shape is read as empty or absent. Examples are a non-list `labels` and a non-text `external_id`.
- An HTTP error without a response makes `err.response.status_code` raise. The model treats this as an abort of the deletion run, which `main` reports as an error.

## Findings

| source | as written | input that shows it | evidently intended | confidence | as-written member | corrected member |
|---|---|---|---|---|---|---|
| pivotal-import/pivotal_import.py:727-734 | `zip(successful_files, comment_attachments)` pairs the stored files with all the comment's attachments, including those whose file was not exported | attachments `notes.txt` (`text/plain`, not exported) then `shot.png` (`image/png`, exported): the screenshot's link takes the note's content type and is written without `!` | each stored file takes the content type of its own attachment, found among the exported ones | not executed | Attachments.AsWrittenMislabelsImage | Attachments.LinksMatchOwnAttachment |

The rest of the model builds links with the corrected pairing; the lines under "## Left out" that start with `Attachments.ProcessComment`, `Attachments.ProcessComments` and `Attachments.ProcessFilesForStories` say where it carries over.
