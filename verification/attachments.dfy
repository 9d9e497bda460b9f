/**
 * Uploading the files attached to source comments and linking them into
 * the comment text before a story batch is created
 * (pivotal-import/pivotal_import.py, `process_files_for_stories` and
 * `clean_story`). The directory listing and the upload service are
 * parameters: `dirs` maps a story's external id to the names of the files
 * exported for it, and `upload` answers one upload call.
 */
module Attachments {
  import opened Common
  import opened Values
  import Decimal

  /** A file the upload service reports as stored: its type, id, name and URL. */
  datatype UploadedFile = UploadedFile(entityType: string, id: nat, filename: string, url: string)

  /** The upload service's answer: the files stored, and the names of the files that failed. */
  datatype UploadAnswer = UploadAnswer(successful: seq<UploadedFile>, failed: seq<string>)

  /** The exported files per story external id, and the upload service. */
  datatype FileStore = FileStore(dirs: map<string, set<string>>, upload: seq<string> -> UploadAnswer)

  /** The name and URL a link in the comment text points at. */
  datatype FileLink = FileLink(filename: string, url: string)

  /** A row of the failed-files file: the story's external id and the file name. */
  datatype FailedFile = FailedFile(storyId: string, filename: string)

  /** The attachments whose file was exported, in order (`if attachment['filename'] in all_story_files`). */
  function PresentAttachments(attachments: seq<Attachment>, files: set<string>): (present: seq<Attachment>)
    ensures |present| <= |attachments|
    ensures forall a :: a in present <==> a in attachments && a.filename in files
  {
    if attachments == [] then []
    else (if attachments[0].filename in files then [attachments[0]] else []) + PresentAttachments(attachments[1..], files)
  }

  /** The file names of the attachments. */
  function Names(attachments: seq<Attachment>): (names: seq<string>)
    ensures |names| == |attachments|
  {
    seq(|attachments|, i requires 0 <= i < |attachments| => attachments[i].filename)
  }

  /** What one upload call leaves: the links to add, the failed names, and the ledger rows written. */
  datatype Upload = Upload(links: seq<FileLink>, failed: seq<string>, written: seq<LedgerRow>)

  /** The link the dry run makes up for a file. */
  function MockLink(name: string): FileLink {
    FileLink(name, "https://mock-url/" + name)
  }

  /**
   * Uploading the named files: the dry run reports every file stored under
   * a made-up URL and writes nothing; a live upload writes one ledger row
   * per stored file (`type`, `str(id)`) straight away.
   */
  function UploadFiles(names: seq<string>, dryRun: bool, upload: seq<string> -> UploadAnswer): (u: Upload)
    ensures dryRun ==> u.failed == [] && u.written == [] && |u.links| == |names|
    ensures dryRun ==> forall i :: 0 <= i < |names| ==> u.links[i] == MockLink(names[i])
    ensures !dryRun ==> |u.written| == |u.links| == |upload(names).successful| && u.failed == upload(names).failed
  {
    if dryRun then Upload(seq(|names|, i requires 0 <= i < |names| => MockLink(names[i])), [], [])
    else
      var stored := upload(names).successful;
      Upload(
        seq(|stored|, i requires 0 <= i < |stored| => FileLink(stored[i].filename, stored[i].url)),
        upload(names).failed,
        seq(|stored|, i requires 0 <= i < |stored| => LedgerRow(stored[i].entityType, Decimal.DecimalString(stored[i].id))))
  }

  /** `content_type.startswith('image/')`. */
  predicate IsImage(contentType: string) {
    |contentType| >= 6 && contentType[..6] == "image/"
  }

  /** One link: `![name](url)` for an image, `[name](url)` otherwise. */
  function LinkText(link: FileLink, contentType: string): (text: string)
    ensures |text| > 0 && (text[0] == '!' <==> IsImage(contentType))
  {
    (if IsImage(contentType) then "!" else "") + "[" + link.filename + "](" + link.url + ")"
  }

  /**
   * The links as the source writes them: the k-th stored file paired with
   * the k-th attachment of the comment, found or not.
   */
  function LinkTextsAsWritten(links: seq<FileLink>, attachments: seq<Attachment>): (texts: seq<string>)
    ensures |texts| == Min(|links|, |attachments|)
  {
    seq(Min(|links|, |attachments|), i requires 0 <= i < Min(|links|, |attachments|) => LinkText(links[i], attachments[i].contentType))
  }

  /** The links as intended: the k-th stored file paired with the k-th attachment whose file was found. */
  function LinkTexts(links: seq<FileLink>, attachments: seq<Attachment>, files: set<string>): (texts: seq<string>)
    ensures |texts| == Min(|links|, |PresentAttachments(attachments, files)|)
  {
    LinkTextsAsWritten(links, PresentAttachments(attachments, files))
  }

  /**
   * The source's pairing marks a stored image as a plain link (and the
   * other way round) as soon as an earlier attachment's file is missing:
   * with a note whose file was not exported followed by a screenshot that
   * was, the screenshot is linked with the note's `text/plain` type, as a plain
   * link instead of an inline image (`[shot.png](…)` for `![shot.png](…)`).
   */
  lemma AsWrittenMislabelsImage(upload: seq<string> -> UploadAnswer)
    ensures var attachments := [Attachment("notes.txt", "text/plain"), Attachment("shot.png", "image/png")];
      var files := {"shot.png"};
      var links := UploadFiles(Names(PresentAttachments(attachments, files)), true, upload).links;
      && links == [MockLink("shot.png")]
      && |LinkTextsAsWritten(links, attachments)| == 1 && LinkTextsAsWritten(links, attachments)[0][0] != '!'
      && |LinkTexts(links, attachments, files)| == 1 && LinkTexts(links, attachments, files)[0][0] == '!'
  {
    var attachments := [Attachment("notes.txt", "text/plain"), Attachment("shot.png", "image/png")];
    var files := {"shot.png"};
    assert PresentAttachments(attachments[1..], files) == [attachments[1]];
    assert PresentAttachments(attachments, files) == [Attachment("shot.png", "image/png")];
    var links := UploadFiles(Names(PresentAttachments(attachments, files)), true, upload).links;
    assert links == [MockLink("shot.png")];
    assert "text/plain"[0] != "image/"[0];
    assert !IsImage("text/plain");
    assert "image/png"[..6] == "image/";
    assert LinkTextsAsWritten(links, attachments) == [LinkText(MockLink("shot.png"), "text/plain")];
    assert LinkTexts(links, attachments, files) == [LinkText(MockLink("shot.png"), "image/png")];
  }

  /**
   * With the intended pairing every stored file is linked as its own
   * attachment: whenever the stored files come back in the order of the
   * found attachments (always so in a dry run), the k-th link names the
   * k-th found attachment's file and is an image link exactly when that
   * attachment is an image.
   */
  lemma LinksMatchOwnAttachment(links: seq<FileLink>, attachments: seq<Attachment>, files: set<string>)
    requires |links| <= |PresentAttachments(attachments, files)|
    requires forall i :: 0 <= i < |links| ==> links[i].filename == PresentAttachments(attachments, files)[i].filename
    ensures |LinkTexts(links, attachments, files)| == |links|
    ensures forall i :: 0 <= i < |links| ==>
      var a := PresentAttachments(attachments, files)[i];
      && a in attachments && a.filename == links[i].filename
      && LinkTexts(links, attachments, files)[i] == LinkText(links[i], a.contentType)
  {
  }

  /** A dry run returns the found files in order, so its links meet the condition above. */
  lemma DryRunLinksInOrder(attachments: seq<Attachment>, files: set<string>, upload: seq<string> -> UploadAnswer)
    ensures var present := PresentAttachments(attachments, files);
      var links := UploadFiles(Names(present), true, upload).links;
      |links| == |present| && forall i :: 0 <= i < |links| ==> links[i].filename == present[i].filename
  {
  }

  /** The block of links: a blank line, the links joined by line breaks, a final line break. */
  lemma {:induction false} LinkBlockLines(strings: seq<string>)
    requires strings != []
    ensures (forall k :: 0 <= k < |strings| ==> '\n' !in strings[k]) ==>
      LineBreaks("\n\n" + Join("\n", strings) + "\n") == |strings| + 2
  {
    if forall k :: 0 <= k < |strings| ==> '\n' !in strings[k] {
      JoinLineBreaks(strings);
      LineBreaksAppend("\n\n", Join("\n", strings));
      LineBreaksAppend("\n\n" + Join("\n", strings), "\n");
      assert LineBreaks("\n\n") == 2 by {
        assert "\n\n"[..1] == "\n";
        assert "\n"[..0] == "";
      }
      assert LineBreaks("\n") == 1 by {
        assert "\n"[..0] == "";
      }
    }
  }

  /**
   * `comment["text"] += "\n\n" + "\n".join(strings) + "\n"` when there is
   * a link at all: the old text is kept as it is and followed by a blank
   * line, then one line per link, then a final line break.
   */
  function WithLinks(text: string, strings: seq<string>): (text': string)
    ensures strings == [] ==> text' == text
    ensures text <= text'
    ensures strings != [] ==>
      && |text'| >= |text| + 3
      && text'[|text|..|text| + 2] == "\n\n" && text'[|text'| - 1] == '\n'
    ensures strings != [] && (forall k :: 0 <= k < |strings| ==> '\n' !in strings[k]) ==>
      LineBreaks(text'[|text|..]) == |strings| + 2
  {
    if strings == [] then text
    else
      var block := "\n\n" + Join("\n", strings) + "\n";
      LinkBlockLines(strings);
      assert (text + block)[|text|..] == block;
      text + block
  }

  /** What processing one comment leaves: the comment, the failed file names, the ledger rows written. */
  datatype CommentResult = CommentResult(comment: Comment, failed: seq<string>, written: seq<LedgerRow>)

  /**
   * One comment: its attachments are popped; the found files are
   * uploaded; on a failure the text is left alone, otherwise links to the
   * stored files are appended.
   */
  function ProcessComment(c: Comment, files: set<string>, dryRun: bool, upload: seq<string> -> UploadAnswer): CommentResult {
    var popped := c.(attachments := []);
    var present := PresentAttachments(c.attachments, files);
    if present == [] then CommentResult(popped, [], [])
    else
      var u := UploadFiles(Names(present), dryRun, upload);
      if u.failed != [] then CommentResult(popped, u.failed, u.written)
      else CommentResult(popped.(text := WithLinks(c.text, LinkTexts(u.links, c.attachments, files))), [], u.written)
  }

  /**
   * A processed comment keeps its author and begins with its old text,
   * has no attachments left, and only gains text when nothing failed.
   */
  lemma ProcessCommentFrame(c: Comment, files: set<string>, dryRun: bool, upload: seq<string> -> UploadAnswer)
    ensures var r := ProcessComment(c, files, dryRun, upload);
      && r.comment.author == c.author && r.comment.authorId == c.authorId
      && r.comment.attachments == []
      && |c.text| <= |r.comment.text| && r.comment.text[..|c.text|] == c.text
      && (r.failed != [] ==> r.comment.text == c.text)
      && (PresentAttachments(c.attachments, files) == [] ==> r == CommentResult(c.(attachments := []), [], []))
  {
  }

  /** What processing a story's comments leaves: the comments, the failed file names, the ledger rows written. */
  datatype CommentsResult = CommentsResult(comments: seq<Comment>, failed: seq<string>, written: seq<LedgerRow>)

  /** The comment loop: every comment in order until the first failed upload (`break`), after which the rest are left as they are. */
  function ProcessComments(cs: seq<Comment>, files: set<string>, dryRun: bool, upload: seq<string> -> UploadAnswer): (r: CommentsResult)
    ensures |r.comments| == |cs|
    ensures forall j :: 0 <= j < |cs| ==>
      r.comments[j].author == cs[j].author && r.comments[j].authorId == cs[j].authorId && cs[j].text <= r.comments[j].text
    ensures r.failed == [] ==> forall j :: 0 <= j < |cs| ==> r.comments[j] == ProcessComment(cs[j], files, dryRun, upload).comment
  {
    if cs == [] then CommentsResult([], [], [])
    else
      ProcessCommentFrame(cs[0], files, dryRun, upload);
      var first := ProcessComment(cs[0], files, dryRun, upload);
      if first.failed != [] then CommentsResult([first.comment] + cs[1..], first.failed, first.written)
      else
        var rest := ProcessComments(cs[1..], files, dryRun, upload);
        CommentsResult([first.comment] + rest.comments, rest.failed, first.written + rest.written)
  }

  /** A dry run never fails an upload and writes nothing to the ledger. */
  lemma {:induction false} DryRunCommentsNeverFail(cs: seq<Comment>, files: set<string>, upload: seq<string> -> UploadAnswer)
    ensures ProcessComments(cs, files, true, upload).failed == []
    ensures ProcessComments(cs, files, true, upload).written == []
  {
    if cs != [] {
      DryRunCommentsNeverFail(cs[1..], files, upload);
    }
  }

  /**
   * The comment loop reaches comment `k` when no earlier upload failed: it
   * is processed, and if its own upload fails the loop stops there, with
   * the comments after it left as they were.
   */
  lemma {:induction false} ProcessCommentsAt(cs: seq<Comment>, files: set<string>, dryRun: bool, upload: seq<string> -> UploadAnswer, k: nat)
    requires k < |cs|
    requires forall j :: 0 <= j < k ==> ProcessComment(cs[j], files, dryRun, upload).failed == []
    ensures ProcessComments(cs, files, dryRun, upload).comments[k] == ProcessComment(cs[k], files, dryRun, upload).comment
    ensures ProcessComment(cs[k], files, dryRun, upload).failed != [] ==>
      && ProcessComments(cs, files, dryRun, upload).failed == ProcessComment(cs[k], files, dryRun, upload).failed
      && ProcessComments(cs, files, dryRun, upload).comments[k + 1..] == cs[k + 1..]
  {
    var r := ProcessComments(cs, files, dryRun, upload);
    if k == 0 {
      if ProcessComment(cs[0], files, dryRun, upload).failed != [] {
        assert r.comments[1..] == cs[1..];
      }
    } else {
      forall j | 0 <= j < k - 1 ensures ProcessComment(cs[1..][j], files, dryRun, upload).failed == [] {
        assert cs[1..][j] == cs[j + 1];
      }
      ProcessCommentsAt(cs[1..], files, dryRun, upload, k - 1);
      var rest := ProcessComments(cs[1..], files, dryRun, upload);
      assert r.comments == [ProcessComment(cs[0], files, dryRun, upload).comment] + rest.comments;
      assert cs[1..][k - 1] == cs[k];
      if ProcessComment(cs[k], files, dryRun, upload).failed != [] {
        assert r.comments[k + 1..] == rest.comments[k..];
        assert cs[k + 1..] == cs[1..][k..];
      }
    }
  }

  /** When the loop reports no failed file, no comment's upload failed. */
  lemma {:induction false} ProcessCommentsNoFailure(cs: seq<Comment>, files: set<string>, dryRun: bool, upload: seq<string> -> UploadAnswer)
    requires ProcessComments(cs, files, dryRun, upload).failed == []
    ensures forall j :: 0 <= j < |cs| ==> ProcessComment(cs[j], files, dryRun, upload).failed == []
  {
    if cs != [] {
      ProcessCommentsNoFailure(cs[1..], files, dryRun, upload);
      forall j | 1 <= j < |cs| ensures ProcessComment(cs[j], files, dryRun, upload).failed == [] {
        assert cs[1..][j - 1] == cs[j];
      }
    }
  }

  /** What processing one story's files leaves. */
  datatype StoryFiles = StoryFiles(story: EntityRecord, failed: bool, written: seq<LedgerRow>, failedFiles: seq<FailedFile>)

  /** The failed-files rows of one story. */
  function FailedFilesOf(storyId: string, names: seq<string>): (rows: seq<FailedFile>)
    ensures |rows| == |names|
  {
    seq(|names|, i requires 0 <= i < |names| => FailedFile(storyId, names[i]))
  }

  /**
   * One story of `process_files_for_stories`: a story without an
   * `external_id` raises; a story without exported files passes unchanged;
   * otherwise its comments are processed, and a failed upload marks the
   * story failed with `"Failed to upload files: "` and the failed names.
   */
  function ProcessStory(story: EntityRecord, dryRun: bool, store: FileStore): Result<StoryFiles, string> {
    if "external_id" !in story.entity then Failure("KeyError: 'external_id'")
    else match TextAt(story.entity, "external_id")
      case None => Success(StoryFiles(story, false, [], []))
      case Some(ptId) =>
        if ptId !in store.dirs then Success(StoryFiles(story, false, [], []))
        else
          var r := ProcessComments(CommentsAt(story.entity), store.dirs[ptId], dryRun, store.upload);
          var entity := if "comments" in story.entity && story.entity["comments"].Comments?
            then story.entity["comments" := Comments(r.comments)] else story.entity;
          var processed := story.(entity := entity);
          if r.failed == [] then Success(StoryFiles(processed, false, r.written, []))
          else Success(StoryFiles(
            processed.(errorMessage := Some("Failed to upload files: " + Join(", ", r.failed))),
            true, r.written, FailedFilesOf(ptId, r.failed)))
  }

  /**
   * A story's processing changes its comments (same number) and, when an
   * upload failed, its error message; nothing else. A story without
   * exported files is unchanged, and a dry run never fails. With exported
   * files the comments are the comment loop's, and when nothing failed
   * every comment has lost its attachments; after a failure the comments
   * past the failing one keep theirs (`ProcessCommentsAt`).
   */
  lemma ProcessStoryFrame(story: EntityRecord, dryRun: bool, store: FileStore)
    requires ProcessStory(story, dryRun, store).Success?
    ensures var out := ProcessStory(story, dryRun, store).value;
      && out.story.(entity := story.entity, errorMessage := story.errorMessage) == story
      && (forall k :: k != "comments" ==> (k in out.story.entity <==> k in story.entity))
      && (forall k :: k != "comments" && k in story.entity ==> out.story.entity[k] == story.entity[k])
      && |CommentsAt(out.story.entity)| == |CommentsAt(story.entity)|
      && (out.failed <==> |out.failedFiles| > 0)
      && (!out.failed ==> out.story.errorMessage == story.errorMessage)
      && (dryRun ==> !out.failed && out.written == [])
    ensures var out := ProcessStory(story, dryRun, store).value;
      out.failed ==>
        && TextAt(story.entity, "external_id").Some?
        && var ptId := TextAt(story.entity, "external_id").value;
        && ptId in store.dirs
        && var failed := ProcessComments(CommentsAt(story.entity), store.dirs[ptId], dryRun, store.upload).failed;
        && out.story.errorMessage == Some("Failed to upload files: " + Join(", ", failed))
        && |out.failedFiles| == |failed|
        && (forall i :: 0 <= i < |failed| ==> out.failedFiles[i] == FailedFile(ptId, failed[i]))
    ensures TextAt(story.entity, "external_id").None? || TextAt(story.entity, "external_id").value !in store.dirs ==>
      ProcessStory(story, dryRun, store).value == StoryFiles(story, false, [], [])
    ensures var out := ProcessStory(story, dryRun, store).value;
      TextAt(story.entity, "external_id").Some? && TextAt(story.entity, "external_id").value in store.dirs ==>
        var r := ProcessComments(CommentsAt(story.entity), store.dirs[TextAt(story.entity, "external_id").value], dryRun, store.upload);
        && CommentsAt(out.story.entity) == r.comments
        && (!out.failed ==> forall j :: 0 <= j < |r.comments| ==> r.comments[j].attachments == [])
  {
    match TextAt(story.entity, "external_id")
    case None =>
    case Some(ptId) =>
      if ptId in store.dirs {
        var files := store.dirs[ptId];
        var cs := CommentsAt(story.entity);
        var r := ProcessComments(cs, files, dryRun, store.upload);
        if dryRun {
          DryRunCommentsNeverFail(cs, files, store.upload);
        }
        if r.failed == [] {
          forall j | 0 <= j < |r.comments| ensures r.comments[j].attachments == [] {
            ProcessCommentFrame(cs[j], files, dryRun, store.upload);
          }
        }
      }
  }

  /** What `process_files_for_stories` leaves: the stories to create, the failed stories, the ledger rows and failed files written. */
  datatype BatchFiles = BatchFiles(successful: seq<EntityRecord>, failed: seq<EntityRecord>, written: seq<LedgerRow>, failedFiles: seq<FailedFile>)

  /** The batch outcome from the stories' outcomes, in order. */
  function Combine(outcomes: seq<StoryFiles>): (b: BatchFiles)
    ensures |b.successful| + |b.failed| == |outcomes|
  {
    if outcomes == [] then BatchFiles([], [], [], [])
    else
      var b := Combine(outcomes[..|outcomes| - 1]);
      var o := outcomes[|outcomes| - 1];
      if o.failed then BatchFiles(b.successful, b.failed + [o.story], b.written + o.written, b.failedFiles + o.failedFiles)
      else BatchFiles(b.successful + [o.story], b.failed, b.written + o.written, b.failedFiles)
  }

  /** The stories to create are exactly the ones without a failed upload, in order; the failed ones carry their error. */
  lemma {:induction false} CombineSplits(outcomes: seq<StoryFiles>)
    ensures forall s :: s in Combine(outcomes).successful <==> exists i :: 0 <= i < |outcomes| && !outcomes[i].failed && outcomes[i].story == s
    ensures forall s :: s in Combine(outcomes).failed <==> exists i :: 0 <= i < |outcomes| && outcomes[i].failed && outcomes[i].story == s
    ensures (forall i :: 0 <= i < |outcomes| ==> !outcomes[i].failed) ==> |Combine(outcomes).successful| == |outcomes|
  {
    if outcomes != [] {
      var init := outcomes[..|outcomes| - 1];
      CombineSplits(init);
      forall i | 0 <= i < |init| ensures init[i] == outcomes[i] {
      }
    }
  }

  /** The outcomes of the first `i` stories of a batch, in order. */
  ghost predicate OutcomesOf(batch: seq<EntityRecord>, dryRun: bool, store: FileStore, outcomes: seq<StoryFiles>)
    requires |outcomes| <= |batch|
  {
    forall j :: 0 <= j < |outcomes| ==> ProcessStory(batch[j], dryRun, store) == Success(outcomes[j])
  }

  /** One more processed story extends the outcomes and the batch outcome. */
  lemma OutcomesSnoc(batch: seq<EntityRecord>, dryRun: bool, store: FileStore, outcomes: seq<StoryFiles>, out: StoryFiles)
    requires |outcomes| < |batch| && OutcomesOf(batch, dryRun, store, outcomes)
    requires ProcessStory(batch[|outcomes|], dryRun, store) == Success(out)
    ensures OutcomesOf(batch, dryRun, store, outcomes + [out])
    ensures var b := Combine(outcomes);
      Combine(outcomes + [out]) ==
        if out.failed then BatchFiles(b.successful, b.failed + [out.story], b.written + out.written, b.failedFiles + out.failedFiles)
        else BatchFiles(b.successful + [out.story], b.failed, b.written + out.written, b.failedFiles)
  {
    assert (outcomes + [out])[..|outcomes|] == outcomes;
    forall j | 0 <= j < |outcomes| + 1
      ensures ProcessStory(batch[j], dryRun, store) == Success((outcomes + [out])[j])
    {
      if j < |outcomes| {
        assert (outcomes + [out])[j] == outcomes[j];
      }
    }
  }

  /** `process_files_for_stories`: every story of the batch in order, or the first `KeyError`. */
  method ProcessFilesForStories(batch: seq<EntityRecord>, dryRun: bool, store: FileStore)
    returns (r: Result<BatchFiles, string>, ghost outcomes: seq<StoryFiles>)
    ensures r.Success? <==> forall i :: 0 <= i < |batch| ==> ProcessStory(batch[i], dryRun, store).Success?
    ensures r.Success? ==>
      && |outcomes| == |batch|
      && (forall i :: 0 <= i < |batch| ==> outcomes[i] == ProcessStory(batch[i], dryRun, store).value)
      && r.value == Combine(outcomes)
  {
    var successful: seq<EntityRecord> := [];
    var failed: seq<EntityRecord> := [];
    var written: seq<LedgerRow> := [];
    var failedFiles: seq<FailedFile> := [];
    outcomes := [];
    for i := 0 to |batch|
      invariant |outcomes| == i
      invariant OutcomesOf(batch, dryRun, store, outcomes)
      invariant BatchFiles(successful, failed, written, failedFiles) == Combine(outcomes)
    {
      var o := ProcessStory(batch[i], dryRun, store);
      if o.Failure? {
        return Failure(o.error), outcomes;
      }
      var out := o.value;
      OutcomesSnoc(batch, dryRun, store, outcomes, out);
      written := written + out.written;
      if out.failed {
        failed := failed + [out.story];
        failedFiles := failedFiles + out.failedFiles;
      } else {
        successful := successful + [out.story];
      }
      outcomes := outcomes + [out];
    }
    r := Success(BatchFiles(successful, failed, written, failedFiles));
  }

  /** `clean_story`: every comment loses its attachments. */
  function CleanStory(story: EntityRecord): (cleaned: EntityRecord)
    ensures cleaned.(entity := story.entity) == story
    ensures forall k :: k in cleaned.entity <==> k in story.entity
    ensures forall k :: k in story.entity && k != "comments" ==> cleaned.entity[k] == story.entity[k]
    ensures |CommentsAt(cleaned.entity)| == |CommentsAt(story.entity)|
    ensures forall i :: 0 <= i < |CommentsAt(cleaned.entity)| ==>
      CommentsAt(cleaned.entity)[i] == CommentsAt(story.entity)[i].(attachments := [])
  {
    if "comments" in story.entity && story.entity["comments"].Comments? then
      var cs := story.entity["comments"].comments;
      story.(entity := story.entity["comments" := Comments(seq(|cs|, i requires 0 <= i < |cs| => cs[i].(attachments := [])))])
    else story
  }
}
