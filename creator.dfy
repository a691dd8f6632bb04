/** One creator's pass through the main loop of app.js (the body of
    `data.forEach`, app.js:86-174), and the loop itself taken one creator after
    another. Every step that touches the outside world (the file system, the
    downloader process, the zip library, the webhook endpoint) is replaced by
    the answer it gives, collected in `Effects`. */
module Creator {
  import opened Outcomes
  import opened Text
  import opened Paths
  import opened Diff
  import opened Overview
  import opened Downloader
  import opened Archive
  import opened Notify

  /** `config.json` (app.js:17-18); `imagesDir` may be absent. */
  datatype Config = Config(webhookUrl: string, archiveBaseURL: string, archiveBasePath: string, imagesDir: Option<string>)

  /** One element of `creators.json` (app.js:87). */
  datatype CreatorEntry = CreatorEntry(name: string, sessionId: string, url: string, banner: string, logo: string, archive: bool)

  /** What the outside world answers at each step of one creator's run. */
  datatype Effects = Effects(
    before: Result<seq<string>>,   // createDirectory and readdirSync, app.js:93-96
    download: Status,              // execSync of the command, app.js:109
    after: Result<seq<string>>,    // readdirSync, app.js:112
    archiving: Status,             // the createArchive promise, app.js:150
    moving: Status,                // renameSync, app.js:151
    delivery: Status,              // webhook.send of the success message, app.js:156
    errorDelivery: Status)         // webhook.send of the error message, app.js:172 (its rejection is never handled)

  /** How one creator's run ends. `Aborted` is a throw before the `try`
      (app.js:93-96): the callback's promise rejects and nothing is posted. */
  datatype Outcome =
    | Aborted(error: string)
    | NoNewFiles
    | SuccessNotified(preview: string, archiveUrl: Option<string>)
    | ErrorNotified(error: string)

  /** The call `createArchive(newImages, path.join(saveDir, name), tempArchivePath)`
      and where the result is moved and published. */
  datatype ArchiveJob = ArchiveJob(files: seq<string>, sourceDir: string, at: Locations)

  /** Everything one run does that can be observed: the command handed to the
      shell, the archive it asked for, and the messages it posted in order. */
  datatype Trace = Trace(command: Option<string>, job: Option<ArchiveJob>, posts: seq<Message>, outcome: Outcome)

  /** The `catch` block of app.js:160-172: one error message after whatever
      was posted already. */
  function Caught(command: string, job: Option<ArchiveJob>, posted: seq<Message>, name: string, error: string): Trace
  {
    Trace(Some(command), job, posted + [ErrorMessage(name, error)], ErrorNotified(error))
  }

  /** `await webhook.send(successMessage)` (app.js:156), still inside the `try`. */
  function Deliver(command: string, job: Option<ArchiveJob>, m: Message, preview: string, url: Option<string>,
                   name: string, fx: Effects): Trace
  {
    if fx.delivery.Failed? then Caught(command, job, [m], name, fx.delivery.message)
    else Trace(Some(command), job, [m], SuccessNotified(preview, url))
  }

  /** The branch of app.js:119-156, taken when there are new files. */
  function Notified(command: string, cfg: Config, entry: CreatorEntry, saveDir: string, uuid: string,
                    added: seq<string>, fx: Effects): Trace
  {
    var preview := Preview(added);
    var m := SuccessMessage(entry.name, preview);
    if !entry.archive then Deliver(command, None, m, preview, None, entry.name, fx)
    else
      var at := ArchiveLocations(entry.name, uuid, cfg.archiveBasePath, cfg.archiveBaseURL);
      var job := Some(ArchiveJob(added, JoinPath(saveDir, entry.name), at));
      if fx.archiving.Failed? then Caught(command, job, [], entry.name, fx.archiving.message)
      else if fx.moving.Failed? then Caught(command, job, [], entry.name, fx.moving.message)
      else Deliver(command, job, m.(fields := m.fields + [ArchiveField(at.url)]), preview, Some(at.url), entry.name, fx)
  }

  /** The `try` block of app.js:107-159. */
  function TryBlock(command: string, cfg: Config, entry: CreatorEntry, saveDir: string, uuid: string,
                    oldFiles: seq<string>, fx: Effects): Trace
  {
    if fx.download.Failed? then Caught(command, None, [], entry.name, fx.download.message)
    else if fx.after.Err? then Caught(command, None, [], entry.name, fx.after.message)
    else
      var added := NewFiles(oldFiles, fx.after.value);
      if |added| == 0 then Trace(Some(command), None, [], NoNewFiles)
      else Notified(command, cfg, entry, saveDir, uuid, added, fx)
  }

  /** One creator's run, app.js:87-173. */
  function Run(cfg: Config, entry: CreatorEntry, force: bool, programDir: string, uuid: string, fx: Effects): Trace
  {
    match fx.before
    case Err(e) => Trace(None, None, [], Aborted(e))
    case Ok(oldFiles) =>
      var saveDir := SaveDir(cfg.imagesDir, programDir);
      TryBlock(DownloaderCommand(entry.sessionId, entry.name, saveDir, force), cfg, entry, saveDir, uuid, oldFiles, fx)
  }

  /** `newImagesString` built as app.js:121-127 build it. */
  method BuildPreview(newImages: seq<string>) returns (newImagesString: string)
    ensures newImagesString == Preview(newImages)
  {
    newImagesString := JoinLines(LastN(newImages, PreviewLimit));
    if |newImages| > PreviewLimit {
      var remainingImagesCount := |newImages| - PreviewLimit;
      newImagesString := newImagesString + "\n+" + NatToString(remainingImagesCount) + " more...";
    }
  }

  /** The builder chain of app.js:129-137. */
  method BuildSuccessMessage(name: string, preview: string) returns (b: MessageBuilder)
    ensures fresh(b) && b.Contents() == SuccessMessage(name, preview)
  {
    b := new MessageBuilder();
    b.SetTitle(SuccessTitle);
    b.SetDescription("from " + name + " downloaded successfully!");
    b.AddField(OverviewField, CodeBlock(preview));
  }

  /** The `catch` block of app.js:160-172. */
  method ReportError(name: string, error: string, delivery: Status, hook: Webhook)
    modifies hook
    ensures hook.posts == old(hook.posts) + [ErrorMessage(name, error)]
  {
    var errorMessage := new MessageBuilder();
    errorMessage.SetTitle(ErrorTitle);
    errorMessage.SetDescription("when downloading images from " + name);
    errorMessage.AddField(OverviewField, CodeBlock(error));
    assert errorMessage.Contents() == ErrorMessage(name, error);
    var _ := hook.Send(errorMessage.Contents(), delivery);
  }

  /** The success branch (app.js:119-156) once the new files are known; a throw
      in it goes to `ReportError`. */
  method NotifyNewFiles(command: string, cfg: Config, entry: CreatorEntry, saveDir: string, uuid: string,
                        newImages: seq<string>, fx: Effects, hook: Webhook)
    returns (job: Option<ArchiveJob>, outcome: Outcome)
    modifies hook
    ensures var t := Notified(command, cfg, entry, saveDir, uuid, newImages, fx);
      && job == t.job && outcome == t.outcome && hook.posts == old(hook.posts) + t.posts
  {
    var name := entry.name;
    var newImagesString := BuildPreview(newImages);
    var successMessage := BuildSuccessMessage(name, newImagesString);
    ghost var m := SuccessMessage(name, newImagesString);
    var url: Option<string> := None;
    job := None;
    if entry.archive {
      var at := ArchiveLocations(name, uuid, cfg.archiveBasePath, cfg.archiveBaseURL);
      job := Some(ArchiveJob(newImages, JoinPath(saveDir, name), at));
      if fx.archiving.Failed? {
        ReportError(name, fx.archiving.message, fx.errorDelivery, hook);
        return job, ErrorNotified(fx.archiving.message);
      }
      if fx.moving.Failed? {
        ReportError(name, fx.moving.message, fx.errorDelivery, hook);
        return job, ErrorNotified(fx.moving.message);
      }
      successMessage.AddField(ArchiveFieldName, "[Archive (zip)](" + at.url + ")");
      assert successMessage.Contents() == m.(fields := m.fields + [ArchiveField(at.url)]);
      url := Some(at.url);
    }
    var sent := hook.Send(successMessage.Contents(), fx.delivery);
    if sent.Failed? {
      ReportError(name, sent.message, fx.errorDelivery, hook);
      outcome := ErrorNotified(sent.message);
    } else {
      outcome := SuccessNotified(newImagesString, url);
    }
  }

  /** The body of the `data.forEach` callback, step by step: the command and
      the preview are built with `+=`, the messages with a builder, and each
      message is posted through the webhook; a throw inside the `try` goes to
      `ReportError`. */
  method ProcessCreator(cfg: Config, entry: CreatorEntry, force: bool, programDir: string, uuid: string,
                        fx: Effects, hook: Webhook)
    returns (command: Option<string>, job: Option<ArchiveJob>, outcome: Outcome)
    modifies hook
    ensures var t := Run(cfg, entry, force, programDir, uuid, fx);
      && command == t.command && job == t.job && outcome == t.outcome
      && hook.posts == old(hook.posts) + t.posts
  {
    var name := entry.name;
    var saveDir := SaveDir(cfg.imagesDir, programDir);
    if fx.before.Err? {
      return None, None, Aborted(fx.before.message);
    }
    var oldFiles := fx.before.value;

    var cmd := CommandBase(entry.sessionId, name, saveDir);
    if force {
      cmd := cmd + " --all";
    } else {
      assert cmd + "" == cmd;
    }
    command := Some(cmd);
    assert cmd == DownloaderCommand(entry.sessionId, name, saveDir, force);

    if fx.download.Failed? {
      ReportError(name, fx.download.message, fx.errorDelivery, hook);
      return command, None, ErrorNotified(fx.download.message);
    }
    if fx.after.Err? {
      ReportError(name, fx.after.message, fx.errorDelivery, hook);
      return command, None, ErrorNotified(fx.after.message);
    }
    var newImages := NewFiles(oldFiles, fx.after.value);
    if |newImages| > 0 {
      job, outcome := NotifyNewFiles(cmd, cfg, entry, saveDir, uuid, newImages, fx, hook);
    } else {
      job, outcome := None, NoNewFiles;
    }
  }

  /** The posts of the first `n` creators, in the order their runs post them. */
  function PostsUpTo(cfg: Config, entries: seq<CreatorEntry>, force: bool, programDir: string,
                     uuids: seq<string>, fxs: seq<Effects>, n: nat): seq<Message>
    requires n <= |entries| && |uuids| == |entries| && |fxs| == |entries|
  {
    if n == 0 then []
    else PostsUpTo(cfg, entries, force, programDir, uuids, fxs, n - 1)
         + Run(cfg, entries[n - 1], force, programDir, uuids[n - 1], fxs[n - 1]).posts
  }

  /** The outcomes of the first `n` creators. */
  function OutcomesUpTo(cfg: Config, entries: seq<CreatorEntry>, force: bool, programDir: string,
                        uuids: seq<string>, fxs: seq<Effects>, n: nat): seq<Outcome>
    requires n <= |entries| && |uuids| == |entries| && |fxs| == |entries|
  {
    if n == 0 then []
    else OutcomesUpTo(cfg, entries, force, programDir, uuids, fxs, n - 1)
         + [Run(cfg, entries[n - 1], force, programDir, uuids[n - 1], fxs[n - 1]).outcome]
  }

  /** In the sequential model every creator gets its own run's outcome,
      whatever happened to the others. In the running program an unhandled
      rejection of one callback can end the process before the others finish;
      that is not modelled. */
  lemma {:induction false} OutcomesUpToAt(cfg: Config, entries: seq<CreatorEntry>, force: bool, programDir: string,
                                          uuids: seq<string>, fxs: seq<Effects>, n: nat, k: nat)
    requires k < n <= |entries| && |uuids| == |entries| && |fxs| == |entries|
    ensures |OutcomesUpTo(cfg, entries, force, programDir, uuids, fxs, n)| == n
    ensures OutcomesUpTo(cfg, entries, force, programDir, uuids, fxs, n)[k]
            == Run(cfg, entries[k], force, programDir, uuids[k], fxs[k]).outcome
  {
    if k < n - 1 {
      OutcomesUpToAt(cfg, entries, force, programDir, uuids, fxs, n - 1, k);
    } else if n > 1 {
      OutcomesUpToAt(cfg, entries, force, programDir, uuids, fxs, n - 1, 0);
    }
  }

  /** One turn of `data.forEach`: creator `i` is processed and its posts and
      outcome join those of the creators before it. */
  method ProcessNext(cfg: Config, entries: seq<CreatorEntry>, force: bool, programDir: string,
                     uuids: seq<string>, fxs: seq<Effects>, i: nat, outcomes: seq<Outcome>,
                     ghost earlier: seq<Message>, hook: Webhook)
    returns (outcomes': seq<Outcome>)
    requires i < |entries| && |uuids| == |entries| && |fxs| == |entries|
    requires outcomes == OutcomesUpTo(cfg, entries, force, programDir, uuids, fxs, i)
    requires hook.posts == earlier + PostsUpTo(cfg, entries, force, programDir, uuids, fxs, i)
    modifies hook
    ensures outcomes' == OutcomesUpTo(cfg, entries, force, programDir, uuids, fxs, i + 1)
    ensures hook.posts == earlier + PostsUpTo(cfg, entries, force, programDir, uuids, fxs, i + 1)
  {
    ghost var posted := PostsUpTo(cfg, entries, force, programDir, uuids, fxs, i);
    ghost var t := Run(cfg, entries[i], force, programDir, uuids[i], fxs[i]);
    var _, _, outcome := ProcessCreator(cfg, entries[i], force, programDir, uuids[i], fxs[i], hook);
    assert hook.posts == earlier + posted + t.posts;
    assert PostsUpTo(cfg, entries, force, programDir, uuids, fxs, i + 1) == posted + t.posts;
    AppendAssociates(earlier, posted, t.posts);
    outcomes' := outcomes + [outcome];
  }

  lemma AppendAssociates(a: seq<Message>, b: seq<Message>, c: seq<Message>)
    ensures a + b + c == a + (b + c)
  {
  }

  /** `data.forEach` (app.js:86) taken one creator after another, each run to
      its end: in this model every creator is processed whatever happened to
      the ones before it. Each creator has its own run identifier and its own
      answers from the world. The discarded promises of the `async` callbacks,
      and the process exit an unhandled rejection can cause, are not
      modelled. */
  method ProcessAll(cfg: Config, entries: seq<CreatorEntry>, force: bool, programDir: string,
                    uuids: seq<string>, fxs: seq<Effects>, hook: Webhook)
    returns (outcomes: seq<Outcome>)
    requires |uuids| == |entries| && |fxs| == |entries|
    modifies hook
    ensures outcomes == OutcomesUpTo(cfg, entries, force, programDir, uuids, fxs, |entries|)
    ensures hook.posts == old(hook.posts) + PostsUpTo(cfg, entries, force, programDir, uuids, fxs, |entries|)
  {
    outcomes := [];
    for i := 0 to |entries|
      invariant outcomes == OutcomesUpTo(cfg, entries, force, programDir, uuids, fxs, i)
      invariant hook.posts == old(hook.posts) + PostsUpTo(cfg, entries, force, programDir, uuids, fxs, i)
    {
      outcomes := ProcessNext(cfg, entries, force, programDir, uuids, fxs, i, outcomes, old(hook.posts), hook);
    }
  }

  // Properties of one creator's run.

  /** The listing of the new files, when the downloader ran and both listings
      were taken. */
  predicate Listed(fx: Effects)
  {
    fx.before.Ok? && fx.download.Done? && fx.after.Ok?
  }

  function Added(fx: Effects): seq<string>
    requires Listed(fx)
  {
    NewFiles(fx.before.value, fx.after.value)
  }

  /** A throw before the `try` runs nothing and posts nothing. */
  lemma BeforeListingFailure(cfg: Config, entry: CreatorEntry, force: bool, programDir: string, uuid: string, fx: Effects)
    requires fx.before.Err?
    ensures var t := Run(cfg, entry, force, programDir, uuid, fx);
      t.command == None && t.job == None && t.posts == [] && t.outcome == Aborted(fx.before.message)
  {
  }

  /** Once the directory is listed, the shell runs the downloader command for
      the configured (or default) save directory. */
  lemma RunsDownloaderCommand(cfg: Config, entry: CreatorEntry, force: bool, programDir: string, uuid: string, fx: Effects)
    requires fx.before.Ok?
    ensures Run(cfg, entry, force, programDir, uuid, fx).command
            == Some(DownloaderCommand(entry.sessionId, entry.name, SaveDir(cfg.imagesDir, programDir), force))
  {
  }

  /** A failing downloader (or a failing listing after it) gives exactly one
      post, the error message with the error's text, and no archive. */
  lemma DownloadFailureNotifiesError(cfg: Config, entry: CreatorEntry, force: bool, programDir: string, uuid: string,
                                     fx: Effects)
    requires fx.before.Ok? && (fx.download.Failed? || fx.after.Err?)
    ensures var e := if fx.download.Failed? then fx.download.message else fx.after.message;
      var t := Run(cfg, entry, force, programDir, uuid, fx);
      t.posts == [ErrorMessage(entry.name, e)] && t.outcome == ErrorNotified(e) && t.job == None
  {
  }

  /** When the downloader exits with a failure, the error `execSync` throws
      carries the command line, so the one error post shows the session id
      in its Overview field, right after `--sessid `: the credential is
      posted to the webhook channel. */
  lemma DownloadErrorLeaksSessionId(cfg: Config, entry: CreatorEntry, force: bool, programDir: string, uuid: string,
                                    fx: Effects)
    requires fx.before.Ok?
    requires fx.download
             == Failed(ExecFailureMessage(DownloaderCommand(entry.sessionId, entry.name, SaveDir(cfg.imagesDir, programDir), force)))
    ensures var t := Run(cfg, entry, force, programDir, uuid, fx);
      && |t.posts| == 1 && IsError(t.posts[0]) && |t.posts[0].fields| == 1
      && 54 + |entry.sessionId| <= |t.posts[0].fields[0].value|
      && t.posts[0].fields[0].value[45..54 + |entry.sessionId|] == "--sessid " + entry.sessionId
  {
    var saveDir := SaveDir(cfg.imagesDir, programDir);
    var e := ExecFailureMessage(DownloaderCommand(entry.sessionId, entry.name, saveDir, force));
    DownloadFailureNotifiesError(cfg, entry, force, programDir, uuid, fx);
    MessageKinds(entry.name, "", e, "");
    ExecFailureCarriesSessionId(entry.sessionId, entry.name, saveDir, force);
    CodeBlockShows(e, 41, 50 + |entry.sessionId|);
  }

  /** No new files: nothing is posted and nothing archived. */
  lemma EmptyDiffPostsNothing(cfg: Config, entry: CreatorEntry, force: bool, programDir: string, uuid: string,
                              fx: Effects)
    requires Listed(fx) && Added(fx) == []
    ensures var t := Run(cfg, entry, force, programDir, uuid, fx);
      t.posts == [] && t.outcome == NoNewFiles && t.job == None
  {
  }

  /** With new files and archiving on, a failing zip or a failing move gives
      exactly one post, the error message with that error's text. */
  lemma ArchiveFailureNotifiesError(cfg: Config, entry: CreatorEntry, force: bool, programDir: string, uuid: string,
                                    fx: Effects)
    requires Listed(fx) && |Added(fx)| > 0 && entry.archive
    requires fx.archiving.Failed? || fx.moving.Failed?
    ensures var e := if fx.archiving.Failed? then fx.archiving.message else fx.moving.message;
      var t := Run(cfg, entry, force, programDir, uuid, fx);
      t.posts == [ErrorMessage(entry.name, e)] && t.outcome == ErrorNotified(e)
      && t.job.Some? && t.job.value.files == Added(fx)
  {
  }

  /** New files and no failure: exactly one post, the success message, whose
      overview is the preview of the new files and which links the archive
      exactly when archiving is on; the archive holds the new files, under the
      name shared by its temporary path, final path and URL. */
  lemma NewFilesNotifySuccess(cfg: Config, entry: CreatorEntry, force: bool, programDir: string, uuid: string,
                              fx: Effects)
    requires Listed(fx) && |Added(fx)| > 0
    requires entry.archive ==> fx.archiving.Done? && fx.moving.Done?
    requires fx.delivery.Done?
    ensures var t := Run(cfg, entry, force, programDir, uuid, fx);
      var at := ArchiveLocations(entry.name, uuid, cfg.archiveBasePath, cfg.archiveBaseURL);
      && |t.posts| == 1 && IsSuccess(t.posts[0]) && !IsError(t.posts[0])
      && t.posts[0].fields[0] == Field(OverviewField, CodeBlock(Preview(Added(fx))))
      && (HasArchiveLink(t.posts[0]) <==> entry.archive)
      && t.outcome == SuccessNotified(Preview(Added(fx)), if entry.archive then Some(at.url) else None)
      && (entry.archive <==> t.job.Some?)
      && (entry.archive ==> t.job.value.files == Added(fx) && t.job.value.at == at
                            && t.posts[0].fields == [Field(OverviewField, CodeBlock(Preview(Added(fx)))), ArchiveField(at.url)])
  {
    var t := Run(cfg, entry, force, programDir, uuid, fx);
    MessageKinds(entry.name, Preview(Added(fx)), "", if entry.archive then
      ArchiveLocations(entry.name, uuid, cfg.archiveBasePath, cfg.archiveBaseURL).url else "");
  }

  /** A rejected success post is caught like any other error: the success
      message, then the error message with the rejection's text. */
  lemma FailedDeliveryFallsBackToError(cfg: Config, entry: CreatorEntry, force: bool, programDir: string, uuid: string,
                                       fx: Effects)
    requires Listed(fx) && |Added(fx)| > 0
    requires entry.archive ==> fx.archiving.Done? && fx.moving.Done?
    requires fx.delivery.Failed?
    ensures var t := Run(cfg, entry, force, programDir, uuid, fx);
      && |t.posts| == 2 && IsSuccess(t.posts[0])
      && t.posts[1] == ErrorMessage(entry.name, fx.delivery.message)
      && t.outcome == ErrorNotified(fx.delivery.message)
  {
  }

  function CountSuccesses(posts: seq<Message>): nat
  {
    if posts == [] then 0 else (if IsSuccess(posts[0]) then 1 else 0) + CountSuccesses(posts[1..])
  }

  function CountErrors(posts: seq<Message>): nat
  {
    if posts == [] then 0 else (if IsError(posts[0]) then 1 else 0) + CountErrors(posts[1..])
  }

  /** The four shapes a run's posts can take, matched to its outcome. */
  predicate WellShaped(t: Trace, name: string)
  {
    match t.outcome
    case Aborted(_) => t.posts == []
    case NoNewFiles => t.posts == []
    case SuccessNotified(_, _) => |t.posts| == 1 && IsSuccess(t.posts[0])
    case ErrorNotified(e) =>
      || t.posts == [ErrorMessage(name, e)]
      || (|t.posts| == 2 && IsSuccess(t.posts[0]) && t.posts[1] == ErrorMessage(name, e))
  }

  lemma RunIsWellShaped(cfg: Config, entry: CreatorEntry, force: bool, programDir: string, uuid: string, fx: Effects)
    ensures WellShaped(Run(cfg, entry, force, programDir, uuid, fx), entry.name)
  {
    if Listed(fx) && |Added(fx)| > 0 {
      var m := SuccessMessage(entry.name, Preview(Added(fx)));
      var url := ArchiveLocations(entry.name, uuid, cfg.archiveBasePath, cfg.archiveBaseURL).url;
      assert IsSuccess(m) && IsSuccess(m.(fields := m.fields + [ArchiveField(url)]));
    }
  }

  /** For every input: at most one success post and at most one error post; the
      run ends in an error notification exactly when its last post is the
      error message with that text, in a success notification exactly when its
      only post is a success message, and posts nothing exactly when there
      were no new files or it was aborted before the `try`. */
  lemma RunPostsAtMostOneOfEach(cfg: Config, entry: CreatorEntry, force: bool, programDir: string, uuid: string,
                                fx: Effects)
    ensures var t := Run(cfg, entry, force, programDir, uuid, fx);
      && CountSuccesses(t.posts) <= 1 && CountErrors(t.posts) <= 1
      && (t.outcome.ErrorNotified? <==> |t.posts| > 0 && IsError(t.posts[|t.posts| - 1]))
      && (t.outcome.ErrorNotified? ==> t.posts[|t.posts| - 1] == ErrorMessage(entry.name, t.outcome.error)
                                       && CountErrors(t.posts) == 1)
      && (t.outcome.SuccessNotified? <==> |t.posts| == 1 && IsSuccess(t.posts[0]))
      && (t.posts == [] <==> t.outcome.NoNewFiles? || t.outcome.Aborted?)
  {
    var t := Run(cfg, entry, force, programDir, uuid, fx);
    var name := entry.name;
    RunIsWellShaped(cfg, entry, force, programDir, uuid, fx);
    MessageKinds(name, "", "", "");
    if t.outcome.ErrorNotified? {
      var em := ErrorMessage(name, t.outcome.error);
      assert IsError(em) && !IsSuccess(em);
      if |t.posts| == 2 {
        assert !IsError(t.posts[0]);
        assert t.posts[1..] == [em] && t.posts[1..][1..] == [];
        assert CountSuccesses(t.posts[1..]) == 0 && CountErrors(t.posts[1..]) == 1;
      } else {
        assert t.posts[1..] == [];
      }
    } else if t.outcome.SuccessNotified? {
      assert t.posts[1..] == [];
      assert !IsError(t.posts[0]);
    }
  }

  /** The end-to-end case: archiving off and up to fifteen new names give one
      success post whose overview lists exactly those names, one per line, and
      no archive link. */
  lemma FewNewFilesListedInOverview(cfg: Config, entry: CreatorEntry, force: bool, programDir: string, uuid: string,
                                    fx: Effects)
    requires Listed(fx) && 1 <= |Added(fx)| <= PreviewLimit && NoNewlines(Added(fx))
    requires !entry.archive && fx.delivery.Done?
    ensures var t := Run(cfg, entry, force, programDir, uuid, fx);
      && |t.posts| == 1 && IsSuccess(t.posts[0]) && !HasArchiveLink(t.posts[0])
      && t.outcome.SuccessNotified? && t.posts[0].fields == [Field(OverviewField, CodeBlock(t.outcome.preview))]
      && SplitLines(t.outcome.preview) == Added(fx)
  {
    NewFilesNotifySuccess(cfg, entry, force, programDir, uuid, fx);
    PreviewLines(Added(fx));
  }
}
