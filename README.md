# fanbox-dl-auto: a Dafny model of one batch run

fanbox-dl-auto is a small Node.js driver (`app.js`). For each creator in
`creators.json` it does the following:

- it lists the creator's image directory;
- it runs the external `fanbox-dl` downloader through the shell;
- it lists the directory again and works out which files are new;
- if there are new files, it can zip them into an archive with a random
  name and move that archive to a published location;
- it posts a Discord webhook message: a success message with a preview of
  the new file names, or an error message when any step inside its `try`
  block throws or rejects. An error on the archive's write stream is the
  exception: it is never turned into a rejection, so it is not caught.

This project models the pure core of that driver and proves its properties:

- the file diff (`getNewFiles`);
- the bounded preview of new names;
- the save-directory default and the downloader command line;
- the archive naming;
- the decision that turns the outside world's answers into posts and an
  outcome for one creator;
- the loop over all creators, taken one after another.

Modules, in dependency order:

- `Outcomes`: `Option`, `Result` and `Status` values.
- `Text`: joining and splitting lines, and decimal rendering of counts.
- `Paths`: joining a directory and a file name with `/`, with `Basename` and `Dirname` as its inverse.
- `Diff`: `NewFiles`, the model of `getNewFiles`.
- `Overview`: the preview of at most fifteen names plus a `+K more...` line.
- `Downloader`: the save directory, the command line, and `Words`, a reference reading of that line that splits it on blanks and double quotes. On values drawn from a shell-safe alphabet (`Plain`, `QuoteSafe`) these are the only shell syntax that occurs, so there `Words` reads the line as a POSIX shell does.
- `Archive`: the archive name, its three locations, and the entries handed to the zip library.
- `Notify`: the discord-webhook-node `MessageBuilder` and `Webhook`, as classes whose fields record what was set and what was posted.
- `Creator`: `Run`, the specification of one creator's run as a `Trace`, and `ProcessCreator`, the step-by-step rendering of the `forEach` callback that is proved equal to it. `Trace` records the command handed to the shell, the archive job, the posts in order and the outcome.

Everything the outside world decides is an input to the model, in an
`Effects` value:

- whether a directory listing succeeds, and what it returns;
- whether the downloader exits with success;
- whether the `createArchive` promise resolves or rejects, and whether moving and posting succeed.

`crypto.randomUUID()` and the program's own directory (`__dirname`) are
parameters.

A failure of `createDirectory` or the first `readdirSync` (app.js:93-96) is
not caught, because both run before the `try`. A throw there rejects the
callback's promise: the downloader is never run and nothing is posted
(`Outcome.Aborted`). By contrast, `await webhook.send(successMessage)`
(app.js:156) is inside the `try`. If that post is rejected, the `catch`
posts the error message as well, so the run makes two posts.

## Model

| member | source | states |
|---|---|---|
| Diff.NewFiles | app.js:59 | a name is in the result exactly when it is in the after-listing and not in the before-listing; the result is no longer than the after-listing |
| Diff.NewFilesCount | app.js:59 | every name not in the before-listing keeps its multiplicity from the after-listing; every other name occurs zero times |
| Diff.NewFilesIsSubsequence | app.js:59 | the result keeps the after-listing's order: it is a subsequence of it |
| Diff.NewFilesUnique | app.js:59 | any subsequence of the after-listing with those multiplicities is the result, so order and counts characterise `filter` completely |
| Diff.NewFilesAppend | app.js:59 | the diff of a concatenated after-listing is the concatenation of the diffs |
| Diff.NewFilesDisjoint | app.js:59 | when no after-name was there before, every file is new |
| Diff.NewFilesSelf | app.js:59 | an unchanged directory has no new files |
| Diff.NewFilesOfAddition | app.js:59 | names appended to the before-listing, none of them already present, are exactly the new files |
| Diff.NewFilesBeforeAsSet | app.js:59 | only the set of before-names matters, not their order or repetition |
| Diff.NewFilesExample | app.js:59 | before `[a.jpg, b.jpg]` and after `[a.jpg, b.jpg, c.jpg, d.jpg]` give `[c.jpg, d.jpg]` |
| Text.JoinLines | app.js:122 | `join('\n')`; no contract of its own: `SplitJoin` and `JoinSplit` state that `SplitLines` is its inverse |
| Text.SplitLines | app.js:122 | splitting on newlines gives at least one piece, and no piece holds a newline |
| Text.SplitJoin | app.js:122 | a non-empty list of newline-free names joined with `\n` splits back into the same list |
| Text.JoinSplit | app.js:122 | joining the pieces of a split text with `\n` gives back the text |
| Text.SplitJoinAppend | app.js:122-126 | a non-empty newline-free list joined with `\n`, followed by `\n` and more text, splits into the list followed by the pieces of that text |
| Text.DigitChar | app.js:126 | the digit character's value is the given digit |
| Text.NatToString | app.js:126 | a count's rendering is non-empty, all digits, and has no leading zero unless the count is zero |
| Text.DecimalRoundTrip | app.js:126 | reading the rendered count back as a decimal gives the count |
| Text.NatToStringInjective | app.js:126 | different counts render differently |
| Paths.JoinPath | app.js:144-147 | `path.join` of a directory and a file name, without normalisation; no contract of its own: `SplitJoinPath` and `JoinSplitPath` state that `Basename` and `Dirname` invert it |
| Paths.Basename | app.js:74 | the last path component holds no `/` and is no longer than the path |
| Paths.SplitJoinPath | app.js:144-147 | joining a directory and a `/`-free file name gives a path whose last component is the file and whose directory is the directory |
| Paths.JoinSplitPath | app.js:74 | a path holding a `/` is the join of its directory and its last component |
| Overview.MoreLine | app.js:126 | the `+K more...` line; specified by `MoreLineIsOneLine` and `PreviewHiddenCount` |
| Overview.Preview | app.js:121-127 | `newImagesString`; specified by `PreviewLines`, `PreviewHiddenCount`, `PreviewOfTwenty` and `PreviewOfTen` |
| Overview.LastN | app.js:122 | `slice(-15)`: the result has `min(n, 15)` elements and they are the last ones, in order |
| Overview.MoreLineIsOneLine | app.js:126 | the `+K more...` line is a single line |
| Overview.PreviewLines | app.js:121-127 | read line by line, the preview lists all the new names when there are at most 15; otherwise it lists the last 15 followed by `+K more...` for the `K` hidden ones |
| Overview.PreviewHiddenCount | app.js:124-126 | beyond 15 names, the preview ends in `+` and decimal digits that read back as the number of names not shown, followed by ` more...` |
| Overview.PreviewOfTwenty | app.js:121-127 | twenty names show the last fifteen and `+5 more...` |
| Overview.PreviewOfTen | app.js:121-127 | ten names are all shown and there is no more-line |
| Downloader.Truthy | app.js:90 | the `imagesDir ?` test: the setting is present and not the empty string; used by `SaveDir` and `SaveDirFallback` |
| Downloader.SaveDir | app.js:90 | the save directory is never empty, and it is the `imagesDir` setting whenever that setting is truthy |
| Downloader.SaveDirFallback | app.js:90 | without a truthy setting, the save directory is `images` inside the program's directory |
| Downloader.CommandBase | app.js:99 | the template literal; specified by `CommandShape` and `CommandWords` |
| Downloader.DownloaderCommand | app.js:99-104 | the command after the force check; specified by `CommandShape`, `CommandWords` and `SessionIdWithBlankSplits` |
| Downloader.CommandShape | app.js:99-104 | the command starts with the fixed flags and the three values; it is six characters longer, and ends in ` --all`, exactly when `--force` is set |
| Downloader.CommandWords | app.js:99-104 | read by `Words`, the command gives exactly the program, its flags, the session id, the creator name, the save directory and `--all` under force, provided the session id and the name are non-empty and drawn from letters, digits and `-_./:=@%+,`, and the save directory holds no double quote, backslash, `$` or backquote; on such values blanks and double quotes are the only shell syntax in the line |
| Downloader.SessionIdWithBlankSplits | app.js:99 | an unquoted session id with a blank in it reaches the downloader as two arguments |
| Downloader.EmptySessionIdShifts | app.js:99 | an empty session id adds no argument, so `--creator` lands where the session id belongs and every later argument moves up by one |
| Downloader.ExecFailureMessage | app.js:109 | the message of the error `execSync` throws on a failing exit when error output is not captured: `Command failed: ` and the command; specified by `ExecFailureCarriesSessionId` |
| Downloader.CommandCarriesSessionId | app.js:99 | the session id appears verbatim in the command, right after `--sessid ` at offset 25 |
| Downloader.ExecFailureCarriesSessionId | app.js:99-109 | the failure message of the downloader command holds `--sessid ` and the session id verbatim at offset 41 |
| Archive.ArchiveName | app.js:143 | the archive file name; specified by `ArchiveNameShape` and `ArchiveNameInjective` |
| Archive.ArchiveLocations | app.js:143-147 | the locations share the archive name: when the creator name and the uuid hold no `/`, the temporary path is in `/tmp`, the final path is in the archive base path and the URL is under the base URL, and the last component of each is the archive name |
| Archive.ArchiveNameShape | app.js:143 | the name starts with the creator name and `_new_images-`, ends in `.zip`, and the uuid sits between that prefix and that suffix |
| Archive.ArchiveNameInjective | app.js:141-143 | different uuids give different names for the same creator |
| Archive.ArchiveEntries | app.js:73-76 | there is one zip entry per new file, in order; it is read from the join of the creator directory and the file and stored under the bare file name |
| Notify.CodeBlock | app.js:133 | the fenced code block around an overview text; its use is stated by `Creator.NewFilesNotifySuccess` and `Creator.FewNewFilesListedInOverview` |
| Notify.CodeBlockShows | app.js:167 | the code block shows any slice of its text unchanged, four characters further on |
| Notify.SuccessMessage | app.js:129-137 | the success message's title, description and Overview field; specified by `MessageKinds` and built by `Creator.BuildSuccessMessage` |
| Notify.ArchiveField | app.js:154 | the archive link field; specified by `MessageKinds` (it is what makes `HasArchiveLink` hold) |
| Notify.ErrorMessage | app.js:164-170 | the error message's title, description and Overview field; specified by `MessageKinds` and posted by `Creator.ReportError` |
| Notify.MessageKinds | app.js:129-170 | success and error messages are told apart by their titles; neither carries an archive link until the archive field is added |
| Notify.MessageBuilder.constructor | app.js:129 | a new builder has no title, no description and no fields |
| Notify.MessageBuilder.SetTitle | app.js:130 | only the title changes |
| Notify.MessageBuilder.SetDescription | app.js:131 | only the description changes |
| Notify.MessageBuilder.AddField | app.js:133-154 | the field is appended after the existing ones, and nothing else changes |
| Notify.Webhook.constructor | app.js:43 | a new webhook has posted nothing |
| Notify.Webhook.Send | app.js:156-172 | the message is appended to the posts whatever the delivery result, and that result is returned |
| Creator.Caught | app.js:160-172 | the catch block's trace: one error post after what was posted already; its effect is stated by the `Creator` lemmas below |
| Creator.Deliver | app.js:156 | the awaited success post inside the `try`; specified by `NewFilesNotifySuccess` and `FailedDeliveryFallsBackToError` |
| Creator.Notified | app.js:119-156 | the new-files branch; implemented by `NotifyNewFiles` and specified by `NewFilesNotifySuccess`, `ArchiveFailureNotifiesError` and `FailedDeliveryFallsBackToError` |
| Creator.TryBlock | app.js:107-159 | the `try` block; specified by `DownloadFailureNotifiesError`, `EmptyDiffPostsNothing` and the lemmas on `Notified` |
| Creator.Run | app.js:87-172 | one creator's run as a trace; implemented by `ProcessCreator` and specified by `BeforeListingFailure`, `RunsDownloaderCommand`, `RunIsWellShaped`, `RunPostsAtMostOneOfEach` and the other `Creator` lemmas |
| Creator.BuildPreview | app.js:121-127 | the `+=` construction of `newImagesString` produces the preview |
| Creator.BuildSuccessMessage | app.js:129-137 | the builder chain yields a fresh builder holding the success message |
| Creator.ReportError | app.js:160-172 | the catch block posts exactly one message, the error message with the error's text |
| Creator.NotifyNewFiles | app.js:119-156 | the success branch produces the archive job, outcome and posts of the specification `Notified` |
| Creator.ProcessCreator | app.js:86-173 | the callback run step by step hands the specified command to the shell, asks for the specified archive, and posts the specified messages with the specified outcome (`Run`) |
| Creator.PostsUpTo | app.js:86 | the posts of the first `n` creators in order; what `ProcessAll` has posted |
| Creator.OutcomesUpTo | app.js:86 | the outcomes of the first `n` creators; specified by `OutcomesUpToAt` |
| Creator.OutcomesUpToAt | app.js:86 | in the sequential model, after `n` creators the `k`-th outcome is the outcome of creator `k`'s own run, whatever happened to the others |
| Creator.ProcessNext | app.js:86-173 | one turn of the loop extends the outcomes and posts by those of the next creator |
| Creator.ProcessAll | app.js:86 | the loop over all creators, each run to its end, produces every creator's outcome, in order, and posts every creator's messages, in order |
| Creator.BeforeListingFailure | app.js:93-96 | a failure to create or list the directory runs no command, asks for no archive, posts nothing and aborts |
| Creator.RunsDownloaderCommand | app.js:90-109 | once the directory is listed, the command handed to the shell is the downloader command for the configured or default save directory |
| Creator.DownloadFailureNotifiesError | app.js:107-172 | a failing downloader or a failing second listing posts exactly the error message with that error's text, and no archive is made |
| Creator.DownloadErrorLeaksSessionId | app.js:107-172 | when the downloader fails with the message `execSync` gives, the one error post's Overview field holds `--sessid ` and the session id verbatim: the credential is posted |
| Creator.EmptyDiffPostsNothing | app.js:115-159 | no new files: nothing is posted, nothing archived, and the outcome says so |
| Creator.ArchiveFailureNotifiesError | app.js:139-172 | with archiving on, a rejected `createArchive` promise or a throwing move posts exactly the error message with that error's text, and the archive asked for holds the new files |
| Creator.NewFilesNotifySuccess | app.js:118-156 | new files and no failure post exactly one success message whose overview field is the preview of the new files; it links the archive exactly when archiving is on, and the archive then holds the new files at the computed locations |
| Creator.FailedDeliveryFallsBackToError | app.js:156-172 | a rejected success post is followed by the error message with the rejection's text, two posts in all |
| Creator.RunIsWellShaped | app.js:107-172 | every run's posts take one of four shapes matched to its outcome: none, one success post, one error post, or a success post then an error post |
| Creator.RunPostsAtMostOneOfEach | app.js:107-172 | for every input: at most one success post and at most one error post; the outcome is an error exactly when the last post is an error message, with that text; it is a success exactly when the only post is a success message; nothing is posted exactly when there were no new files or the run aborted |
| Creator.FewNewFilesListedInOverview | app.js:115-156 | with archiving off and one to fifteen newline-free new names, the single success post's overview lists exactly those names, one per line |

## Left out

- File system, process and network calls (`fs.existsSync`, `fs.mkdirSync`, `fs.readdirSync`, `execSync`, `fs.renameSync`, `webhook.send`) are not performed. Their results are inputs (`Effects`), so the model assumes nothing about what a listing returns.
- The zip stream of `createArchive` (app.js:62-79) is not modelled. Compression level, the output stream's `close` event and the archiver's `error` event are reduced to the entries it is given (`ArchiveEntries`) and a success or failure status.
- Creator.ArchiveFailureNotifiesError: `archiving: Failed` stands for the archiver's `error` event (app.js:70), the only thing that rejects `createArchive`'s promise. An error writing the temporary archive (for example `/tmp` full or not writable) is not modelled. In `app.js` the write stream `output` has only a `close` listener (app.js:69); its `error` event has no listener, so Node raises it as an uncaught exception. The `catch` at app.js:160 is never reached, nothing is posted, and the process ends, cutting off the other creators' pending steps as on the `Creator.ProcessAll` line.
- `crypto.randomUUID()` is a parameter: the model does not promise that uuids are unique, only that different uuids give different names.
- Loading `config.json`, `creators.json` and `package.json`, parsing the command line with yargs, and the winston logger (app.js:1-47) are not modelled. The configuration and the creator entries are values, `--force` is a boolean, and log lines have no effect on the model.
- The author, image, colour, timestamp and footer that the message builders set (app.js:132-137, 168-170) are not modelled, because their values never decide the run. A message is its title, description and fields.
- `data.forEach(async ...)` does not await its callbacks: the awaited zip and post of one creator can interleave with the next creator's steps. `ProcessAll` takes creators strictly one after another, so the order of posts between different creators is not modelled.
- `path.join` normalisation (collapsing `//`, resolving `.` and `..`, and the `https://` to `https:/` collapse that `path.join` applies to the archive URL at app.js:147) is not modelled. `JoinPath` inserts one `/`.
- Creator.ProcessAll: runs every creator to its end, so one creator's failure never affects another. In `app.js` the promises of the `async` callbacks are discarded (app.js:86). A throw before the `try` (app.js:93-96, the `Aborted` case) or a rejected error post (app.js:172) is therefore an unhandled rejection. Under Node's default `--unhandled-rejections=throw` (Node 15 and later) that ends the process once the synchronous `forEach` has returned. By then every creator's download has run, but each creator's pending zip, move and webhook post (app.js:150-156, 172) is cut off. So one unreadable creator directory can silence the whole batch. The model records each run's outcome and does not model this process exit.
- Creator.OutcomesUpToAt: "whatever happened to the others" holds in the sequential model only, for the reason given on the `Creator.ProcessAll` line.
- The text of `error.message` is an input. For a failing downloader the model states what Node's `execSync` puts there: with `stdio: 'inherit'` (app.js:109) no error output is captured, so the message is `Command failed: ` followed by the command line (`Downloader.ExecFailureMessage`). The one error post then shows `--sessid` and the session id in its Overview code block (app.js:167), which leaks the credential to the webhook channel (`Creator.DownloadErrorLeaksSessionId`). The texts of other errors (file-system, zip, webhook) are left as inputs.
- `Downloader.Words` reads only blanks and double quotes; backslashes, single quotes, `$` expansion, operators and other shell syntax are not modelled. `CommandWords` and `SessionIdWithBlankSplits` are stated only for values drawn from a shell-safe alphabet; what a shell does with a session id, name or save directory holding other characters (a `;` in the session id runs a second command) is not modelled. An empty session id or name is not excluded by `app.js`; `EmptySessionIdShifts` shows what the empty session id does to the arguments, and the empty name is not modelled further.
- `Diff.NewFiles` compares file names as strings; file-system encodings and case-insensitive file systems are not modelled.
