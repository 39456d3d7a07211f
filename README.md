# Critter: command-line review submission and the review actions

Critter is a Qt client for the Crucible code-review server. This project models three pieces of it:

- **The command-line front end** (`Critter::parseOptions`, `Critter::readStdIn`, `Critter::loadPatch`).
  It turns the parsed options into a populated Review: author, id, title, objectives, project, start flag, creator, moderator, reviewers, repository, changesets and patches.
  It then asks the connector to create or update that review.
  The changesets and patches come from the `changeset` and `patch` options, or, when neither is given, from standard input.
  There, a first line starting with `diff` or `Index:` makes the whole input a patch, and the last line starting with `Committed` gives a changeset.
- **`AddPatchesAction`**: the Review's patches are copied onto a stack and posted one at a time to `<id>/addPatch`.
  Each successful reply pops and posts the next patch. The empty stack emits `patchesAdded`, and a failed reply is only logged.
- **`StartReviewAction`**: one POST to `<id>/transition?action=action:approveReview`, and `reviewStarted` when it succeeds.

Modules:

- `Reviews` (`reviews.dfy`): the Review object, a class with one field per property and a `Snapshot()` value.
- `StdinScrape` (`stdin_scrape.dfy`): the specification of `readStdIn`.
  It covers `std::getline`, the lines the `eof()` loop processes, the scraped patch and changeset, and the revision rewrite.
- `Cli` (`critter.dfy`): the `Critter` class. Its methods take the source's steps in the source's order; `parseOptions` is split into a few helper methods, one per group of options.
  It also holds a declarative `Resolve` function: the outcome of `parseOptions` as a value.
  `ParseOptions` is proved equal to `Resolve`, and the properties are lemmas about `Resolve`.
- `Actions` (`actions.dfy`): the effects the actions have on the outside world.
  These are a POST with a body, a POST without one, or an emitted signal, recorded as a trace.
- `AddPatches` (`add_patches.dfy`) and `StartReview` (`start_review.dfy`): each has three parts.
  - A pure step function per callback.
  - A `Deliver` function that feeds a sequence of communicator replies to the action.
  - A class whose methods are proved to perform exactly those steps on their fields.

  The number of outstanding calls is a ghost counter, and a reply callback requires one to be outstanding.

Inputs from outside the program are parameters:

- Standard input is the text `stdin` that has not been read yet.
- The file system is a map from each readable path to its contents. A path not in the map cannot be opened.
- The revision rewrite (`extractRevision`) is a field of `Critter`.
- The connector's user name is the `user` field of the `Connector` that `Critter` holds; a missing connector is `null`.

## Model

| member | source | states |
|---|---|---|
| Cli.Critter.constructor | src/Critter.cpp:22-36 | the front end starts with the given connector (`null` for the connector-less constructor), options and unread input, with nothing logged and no quit requested |
| Cli.Critter.ParseOptions | src/Critter.cpp:42-147 | the run equals `Resolve`. Without a connector, or with both create and update, it logs the reason, reads nothing and leaves the connector untouched. Otherwise the connector holds a fresh Review with exactly the resolved fields, and gets one create or update call when asked for. Input is consumed exactly when it is read |
| Cli.Critter.Submit | src/Critter.cpp:59-147 | once both guards pass: a fresh Review gets its author when creating, is then handed to the connector and filled from the other options and the sources, and the call matching the operation is made |
| Cli.Critter.Populate | src/Critter.cpp:71-138 | a fresh Review whose author is already chosen ends up with all the option fields and the chosen changesets and patches |
| Cli.Critter.ApplyNamingOptions | src/Critter.cpp:71-91 | id, name and description are taken from `update`, `title` and `objectives` when given, and kept otherwise. The project is the `project` option or "CR" |
| Cli.Critter.ApplyPeopleOptions | src/Critter.cpp:93-116 | start only ever turns the flag on; creator, moderator and repository are set when given; the reviewers are appended in the order given |
| Cli.Critter.AttachSources | src/Critter.cpp:118-138 | changesets and patches are appended from the options or from standard input as `Sources` says; an unreadable patch file is logged; input is consumed only when read |
| Cli.Critter.LoadPatch | src/Critter.cpp:154-169 | the file's contents, or empty bytes and a logged diagnostic when it cannot be opened |
| Cli.Critter.ScanStdIn | src/Critter.cpp:172-193 | after the getline loop, `ba` is every complete line followed by "\n"; `isPatch` tells whether the first line is a patch header; the revision comes from the last commit line; the input is used up |
| Cli.Critter.ReadStdIn | src/Critter.cpp:171-202 | the Review gains the scraped patch and the scraped changeset, each only when present, and nothing else changes |
| Cli.PatchFileContents | src/Critter.cpp:154-169 | what `loadPatch` returns: the contents of a readable file, empty bytes for one that cannot be opened |
| Cli.OptionFields | src/Critter.cpp:59-116 | the Review fields taken from the options alone: author only when creating (option, else the connector's user), id only when updating, project or "CR", the rest as given or as a new Review has them |
| Cli.ReadsStdIn | src/Critter.cpp:118-138 | standard input is read iff neither `changeset` nor `patch` is given |
| Cli.Sources | src/Critter.cpp:118-138 | the changesets and patches: scraped from standard input when it is read, otherwise the `changeset` list and the patch file's contents unless empty |
| Cli.Resolve | src/Critter.cpp:42-147 | the outcome of `parseOptions` as a value: an abort with its message, or the Review's fields, the connector call, whether stdin is read, and the messages logged |
| Cli.AbortsOnlyOnGuards | src/Critter.cpp:43-57 | nothing is built exactly when there is no connector or both create and update are given; the missing connector is reported first |
| Cli.ProjectDefaultsToCR | src/Critter.cpp:86-91 | the project is the `project` option when given, otherwise exactly "CR" |
| Cli.AuthorAndIdByOperation | src/Critter.cpp:61-74 | the author is set only when creating, from `author` or else the connector's user. The id is set only when updating, to the `update` value. The connector call matches: create, update or none |
| Cli.OptionListsInOrder | src/Critter.cpp:106-124 | reviewers and changesets from the options are the Review's, in the order given |
| Cli.StdinReadOnlyWithoutSources | src/Critter.cpp:118-138 | standard input is read iff neither `changeset` nor `patch` is given; otherwise the outcome does not depend on it at all |
| Cli.FilePatchAddedOnlyIfNonEmpty | src/Critter.cpp:126-133 | a patch file adds exactly its contents when non-empty; an empty file adds nothing; an unopenable file adds nothing and is reported |
| Cli.DiffOnStdinBecomesOnePatch | src/Critter.cpp:180-197 | for newline-terminated input read from stdin, the Review gets one patch, the whole input, iff the input begins with "diff" or "Index:", and no patch otherwise |
| Cli.StdinChangesetFromLastCommit | src/Critter.cpp:188-201 | stdin adds at most one changeset: the rewritten last commit line, with no commit line after it; none when there is no commit line or the rewrite is empty |
| StdinScrape.GetLine | src/Critter.cpp:180 | a line is split off exactly when the input holds a newline; the input is the line, the newline and the rest; the line holds no newline |
| StdinScrape.CompleteLines | src/Critter.cpp:180-193 | the lines the `getline`/`eof()` loop processes: every newline-terminated line, in order; an unterminated last piece is not processed |
| StdinScrape.Joined | src/Critter.cpp:180-193 | the text `ba` accumulates: each processed line followed by "\n" |
| StdinScrape.LastRevision | src/Critter.cpp:176-191 | `commitRevision` after the loop: the rewrite of the last commit line, or empty when there is none |
| StdinScrape.Scrape | src/Critter.cpp:195-201 | what `readStdIn` adds: the accumulated text as a patch iff the first line is a patch header, and the revision as a changeset iff it is not empty |
| StdinScrape.CapturedPrefix | src/Critter.cpp:180-193 | the text the loop accumulates is the longest newline-terminated prefix of the input: the unterminated tail is dropped |
| StdinScrape.WholeStreamCaptured | src/Critter.cpp:180-193 | input that is empty or ends with a newline is accumulated whole |
| StdinScrape.JoinedAppend | src/Critter.cpp:192 | appending a line and its newline to `ba` extends the accumulated text by exactly that |
| StdinScrape.LastCommitIndex | src/Critter.cpp:188-191 | the index of the last commit line: it is a commit line and none follows it; -1 when there is none |
| StdinScrape.LastRevisionAppend | src/Critter.cpp:188-191 | a new commit line replaces the revision; any other line keeps it |
| StdinScrape.LastCommitWins | src/Critter.cpp:188-191 | in a concatenation, the last commit line of the later part wins, and the earlier part counts only when the later part has none |
| StdinScrape.ChangesetFromLastCommit | src/Critter.cpp:188-201 | the changeset depends only on the last part that holds a commit line; lines without one never change it |
| StdinScrape.PatchDecidedByFirstLine | src/Critter.cpp:182-187 | lines after the first never affect whether the input is a patch |
| StdinScrape.FirstLinePrefix | src/Critter.cpp:183 | a header test on the first line with its newline agrees with the same test on the whole input |
| StdinScrape.PatchDetectedFromStreamStart | src/Critter.cpp:182-187 | when the input holds a complete line, it is a patch iff it begins with "diff" or "Index:" |
| StdinScrape.PatchIsCapturedStream | src/Critter.cpp:192-197 | a detected patch is the whole accumulated text, which is the whole input when it ends with a newline |
| StdinScrape.GreedyRevision | src/Critter.cpp:190 | the rewrite as written: with a digit present, the result is the single last digit; without one, the line is unchanged |
| StdinScrape.GreedyKeepsLastDigit | src/Critter.cpp:190 | for text, then a run of digits, then text without digits, the rewrite as written keeps only the run's last digit |
| StdinScrape.CommitLineAsWritten | src/Critter.cpp:188-201 | "Committed revision 42 to trunk." gives changeset "2" under the rewrite as written |
| StdinScrape.LastDigitIndex | src/Critter.cpp:190 | the position of the last digit, with no digit after it; -1 when there is no digit |
| StdinScrape.FirstDigitIndex | src/Critter.cpp:190 | the position of the first digit, with no digit before it; -1 when there is no digit |
| StdinScrape.DigitRun | src/Critter.cpp:190 | the longest prefix made of digits only |
| StdinScrape.FirstDigitRun | src/Critter.cpp:190 | the corrected rewrite: the first maximal run of digits, or the line unchanged when it has none |
| StdinScrape.RevisionNumberExtracted | src/Critter.cpp:190 | for text without digits, a number, then text not starting with a digit, the corrected rewrite gives exactly the number |
| StdinScrape.CommitLineCorrected | src/Critter.cpp:188-201 | "Committed revision 42 to trunk." gives changeset "42" under the corrected rewrite |
| AddPatches.QueueStep | src/crucible/actions/reviews/AddPatchesAction.cpp:49-58 | `doPatchQueue` as a step: an empty stack emits `patchesAdded`; otherwise the top blob is popped and posted to `<id>/addPatch`, one more call outstanding |
| AddPatches.RunStep | src/crucible/actions/reviews/AddPatchesAction.cpp:38-47 | `run` as a step: the stack becomes the Review's patches, and the queue starts only when there are any |
| AddPatches.SuccessStep | src/crucible/actions/reviews/AddPatchesAction.cpp:64-66 | `callSuccessful` as a step: the call is answered and the queue moves on |
| AddPatches.FailureStep | src/crucible/actions/reviews/AddPatchesAction.cpp:60-62 | `callFailed` as a step: the call is answered and nothing else changes |
| AddPatches.Deliver | src/crucible/actions/reviews/AddPatchesAction.cpp:60-66 | the state after a sequence of replies, each answering the outstanding call; none is delivered while no call is outstanding |
| AddPatches.AddPatchesAction.Run | src/crucible/actions/reviews/AddPatchesAction.cpp:38-47 | the stack is cleared and refilled with exactly the Review's patches in order; the queue starts only when there are any; the Review is unchanged |
| AddPatches.AddPatchesAction.DoPatchQueue | src/crucible/actions/reviews/AddPatchesAction.cpp:49-58 | an empty stack emits `patchesAdded`. Otherwise exactly the top blob is popped and posted to `<id>/addPatch`, which leaves one more call outstanding |
| AddPatches.AddPatchesAction.CallFailed | src/crucible/actions/reviews/AddPatchesAction.cpp:60-62 | only the outstanding call is answered; stack and trace are unchanged |
| AddPatches.AddPatchesAction.CallSuccessful | src/crucible/actions/reviews/AddPatchesAction.cpp:64-66 | the outstanding call is answered and the queue takes its next step |
| AddPatches.PopOrderPosts | src/crucible/actions/reviews/AddPatchesAction.cpp:56-57 | draining a stack makes one post per blob |
| AddPatches.PopOrderPostsAt | src/crucible/actions/reviews/AddPatchesAction.cpp:40-42 | the i-th post carries the i-th patch from the end: blobs go out in reverse of the Review's order |
| AddPatches.PopOrderPostsOnlyPosts | src/crucible/actions/reviews/AddPatchesAction.cpp:57 | every post of the drain goes to `<id>/addPatch`, and none is a signal |
| AddPatches.DrainSucceeds | src/crucible/actions/reviews/AddPatchesAction.cpp:49-66 | with one call outstanding, the size of the stack plus one successes post every remaining blob, top first, then emit `patchesAdded` and leave nothing outstanding; further replies change nothing |
| AddPatches.AllSucceed | src/crucible/actions/reviews/AddPatchesAction.cpp:38-66 | with N >= 1 patches and N successful replies, exactly N posts are made, in reverse patch order, followed by one `patchesAdded`; any further replies change nothing |
| AddPatches.NoSignalBeforeLastSuccess | src/crucible/actions/reviews/AddPatchesAction.cpp:49-58 | after k < N successes the trace holds exactly the first k + 1 posts and no signal; one call is still outstanding |
| AddPatches.StallAfterFailure | src/crucible/actions/reviews/AddPatchesAction.cpp:60-62 | after a failure the stack is kept, no further post is made and `patchesAdded` is never emitted, whatever replies follow |
| AddPatches.AtMostOneOutstanding | src/crucible/actions/reviews/AddPatchesAction.cpp:45-65 | posts come only from `run` and successful replies, so at most one call is outstanding; a failure adds no effect |
| AddPatches.OutstandingStaysAtMostOne | src/crucible/actions/reviews/AddPatchesAction.cpp:45-65 | from at most one outstanding call, any sequence of replies keeps at most one outstanding |
| AddPatches.DeliverExtendsTrace | src/crucible/actions/reviews/AddPatchesAction.cpp:49-66 | replies only ever append to the trace |
| AddPatches.RunLoadsReviewPatches | src/crucible/actions/reviews/AddPatchesAction.cpp:38-46 | `run` ignores the old stack contents. With patches, it posts the last one and leaves the rest stacked; with none, it posts nothing |
| AddPatches.NoPatchesNoEffects | src/crucible/actions/reviews/AddPatchesAction.cpp:44-46 | without patches no post is made and `patchesAdded` is never emitted, whatever replies arrive |
| StartReview.StartRun | src/crucible/actions/reviews/StartReviewAction.cpp:38-40 | `run` as a step: one POST to the transition path, one call outstanding |
| StartReview.StartSucceeded | src/crucible/actions/reviews/StartReviewAction.cpp:46-49 | `callSuccessful` as a step: `reviewStarted` is emitted and the call answered |
| StartReview.StartFailed | src/crucible/actions/reviews/StartReviewAction.cpp:42-44 | `callFailed` as a step: only the call is answered |
| StartReview.DeliverStart | src/crucible/actions/reviews/StartReviewAction.cpp:42-49 | the state after a sequence of replies, each answering the outstanding call |
| StartReview.StartReviewAction.Run | src/crucible/actions/reviews/StartReviewAction.cpp:38-40 | one POST to `<id>/transition?action=action:approveReview`; the Review is unchanged |
| StartReview.StartReviewAction.CallFailed | src/crucible/actions/reviews/StartReviewAction.cpp:42-44 | only the outstanding call is answered: nothing is emitted or posted |
| StartReview.StartReviewAction.CallSuccessful | src/crucible/actions/reviews/StartReviewAction.cpp:46-49 | `reviewStarted` is emitted and the call answered |
| StartReview.OneShot | src/crucible/actions/reviews/StartReviewAction.cpp:38-49 | a run makes exactly one POST, to the transition path. `reviewStarted` follows iff the first reply is a success. A failure is not retried and later replies change nothing |
| StartReview.SignalOnlyAnswersPost | src/crucible/actions/reviews/StartReviewAction.cpp:42-49 | replies only append `reviewStarted` signals, at most one per outstanding call |

## Left out

- I/O:
  - Reading files and standard input is replaced by the `files` map and the `stdin` text.
  - Debug and error output becomes the `Diagnostic` log, keeping only the messages that matter.
  - `qApp->quit()` becomes the `quitRequested` flag.
  - The network becomes the effect trace and the replies fed to `Deliver`.
- `Review.h`, `CrucibleConnector` and the REST communicator are not part of this model.
  - The Review's setters and adders are plain field updates.
  - A new Review is assumed to have every text field empty, no reviewers, changesets or patches, and `shouldStart` false (`Reviews.EmptyReview`). `Cli.AuthorAndIdByOperation`'s empty author and id, and every field `parseOptions` leaves alone, rest on that assumption.
  - `setReview`, `createReview` and `updateReview` only record that they were called.
  - `Review::patchData`, the envelope put around each blob, is not modelled: the trace records the raw blob.
- Qt signal and slot wiring, `QTimer::singleShot` and the asynchronous delivery are left out. Each callback is a method call, and `Deliver` feeds a sequence of replies.
- The conversions between `std::string`, `QString` and `QByteArray` are not modelled. Text and bytes are both character sequences.
- The reply's error string is not modelled; it is only logged.
- `StdinScrape.GreedyRevision` models the greedy `.*(\d+).*` replacement. It assumes that `.` also matches the newline that `readStdIn` appends to each line.
- `Critter::testConnection`, `MainWindow`, `setServer` in `CrucibleConnectorBase.h`, `AddChangesetsAction` and `CreateReviewAction` are not part of this model. The last two are only declared in the available files.
- A few points where the source behaves differently from what one might assume are modelled as the code does them:
  - A failed patch upload does not move on to the next patch: the queue stalls (`AddPatches.StallAfterFailure`).
  - Patch detection looks at the very first line of input, even an empty one, not at the first non-empty line.
  - The revision is rewritten to its last digit (see Findings).

## Findings

| source | as written | input that shows it | evidently intended | confidence | as-written member | corrected member |
|---|---|---|---|---|---|---|
| src/Critter.cpp:190 | `replace(QRegExp(".*(\\d+).*"), "\\1")`: the leading greedy `.*` takes all digits but the last, so the capture is one digit | a line "Committed revision 42 to trunk." gives changeset "2" | the revision number, "42" | high for multi-digit revisions, not executed | StdinScrape.CommitLineAsWritten | StdinScrape.CommitLineCorrected |

`StdinScrape.GreedyRevision` and `StdinScrape.GreedyKeepsLastDigit` state the behaviour as written for any line of the form text, digits, text.
`StdinScrape.FirstDigitRun` and `StdinScrape.RevisionNumberExtracted` state the corrected behaviour.
The front end takes the rewrite as its `extractRevision` field, so every property of `Cli` holds under either definition.
