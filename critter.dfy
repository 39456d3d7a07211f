/** The command-line front end, `Critter`: it turns the parsed command-line options into a
    populated Review, reading a patch file or standard input, and asks the connector to create or
    update the review. */
module Cli {
  import opened Wrappers
  import opened Reviews
  import opened StdinScrape

  /** The options of one invocation. A flag is a bool, a valued option an Option. */
  datatype Options = Options(
    create: bool,
    update: Option<string>,
    author: Option<string>,
    title: Option<string>,
    objectives: Option<string>,
    project: Option<string>,
    start: bool,
    creator: Option<string>,
    moderator: Option<string>,
    reviewers: Option<seq<string>>,
    repository: Option<string>,
    changeset: Option<seq<string>>,
    patch: Option<string>)

  /** The messages written to the diagnostic stream. */
  datatype Diagnostic =
    | MissingConnector          // "No crucible connector!"
    | CreateAndUpdate           // "You can't create and update a review at the same time!"
    | UnreadablePatch(path: string)  // "Could not open patch ..."

  /** The request made of the connector once the Review is built. */
  datatype Operation = CreateCall | UpdateCall

  /** What one run of `parseOptions` amounts to. */
  datatype Resolution =
    | Aborted(reason: Diagnostic)
    | Resolved(review: ReviewFields, call: Option<Operation>, readsStdIn: bool, diagnostics: seq<Diagnostic>)

  /** What `loadPatch` returns: the file's contents, or nothing when it cannot be opened.
      `files` maps each readable path to its contents. */
  function PatchFileContents(files: map<string, string>, path: string): string {
    if path in files then files[path] else ""
  }

  /** The fields `parseOptions` takes from the options alone: the author only when creating
      (the `author` option, else the connector's user), the id only when updating, the project
      "CR" unless one is given; every other field as given, or as a fresh Review has it. */
  function OptionFields(options: Options, user: string): ReviewFields {
    EmptyReview.(
      author := if options.create then options.author.GetOr(user) else EmptyReview.author,
      id := options.update.GetOr(EmptyReview.id),
      name := options.title.GetOr(EmptyReview.name),
      description := options.objectives.GetOr(EmptyReview.description),
      project := options.project.GetOr("CR"),
      shouldStart := options.start,
      creator := options.creator.GetOr(EmptyReview.creator),
      moderator := options.moderator.GetOr(EmptyReview.moderator),
      reviewers := options.reviewers.GetOr([]),
      repository := options.repository.GetOr(EmptyReview.repository))
  }

  /** Standard input is read only when neither changesets nor a patch file were given. */
  predicate ReadsStdIn(options: Options) {
    options.changeset.None? && options.patch.None?
  }

  /** The changesets and patches of the Review: from standard input when it is read, otherwise
      the `changeset` option's list and the patch file's contents unless they are empty. */
  function Sources(options: Options, files: map<string, string>, input: string,
                   extractRevision: string -> string): (seq<string>, seq<Patch>)
  {
    if ReadsStdIn(options) then
      var scraped := Scrape(CompleteLines(input), extractRevision);
      (scraped.changeset.ToSeq(), scraped.patch.ToSeq())
    else
      var filePatch := if options.patch.Some? then PatchFileContents(files, options.patch.value) else "";
      (options.changeset.GetOr([]), if filePatch != "" then [filePatch] else [])
  }

  /** The outcome of `parseOptions`: `user` is the connector's user name, None when there is no
      connector; `input` is all of standard input. */
  function Resolve(options: Options, user: Option<string>, files: map<string, string>, input: string,
                   extractRevision: string -> string): Resolution
  {
    if user.None? then Aborted(MissingConnector)
    else if options.create && options.update.Some? then Aborted(CreateAndUpdate)
    else
      var sources := Sources(options, files, input, extractRevision);
      Resolved(
        OptionFields(options, user.value).(changesets := sources.0, patches := sources.1),
        if options.create then Some(CreateCall) else if options.update.Some? then Some(UpdateCall) else None,
        ReadsStdIn(options),
        if options.patch.Some? && options.patch.value !in files then [UnreadablePatch(options.patch.value)] else [])
  }

  /** `parseOptions` gives up before building anything exactly when there is no connector, or when
      both create and update are asked for; the missing connector is checked first. */
  lemma AbortsOnlyOnGuards(options: Options, user: Option<string>, files: map<string, string>, input: string,
                           extractRevision: string -> string)
    ensures var r := Resolve(options, user, files, input, extractRevision);
      && (r.Aborted? <==> user.None? || (options.create && options.update.Some?))
      && (user.None? ==> r.reason == MissingConnector)
      && (user.Some? && options.create && options.update.Some? ==> r.reason == CreateAndUpdate)
  {
  }

  /** The project is the `project` option when given and "CR" otherwise. */
  lemma ProjectDefaultsToCR(options: Options, user: string, files: map<string, string>, input: string,
                            extractRevision: string -> string)
    requires !(options.create && options.update.Some?)
    ensures var r := Resolve(options, Some(user), files, input, extractRevision);
      r.Resolved? && r.review.project == (if options.project.Some? then options.project.value else "CR")
  {
  }

  /** The author is set only when creating, from the `author` option or else the connector's user;
      the id only when updating, to the `update` value; and the matching connector call is made. */
  lemma AuthorAndIdByOperation(options: Options, user: string, files: map<string, string>, input: string,
                               extractRevision: string -> string)
    requires !(options.create && options.update.Some?)
    ensures var r := Resolve(options, Some(user), files, input, extractRevision);
      && r.Resolved?
      && (options.create ==>
            && r.review.author == (if options.author.Some? then options.author.value else user)
            && r.review.id == "" && r.call == Some(CreateCall))
      && (options.update.Some? ==>
            && r.review.author == "" && r.review.id == options.update.value && r.call == Some(UpdateCall))
      && (!options.create && options.update.None? ==> r.review.author == "" && r.review.id == "" && r.call == None)
  {
  }

  /** Reviewers and changesets given as options are the Review's, in the order given. */
  lemma OptionListsInOrder(options: Options, user: string, files: map<string, string>, input: string,
                           extractRevision: string -> string)
    requires !(options.create && options.update.Some?)
    ensures var r := Resolve(options, Some(user), files, input, extractRevision);
      && r.Resolved?
      && (options.reviewers.Some? ==> r.review.reviewers == options.reviewers.value)
      && (options.reviewers.None? ==> r.review.reviewers == [])
      && (options.changeset.Some? ==> r.review.changesets == options.changeset.value)
  {
  }

  /** Standard input is read exactly when neither changesets nor a patch file are given; otherwise
      what it holds makes no difference. */
  lemma StdinReadOnlyWithoutSources(options: Options, user: string, files: map<string, string>,
                                    input: string, other: string, extractRevision: string -> string)
    requires !(options.create && options.update.Some?)
    ensures var r := Resolve(options, Some(user), files, input, extractRevision);
      r.Resolved? && (r.readsStdIn <==> options.changeset.None? && options.patch.None?)
    ensures options.changeset.Some? || options.patch.Some? ==>
      Resolve(options, Some(user), files, input, extractRevision)
      == Resolve(options, Some(user), files, other, extractRevision)
  {
  }

  /** A patch file adds one patch, its contents, unless they are empty; a file that cannot be
      opened adds none and is reported. */
  lemma FilePatchAddedOnlyIfNonEmpty(options: Options, user: string, files: map<string, string>, input: string,
                                     extractRevision: string -> string)
    requires !(options.create && options.update.Some?) && options.patch.Some?
    ensures var r := Resolve(options, Some(user), files, input, extractRevision);
      var path := options.patch.value;
      && r.Resolved?
      && (path in files && files[path] != "" ==> r.review.patches == [files[path]])
      && (path in files && files[path] == "" ==> r.review.patches == [])
      && (path !in files ==> r.review.patches == [] && r.diagnostics == [UnreadablePatch(path)])
      && (path in files ==> r.diagnostics == [])
  {
  }

  /** When standard input is read and ends with a newline: the Review gets one patch exactly when
      the input starts like a diff, and that patch is the whole input. */
  lemma DiffOnStdinBecomesOnePatch(options: Options, user: string, files: map<string, string>, input: string,
                                   extractRevision: string -> string)
    requires !(options.create && options.update.Some?) && ReadsStdIn(options)
    requires input != [] && input[|input| - 1] == '\n'
    ensures var r := Resolve(options, Some(user), files, input, extractRevision);
      && r.Resolved?
      && (IsPatchHeader(input) ==> r.review.patches == [input])
      && (!IsPatchHeader(input) ==> r.review.patches == [])
  {
    assert input[|input| - 1] in input;
    PatchDetectedFromStreamStart(input, extractRevision);
    PatchIsCapturedStream(input, extractRevision);
  }

  /** From standard input the Review gets at most one changeset: the revision of the last commit
      line, when there is one and its revision is not empty. */
  lemma StdinChangesetFromLastCommit(options: Options, user: string, files: map<string, string>, input: string,
                                     extractRevision: string -> string)
    requires !(options.create && options.update.Some?) && ReadsStdIn(options)
    ensures var r := Resolve(options, Some(user), files, input, extractRevision);
      var lines := CompleteLines(input);
      var k := LastCommitIndex(lines);
      && r.Resolved?
      && |r.review.changesets| <= 1
      && (r.review.changesets != [] ==>
            0 <= k && r.review.changesets == [extractRevision(lines[k] + "\n")]
            && forall j :: k < j < |lines| ==> !IsCommitLine(lines[j] + "\n"))
      && (r.review.changesets == [] ==> k < 0 || extractRevision(lines[k] + "\n") == "")
  {
  }

  /** The connector the front end drives: it is handed the Review and then asked to create or
      update it. What those requests do further is not part of this module. */
  class Connector {
    const user: string
    var review: Review?
    var calls: seq<Operation>

    constructor (user: string)
      ensures this.user == user && review == null && calls == []
    {
      this.user := user;
      review, calls := null, [];
    }

    method SetReview(r: Review)
      modifies this
      ensures review == r && calls == old(calls)
    {
      review := r;
    }

    method CreateReview()
      modifies this
      ensures review == old(review) && calls == old(calls) + [CreateCall]
    {
      calls := calls + [CreateCall];
    }

    method UpdateReview()
      modifies this
      ensures review == old(review) && calls == old(calls) + [UpdateCall]
    {
      calls := calls + [UpdateCall];
    }
  }

  class Critter {
    const connector: Connector?
    const options: Options
    /** Readable files, by path, for `loadPatch`. */
    const files: map<string, string>
    /** The rewrite `readStdIn` applies to a commit line to get the revision. */
    const extractRevision: string -> string
    /** Standard input not yet read. */
    var stdin: string
    /** Messages written to the diagnostic stream. */
    var log: seq<Diagnostic>
    /** Whether the application has been asked to quit. */
    var quitRequested: bool

    constructor (connector: Connector?, options: Options, files: map<string, string>, stdin: string,
                 extractRevision: string -> string)
      ensures this.connector == connector && this.options == options && this.files == files
      ensures this.stdin == stdin && this.extractRevision == extractRevision
      ensures log == [] && !quitRequested
    {
      this.connector, this.options, this.files := connector, options, files;
      this.stdin, this.extractRevision := stdin, extractRevision;
      log, quitRequested := [], false;
    }

    /** The connector's user name, or None without a connector. */
    function User(): Option<string> {
      if connector == null then None else Some(connector.user)
    }

    method LoadPatch(path: string) returns (data: string)
      modifies this`log
      ensures data == PatchFileContents(files, path)
      ensures log == old(log) + (if path in files then [] else [UnreadablePatch(path)])
    {
      if path !in files {
        log := log + [UnreadablePatch(path)];
        return "";
      }
      data := files[path];
    }

    /** The `while (!getline(...).eof())` loop of `readStdIn`: what it leaves in `ba`, `isPatch`
        and `commitRevision`. */
    method ScanStdIn() returns (ba: string, isPatch: bool, commitRevision: string)
      modifies this`stdin
      ensures var lines := CompleteLines(old(stdin));
        && ba == Joined(lines)
        && isPatch == (lines != [] && IsPatchHeader(lines[0] + "\n"))
        && commitRevision == LastRevision(lines, extractRevision)
      ensures stdin == ""
    {
      ba, isPatch, commitRevision := "", false, "";
      var firstLine := true;
      ghost var done: seq<string> := [];
      var next := GetLine(stdin);
      while next.Some?
        invariant next == GetLine(stdin)
        invariant CompleteLines(old(stdin)) == done + CompleteLines(stdin)
        invariant ba == Joined(done)
        invariant firstLine == (done == [])
        invariant isPatch == (done != [] && IsPatchHeader(done[0] + "\n"))
        invariant commitRevision == LastRevision(done, extractRevision)
        decreases |stdin|
      {
        var line, rest := next.value.0, next.value.1;
        ghost var done' := done + [line];
        assert CompleteLines(old(stdin)) == done' + CompleteLines(rest) by {
          assert CompleteLines(stdin) == [line] + CompleteLines(rest);
        }
        stdin := rest;
        var s := line + "\n";
        if firstLine {
          if IsPatchHeader(s) {
            isPatch := true;
          }
          firstLine := false;
        }
        if IsCommitLine(s) {
          commitRevision := extractRevision(s);
        }
        ba := ba + s;
        assert ba == Joined(done') by {
          JoinedAppend(done, line);
        }
        assert commitRevision == LastRevision(done', extractRevision) by {
          LastRevisionAppend(done, line, extractRevision);
        }
        assert done'[0] == if done == [] then line else done[0];
        done := done';
        next := GetLine(stdin);
      }
      assert CompleteLines(stdin) == [];
      assert done == CompleteLines(old(stdin));
      // the final getline consumed what was left: a line without a newline, or nothing
      stdin := "";
    }

    method ReadStdIn(review: Review)
      modifies this`stdin, review
      ensures var scraped := Scrape(CompleteLines(old(stdin)), extractRevision);
        review.Snapshot() == old(review.Snapshot()).(
          patches := old(review.patches) + scraped.patch.ToSeq(),
          changesets := old(review.changesets) + scraped.changeset.ToSeq())
      ensures stdin == ""
    {
      var ba, isPatch, commitRevision := ScanStdIn();
      if isPatch {
        review.patches := review.patches + [ba];
      }
      if commitRevision != "" {
        review.changesets := review.changesets + [commitRevision];
      }
    }

    /** The `update`, `title`, `objectives` and `project` steps of `parseOptions`. */
    method ApplyNamingOptions(review: Review)
      modifies review
      ensures review.Snapshot() == old(review.Snapshot()).(
        id := options.update.GetOr(old(review.id)),
        name := options.title.GetOr(old(review.name)),
        description := options.objectives.GetOr(old(review.description)),
        project := options.project.GetOr("CR"))
    {
      if options.update.Some? {
        review.SetId(options.update.value);
      }
      if options.title.Some? {
        review.SetName(options.title.value);
      }
      if options.objectives.Some? {
        review.SetDescription(options.objectives.value);
      }
      if options.project.Some? {
        review.SetProject(options.project.value);
      } else {
        review.SetProject("CR");
      }
    }

    /** The `start`, `creator`, `moderator`, `reviewers` and `repository` steps of `parseOptions`. */
    method ApplyPeopleOptions(review: Review)
      modifies review
      ensures review.Snapshot() == old(review.Snapshot()).(
        shouldStart := options.start || old(review.shouldStart),
        creator := options.creator.GetOr(old(review.creator)),
        moderator := options.moderator.GetOr(old(review.moderator)),
        reviewers := old(review.reviewers) + options.reviewers.GetOr([]),
        repository := options.repository.GetOr(old(review.repository)))
    {
      if options.start {
        review.SetShouldStart(true);
      }
      if options.creator.Some? {
        review.SetCreator(options.creator.value);
      }
      if options.moderator.Some? {
        review.SetModerator(options.moderator.value);
      }
      if options.reviewers.Some? {
        var reviewers := options.reviewers.value;
        ghost var before := review.Snapshot();
        for i := 0 to |reviewers|
          modifies review
          invariant review.Snapshot() == before.(reviewers := before.reviewers + reviewers[..i])
        {
          review.AddReviewer(reviewers[i]);
          assert reviewers[..i + 1] == reviewers[..i] + [reviewers[i]];
        }
        assert reviewers[..|reviewers|] == reviewers;
      }
      if options.repository.Some? {
        review.SetRepository(options.repository.value);
      }
    }

    /** The `changeset`, `patch` and standard-input steps of `parseOptions`. */
    method AttachSources(review: Review)
      modifies this`stdin, this`log, review
      ensures var sources := Sources(options, files, old(stdin), extractRevision);
        review.Snapshot() == old(review.Snapshot()).(
          changesets := old(review.changesets) + sources.0,
          patches := old(review.patches) + sources.1)
      ensures log == old(log) + (if options.patch.Some? && options.patch.value !in files
                                 then [UnreadablePatch(options.patch.value)] else [])
      ensures stdin == (if ReadsStdIn(options) then "" else old(stdin))
    {
      var readFromStdIn := true;
      if options.changeset.Some? {
        readFromStdIn := false;
        var changesets := options.changeset.value;
        ghost var before := review.Snapshot();
        for i := 0 to |changesets|
          modifies review
          invariant review.Snapshot() == before.(changesets := before.changesets + changesets[..i])
        {
          review.AddChangeset(changesets[i]);
          assert changesets[..i + 1] == changesets[..i] + [changesets[i]];
        }
        assert changesets[..|changesets|] == changesets;
      }
      if options.patch.Some? {
        readFromStdIn := false;
        var patchData := LoadPatch(options.patch.value);
        if patchData != "" {
          review.AddPatch(patchData);
        }
      }
      if readFromStdIn {
        ReadStdIn(review);
      }
    }

    method ParseOptions()
      modifies this, connector
      ensures quitRequested
      ensures var r := Resolve(options, User(), files, old(stdin), extractRevision);
        && (r.Aborted? ==>
              && log == old(log) + [r.reason] && stdin == old(stdin)
              && (connector != null ==> unchanged(connector)))
        && (r.Resolved? ==>
              && connector != null && connector.review != null && fresh(connector.review)
              && connector.review.Snapshot() == r.review
              && connector.calls == old(connector.calls) + r.call.ToSeq()
              && log == old(log) + r.diagnostics
              && stdin == (if r.readsStdIn then "" else old(stdin)))
    {
      if connector == null {
        log := log + [MissingConnector];
        quitRequested := true;
        return;
      }
      var isCreateReview := options.create;
      var isUpdateReview := options.update.Some?;

      if isCreateReview && isUpdateReview {
        log := log + [CreateAndUpdate];
        quitRequested := true;
        return;
      }

      Submit();
    }

    /** `parseOptions` once both guards have passed: build the Review, hand it to the connector
        and ask for the create or update call. */
    method Submit()
      requires connector != null && !(options.create && options.update.Some?)
      modifies this, connector
      ensures var sources := Sources(options, files, old(stdin), extractRevision);
        && connector.review != null && fresh(connector.review)
        && connector.review.Snapshot()
           == OptionFields(options, connector.user).(changesets := sources.0, patches := sources.1)
      ensures connector.calls == old(connector.calls)
        + (if options.create then [CreateCall] else if options.update.Some? then [UpdateCall] else [])
      ensures log == old(log) + (if options.patch.Some? && options.patch.value !in files
                                 then [UnreadablePatch(options.patch.value)] else [])
      ensures stdin == (if ReadsStdIn(options) then "" else old(stdin))
      ensures quitRequested
    {
      var isCreateReview := options.create;
      var isUpdateReview := options.update.Some?;
      var review := new Review();
      if isCreateReview {
        var author := connector.user;
        if options.author.Some? {
          author := options.author.value;
        }
        review.SetAuthor(author);
      }
      connector.SetReview(review);
      Populate(review, connector.user);
      if isCreateReview {
        connector.CreateReview();
      } else if isUpdateReview {
        connector.UpdateReview();
      }
      quitRequested := true;
    }

    /** Fills a fresh Review, whose author is already chosen, from the other options and the
        chosen source of changesets and patches; `user` is the connector's user name. */
    method Populate(review: Review, user: string)
      requires review.Snapshot() == EmptyReview.(author := OptionFields(options, user).author)
      modifies this`stdin, this`log, review
      ensures var sources := Sources(options, files, old(stdin), extractRevision);
        review.Snapshot() == OptionFields(options, user).(changesets := sources.0, patches := sources.1)
      ensures log == old(log) + (if options.patch.Some? && options.patch.value !in files
                                 then [UnreadablePatch(options.patch.value)] else [])
      ensures stdin == (if ReadsStdIn(options) then "" else old(stdin))
    {
      ApplyNamingOptions(review);
      ApplyPeopleOptions(review);
      assert review.Snapshot() == OptionFields(options, user);
      AttachSources(review);
    }
  }
}
