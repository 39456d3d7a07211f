/** The Review aggregate: a review request under construction. The front end fills it in through
    setters and adders, each of which changes one field; the actions only read it. */
module Reviews {

  /** A patch blob. Text and bytes are both modelled as character sequences. */
  type Patch = string

  /** The value of every field of a Review at one moment. */
  datatype ReviewFields = ReviewFields(
    author: string,
    name: string,
    description: string,
    project: string,
    repository: string,
    creator: string,
    moderator: string,
    reviewers: seq<string>,
    changesets: seq<string>,
    patches: seq<Patch>,
    id: string,
    shouldStart: bool)

  /** The fields of a freshly constructed Review: every string empty, no lists, not to be started. */
  const EmptyReview := ReviewFields("", "", "", "", "", "", "", [], [], [], "", false)

  class Review {
    var author: string
    var name: string
    var description: string
    var project: string
    var repository: string
    var creator: string
    var moderator: string
    var reviewers: seq<string>
    var changesets: seq<string>
    var patches: seq<Patch>
    var id: string
    var shouldStart: bool

    /** The current value of every field. */
    function Snapshot(): ReviewFields
      reads this
    {
      ReviewFields(author, name, description, project, repository, creator, moderator,
                   reviewers, changesets, patches, id, shouldStart)
    }

    constructor ()
      ensures Snapshot() == EmptyReview
    {
      author, name, description, project := "", "", "", "";
      repository, creator, moderator := "", "", "";
      reviewers, changesets, patches := [], [], [];
      id, shouldStart := "", false;
    }

    method SetAuthor(author: string)
      modifies this
      ensures Snapshot() == old(Snapshot()).(author := author)
    {
      this.author := author;
    }

    method SetId(id: string)
      modifies this
      ensures Snapshot() == old(Snapshot()).(id := id)
    {
      this.id := id;
    }

    method SetName(name: string)
      modifies this
      ensures Snapshot() == old(Snapshot()).(name := name)
    {
      this.name := name;
    }

    method SetDescription(description: string)
      modifies this
      ensures Snapshot() == old(Snapshot()).(description := description)
    {
      this.description := description;
    }

    method SetProject(project: string)
      modifies this
      ensures Snapshot() == old(Snapshot()).(project := project)
    {
      this.project := project;
    }

    method SetShouldStart(shouldStart: bool)
      modifies this
      ensures Snapshot() == old(Snapshot()).(shouldStart := shouldStart)
    {
      this.shouldStart := shouldStart;
    }

    method SetCreator(creator: string)
      modifies this
      ensures Snapshot() == old(Snapshot()).(creator := creator)
    {
      this.creator := creator;
    }

    method SetModerator(moderator: string)
      modifies this
      ensures Snapshot() == old(Snapshot()).(moderator := moderator)
    {
      this.moderator := moderator;
    }

    method SetRepository(repository: string)
      modifies this
      ensures Snapshot() == old(Snapshot()).(repository := repository)
    {
      this.repository := repository;
    }

    method AddReviewer(reviewer: string)
      modifies this
      ensures Snapshot() == old(Snapshot()).(reviewers := old(reviewers) + [reviewer])
    {
      reviewers := reviewers + [reviewer];
    }

    method AddChangeset(changeset: string)
      modifies this
      ensures Snapshot() == old(Snapshot()).(changesets := old(changesets) + [changeset])
    {
      changesets := changesets + [changeset];
    }

    method AddPatch(patch: Patch)
      modifies this
      ensures Snapshot() == old(Snapshot()).(patches := old(patches) + [patch])
    {
      patches := patches + [patch];
    }
  }
}
