/**
 * The remix dialog (`components/profile/remix-dialog.tsx`): a title and a
 * description for the copy, submitted trimmed with the original's id.
 */
module RemixDialog {
  import opened Wrappers
  import opened Text
  import opened Types

  /** What `onRemix` receives. */
  datatype RemixData = RemixData(title: string, description: string, originalProjectId: string)

  /** The Create Remix button is disabled while the title is blank. */
  predicate CreateDisabled(title: string) {
    IsBlank(title)
  }

  /** The title box's placeholder. */
  function TitlePlaceholder(p: Project): (r: string)
    ensures |r| == |p.title| + 8 && r[..|p.title|] == p.title && r[|p.title|..] == " (Remix)"
  {
    p.title + " (Remix)"
  }

  /** The dialog renders only for a project. */
  predicate Rendered(project: Option<Project>) {
    project.Some?
  }

  /**
   * What `handleRemix` sends: nothing without a project or with a blank title,
   * otherwise the trimmed title and description and the original's id.
   */
  function Submission(project: Option<Project>, title: string, description: string): (r: Option<RemixData>)
    ensures r.None? <==> project.None? || CreateDisabled(title)
    ensures r.Some? ==> r.value == RemixData(Trim(title), Trim(description), project.value.id)
  {
    if project.None? || IsBlank(title) then None
    else Some(RemixData(Trim(title), Trim(description), project.value.id))
  }

  /** The form's fields; the dialog's open flag belongs to the page and is closed through `onOpenChange`. */
  class Form {
    var title: string
    var description: string

    constructor ()
      ensures title == "" && description == ""
    {
      title := "";
      description := "";
    }

    method SetTitle(t: string)
      modifies this`title
      ensures title == t
    {
      title := t;
    }

    method SetDescription(d: string)
      modifies this`description
      ensures description == d
    {
      description := d;
    }

    /** The form reset after a successful submit. */
    method Reset()
      modifies this`title, this`description
      ensures title == "" && description == ""
    {
      title := "";
      description := "";
    }

    /**
     * `handleRemix`: sends `Submission` of the fields; after a send the form is
     * cleared and the dialog closes, otherwise nothing changes.
     */
    method HandleRemix(project: Option<Project>) returns (sent: Option<RemixData>, close: bool)
      modifies this`title, this`description
      ensures sent == Submission(project, old(title), old(description))
      ensures sent.None? ==> !close && title == old(title) && description == old(description)
      ensures sent.Some? ==> close && title == "" && description == ""
    {
      if project.None? || IsBlank(title) {
        return None, false;
      }
      var id := project.value.id;
      sent := Some(RemixData(Trim(title), Trim(description), id));
      Reset();
      close := true;
    }
  }

  /** A sent remix always has a title that is not blank and has nothing left to trim. */
  lemma SentTitleIsClean(project: Option<Project>, title: string, description: string)
    requires Submission(project, title, description).Some?
    ensures var d := Submission(project, title, description).value;
            d.title != "" && !IsBlank(d.title) && Trim(d.title) == d.title && Trim(d.description) == d.description
  {
    TrimIdempotent(title);
    TrimIdempotent(description);
  }
}
