/** The new-proposal form (components/CreateProposalModal.tsx): a title and a description, both
    required to be non-blank, the title checked first. */
module ProposalForm {
  import opened Outcomes
  import opened JsText

  const EmptyTitle := "Proposal title cannot be empty."
  const EmptyDescription := "Proposal description cannot be empty."

  /** The message of the first check that fails, `None` when both pass. */
  function FirstFailure(title: string, description: string): (m: Option<string>)
    ensures m == Some(EmptyTitle) <==> AllWhitespace(title)
    ensures m == Some(EmptyDescription) <==> !AllWhitespace(title) && AllWhitespace(description)
    ensures m.None? <==> !AllWhitespace(title) && !AllWhitespace(description)
  {
    BlankIffAllWhitespace(title);
    BlankIffAllWhitespace(description);
    if IsBlank(title) then Some(EmptyTitle)
    else if IsBlank(description) then Some(EmptyDescription)
    else None
  }

  /** What the form shows while open. */
  datatype View = View(title: string, description: string, errorLine: Option<string>)

  class CreateProposalModal {
    var isOpen: bool
    var title: string
    var description: string
    var error: string

    constructor (isOpen: bool)
      ensures this.isOpen == isOpen && title == "" && description == "" && error == ""
    {
      this.isOpen := isOpen;
      title, description, error := "", "", "";
    }

    /** The rendering: nothing at all when closed; the fields as typed; the error line only when
        there is an error. */
    function Render(): (v: Option<View>)
      reads this
      ensures v.None? <==> !isOpen
      ensures v.Some? ==> v.value.title == title && v.value.description == description
      ensures v.Some? ==> (v.value.errorLine.Some? <==> error != "")
                          && (v.value.errorLine.Some? ==> v.value.errorLine.value == error)
    {
      if !isOpen then None else Some(View(title, description, if error == "" then None else Some(error)))
    }

    /** Typing into the fields. */
    method Edit(newTitle: string, newDescription: string)
      modifies this`title, this`description
      ensures title == newTitle && description == newDescription
    {
      title, description := newTitle, newDescription;
    }

    /** `handleConfirm`: `submitted` is the call made to the session's handler, with the fields as
        typed (not trimmed). A refusal keeps both fields; a submission clears the error and both
        fields. */
    method HandleConfirm() returns (submitted: Option<(string, string)>)
      requires isOpen
      modifies this`title, this`description, this`error
      ensures var failure := FirstFailure(old(title), old(description));
              && (failure.Some? ==>
                    submitted.None? && error == failure.value
                    && title == old(title) && description == old(description))
              && (failure.None? ==>
                    submitted == Some((old(title), old(description)))
                    && error == "" && title == "" && description == "")
    {
      var failure := FirstFailure(title, description);
      if failure.Some? {
        error := failure.value;
        return None;
      }
      error := "";
      submitted := Some((title, description));
      title := "";
      description := "";
    }
  }
}
