/** The client's project form (ProjectForm.tsx): four input fields, a
    technology toggle, and a submit that either rejects the input or hands
    the project over and clears the form. The budget text is parsed by the
    caller and passed in as a number. */
module ProjectFormModel {
  import opened Wrappers
  import opened Entities
  import opened TechSelection

  const MissingFieldsMessage := "Please fill in all fields and select at least one technology"

  /** The submit guard `!title || !description || !budget || selectedTech.length === 0`
      negated: an empty string is falsy, so every text field must hold at
      least one character and at least one technology must be selected. */
  function CanSubmit(title: string, description: string, budget: string, selected: seq<string>): (ok: bool)
    ensures ok <==> |title| > 0 && |description| > 0 && |budget| > 0 && |selected| > 0
  {
    title != "" && description != "" && budget != "" && selected != []
  }

  class ProjectForm {
    var title: string
    var description: string
    var budget: string
    var selectedTech: seq<string>

    constructor ()
      ensures title == "" && description == "" && budget == "" && selectedTech == []
    {
      title, description, budget, selectedTech := "", "", "", [];
    }

    /** `handleTechToggle`. */
    method HandleTechToggle(name: string)
      modifies this`selectedTech
      ensures selectedTech == Toggle(old(selectedTech), name)
    {
      selectedTech := Toggle(selectedTech, name);
    }

    /** `handleSubmit`: on a missing field the alert is shown, nothing is
        submitted and the form keeps its contents; otherwise the payload
        carries the fields and the selection, and the form is cleared. */
    method HandleSubmit(parsedBudget: int) returns (submitted: Option<ProjectInput>, alert: Option<string>)
      modifies this
      ensures submitted.None? <==> !CanSubmit(old(title), old(description), old(budget), old(selectedTech))
      ensures submitted.None? ==> alert == Some(MissingFieldsMessage) && unchanged(this)
      ensures submitted.Some? ==>
        alert == None &&
        submitted.value == ProjectInput(old(title), old(description), parsedBudget, old(selectedTech)) &&
        title == "" && description == "" && budget == "" && selectedTech == []
    {
      if !CanSubmit(title, description, budget, selectedTech) {
        return None, Some(MissingFieldsMessage);
      }
      submitted := Some(ProjectInput(title, description, parsedBudget, selectedTech));
      alert := None;
      title := "";
      description := "";
      budget := "";
      selectedTech := [];
    }
  }
}
