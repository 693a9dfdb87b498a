/**
 * The add-task dialog: a form whose fields change one at a time, a title check, and a save that
 * hands one payload to the list screen and clears the form.
 */
module ToDoAddModal {
  import opened Wrappers
  import JsText
  import ToDoList

  const TitleRequired := "Título é obrigatório"

  /** The payload handed to `onSave`: an assignee only for a shared task. */
  function Payload(title: string, description: string, kind: string, assigneeId: string): (p: ToDoList.NewToDo)
    ensures p.title == title && p.description == description && p.kind == Some(kind)
    ensures p.assigneeId.Some? <==> kind == "shared"
    ensures p.assigneeId.Some? ==> p.assigneeId.value == assigneeId
  {
    ToDoList.NewToDo(title, description, Some(kind), if kind == "shared" then Some(assigneeId) else None)
  }

  class AddForm {
    var title: string
    var description: string
    var kind: string
    var assigneeId: string
    /** The `title` entry of `errors`; the form has no other. */
    var titleError: Option<string>

    /** The state the dialog opens in and returns to after a save or a close. */
    predicate Pristine()
      reads this
    {
      title == "" && description == "" && kind == "personal" && assigneeId == "" && titleError.None?
    }

    constructor()
      ensures Pristine()
    {
      title := "";
      description := "";
      kind := "personal";
      assigneeId := "";
      titleError := None;
    }

    method SetTitle(v: string)
      modifies this
      ensures title == v
      ensures description == old(description) && kind == old(kind) && assigneeId == old(assigneeId) && titleError == old(titleError)
    {
      title := v;
    }

    method SetDescription(v: string)
      modifies this
      ensures description == v
      ensures title == old(title) && kind == old(kind) && assigneeId == old(assigneeId) && titleError == old(titleError)
    {
      description := v;
    }

    method SetKind(v: string)
      modifies this
      ensures kind == v
      ensures title == old(title) && description == old(description) && assigneeId == old(assigneeId) && titleError == old(titleError)
    {
      kind := v;
    }

    method SetAssigneeId(v: string)
      modifies this
      ensures assigneeId == v
      ensures title == old(title) && description == old(description) && kind == old(kind) && titleError == old(titleError)
    {
      assigneeId := v;
    }

    /** `validate()`: the title must hold something besides white space. */
    method Validate() returns (ok: bool)
      modifies this
      ensures ok <==> !JsText.Blank(title)
      ensures titleError == (if ok then None else Some(TitleRequired))
      ensures title == old(title) && description == old(description) && kind == old(kind) && assigneeId == old(assigneeId)
    {
      JsText.TrimEmptyIffBlank(title);
      if JsText.Trim(title) == "" {
        titleError := Some(TitleRequired);
        ok := false;
      } else {
        titleError := None;
        ok := true;
      }
    }

    /** `resetForm()`. */
    method ResetForm()
      modifies this
      ensures Pristine()
    {
      title := "";
      description := "";
      kind := "personal";
      assigneeId := "";
      titleError := None;
    }

    /**
     * `handleSave()`: with a valid title, exactly one payload goes out, carrying the text as
     * typed (untrimmed), and the form is cleared; otherwise nothing goes out and only the error
     * is set.
     */
    method HandleSave() returns (sent: Option<ToDoList.NewToDo>)
      modifies this
      ensures !JsText.Blank(old(title)) ==>
        sent == Some(Payload(old(title), old(description), old(kind), old(assigneeId))) && Pristine()
      ensures JsText.Blank(old(title)) ==>
        sent.None? && titleError == Some(TitleRequired)
        && title == old(title) && description == old(description) && kind == old(kind) && assigneeId == old(assigneeId)
    {
      var ok := Validate();
      if ok {
        sent := Some(Payload(title, description, kind, assigneeId));
        ResetForm();
      } else {
        sent := None;
      }
    }

    /** `handleClose()`: the dialog closes and the form is cleared, whatever it held. */
    method HandleClose()
      modifies this
      ensures Pristine()
    {
      ResetForm();
    }
  }

  /**
   * Saving from the dialog: a personal task and a shared task left without an assignee are both
   * assigned to their creator; a shared task with an assignee goes to that person.
   */
  lemma DialogTaskAssignee(title: string, description: string, kind: string, assigneeId: string, me: string, now: int)
    requires me != ""
    ensures var r := ToDoList.SaveToDo(Payload(title, description, kind, assigneeId), Some(me), now);
      && (kind == "personal" ==> r.assigneeId == Some(me))
      && (kind == "shared" && assigneeId == "" ==> r.assigneeId == Some(me))
      && (kind == "shared" && assigneeId != "" ==> r.assigneeId == Some(assigneeId))
      && r.kind == Some(if kind == "" then "personal" else kind)
      && r.ownerId == Some(me)
  {
  }

  /** A saved dialog starts over: two saves in a row send one payload, then report a missing title. */
  method SaveTwice(form: AddForm) returns (first: Option<ToDoList.NewToDo>, second: Option<ToDoList.NewToDo>)
    requires !JsText.Blank(form.title)
    modifies form
    ensures first.Some? && second.None?
    ensures form.titleError == Some(TitleRequired)
  {
    first := form.HandleSave();
    assert JsText.Blank(form.title);
    second := form.HandleSave();
  }
}
