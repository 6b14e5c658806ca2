/** The "save design" dialog: opening it resets the form and hides the status line;
    confirming checks the name, sends it trimmed to `/save_design`, reports the answer in
    the status line and always gives the button back its text and enables it. */
module SaveDesign {
  import opened Wrappers
  import opened Text

  const EmptyNameText := "Please enter a design name"
  const SaveFailedText := "Failed to save design"
  const SaveErrorText := "An error occurred while saving the design"
  const SavingHtml := "<i class=\"fas fa-spinner fa-spin me-2\"></i>Saving..."
  const Hidden := "d-none"

  /** A status line of the given type: the classes `mt-3` and `type`, and never
      `d-none`. */
  function StatusClasses(statusType: string): (c: set<string>)
    ensures "mt-3" in c && Hidden !in c
    ensures statusType != Hidden ==> statusType in c
    ensures forall x :: x in c ==> x == "mt-3" || x == statusType
  {
    {"mt-3", statusType} - {Hidden}
  }

  /** The JSON answer of `/save_design`: its `status` and `message`. */
  datatype SaveData = SaveData(status: Option<string>, message: Option<string>)

  /** How the request ended: it threw, or a response came whose body is JSON or, when it
      is not, makes `response.json()` throw. */
  datatype SaveOutcome = RequestThrew | Responded(ok: bool, data: Option<SaveData>)

  /** Whether the save is reported as a success. */
  predicate Saved(outcome: SaveOutcome)
  {
    outcome.Responded? && outcome.ok && outcome.data.Some? && outcome.data.value.status == Some("success")
  }

  /** The status line the answer produces: its text and type. */
  function SaveStatus(outcome: SaveOutcome): (s: (string, string))
    ensures s.1 == "success" <==> Saved(outcome)
    ensures s.1 != "success" ==> s.1 == "error"
    ensures Saved(outcome) ==> s.0 == outcome.data.value.message.GetOr("")
    ensures outcome.Responded? && outcome.data.Some? && !Saved(outcome) ==>
      s.0 == (if outcome.data.value.message.Some? && outcome.data.value.message.value != ""
              then outcome.data.value.message.value else SaveFailedText)
    ensures (outcome.RequestThrew? || outcome.data.None?) ==> s == (SaveErrorText, "error")
  {
    match outcome
    case RequestThrew => (SaveErrorText, "error")
    case Responded(ok, data) =>
      match data
      case None => (SaveErrorText, "error")
      case Some(d) =>
        if ok && d.status == Some("success") then (d.message.GetOr(""), "success")
        else if d.message.Some? && d.message.value != "" then (d.message.value, "error")
        else (SaveFailedText, "error")
  }

  /** The dialog's elements: the name field, the confirm button and the status line,
      with the requests sent and the modal-closing timers scheduled. */
  class SaveDialog {
    const hasStatus: bool
    var nameValue: string
    var nameFocused: bool
    var buttonHtml: string
    var buttonDisabled: bool
    var statusText: string
    var statusClasses: set<string>
    /** The names sent to `/save_design`, in order. */
    var requests: seq<string>
    var pendingCloses: nat

    constructor (hasStatus: bool, buttonHtml: string)
      ensures this.hasStatus == hasStatus && this.buttonHtml == buttonHtml
      ensures nameValue == "" && !nameFocused && !buttonDisabled && statusText == ""
      ensures statusClasses == {"mt-3", Hidden} && requests == [] && pendingCloses == 0
    {
      this.hasStatus := hasStatus;
      this.buttonHtml := buttonHtml;
      nameValue := "";
      nameFocused := false;
      buttonDisabled := false;
      statusText := "";
      statusClasses := {"mt-3", Hidden};
      requests := [];
      pendingCloses := 0;
    }

    /** `showSaveStatus(message, type)`: nothing without a status line. */
    method ShowSaveStatus(message: string, statusType: string)
      modifies this
      ensures hasStatus ==> statusText == message && statusClasses == StatusClasses(statusType)
      ensures !hasStatus ==> statusText == old(statusText) && statusClasses == old(statusClasses)
      ensures nameValue == old(nameValue) && nameFocused == old(nameFocused)
      ensures buttonHtml == old(buttonHtml) && buttonDisabled == old(buttonDisabled)
      ensures requests == old(requests) && pendingCloses == old(pendingCloses)
    {
      if !hasStatus {
        return;
      }
      statusText := message;
      statusClasses := StatusClasses(statusType);
    }

    /** `openSaveDesignModal`: the form is reset (the name emptied) and the status line
        hidden and emptied. */
    method Open()
      modifies this
      ensures nameValue == ""
      ensures hasStatus ==> statusClasses == {"mt-3", Hidden} && statusText == ""
      ensures !hasStatus ==> statusClasses == old(statusClasses) && statusText == old(statusText)
      ensures buttonHtml == old(buttonHtml) && buttonDisabled == old(buttonDisabled)
      ensures requests == old(requests) && pendingCloses == old(pendingCloses)
    {
      nameValue := "";
      if hasStatus {
        statusClasses := {"mt-3", Hidden};
        statusText := "";
      }
    }

    /** Typing a name. */
    method TypeName(name: string)
      modifies this
      ensures nameValue == name
      ensures statusText == old(statusText) && requests == old(requests) && buttonHtml == old(buttonHtml)
    {
      nameValue := name;
    }

    /** A click on the confirm button (or Enter in the name field). A blank name only
        shows an error and sends nothing; otherwise the trimmed name is sent, the answer
        is shown, a success closes the dialog two seconds later, and the button gets its
        text back and is enabled whatever happened. */
    method Confirm(outcome: SaveOutcome)
      modifies this
      ensures Trim(old(nameValue)) == "" ==>
        requests == old(requests) && nameFocused && buttonDisabled == old(buttonDisabled) &&
        pendingCloses == old(pendingCloses) &&
        (hasStatus ==> statusText == EmptyNameText && statusClasses == StatusClasses("error"))
      ensures Trim(old(nameValue)) != "" ==>
        requests == old(requests) + [Trim(old(nameValue))] && !buttonDisabled &&
        nameFocused == old(nameFocused) &&
        pendingCloses == old(pendingCloses) + (if Saved(outcome) then 1 else 0) &&
        (hasStatus ==> statusText == SaveStatus(outcome).0 && statusClasses == StatusClasses(SaveStatus(outcome).1))
      ensures buttonHtml == old(buttonHtml) && nameValue == old(nameValue)
    {
      var name := Trim(nameValue);
      if name == "" {
        ShowSaveStatus(EmptyNameText, "error");
        nameFocused := true;
        return;
      }
      Send(name, outcome);
    }

    /** The request for a valid name, from the loading state of the button to its
        restoration. */
    method Send(name: string, outcome: SaveOutcome)
      modifies this
      ensures requests == old(requests) + [name] && !buttonDisabled && nameFocused == old(nameFocused)
      ensures pendingCloses == old(pendingCloses) + (if Saved(outcome) then 1 else 0)
      ensures hasStatus ==> statusText == SaveStatus(outcome).0 && statusClasses == StatusClasses(SaveStatus(outcome).1)
      ensures !hasStatus ==> statusText == old(statusText) && statusClasses == old(statusClasses)
      ensures buttonHtml == old(buttonHtml) && nameValue == old(nameValue)
    {
      var original := buttonHtml;
      buttonHtml := SavingHtml;
      buttonDisabled := true;
      requests := requests + [name];
      var status := SaveStatus(outcome);
      ShowSaveStatus(status.0, status.1);
      if Saved(outcome) {
        pendingCloses := pendingCloses + 1;
      }
      buttonHtml := original;
      buttonDisabled := false;
    }
  }

  // ---------------------------------------------------------------- lemmas

  /** A name is refused exactly when it is all whitespace, and a sent name never starts
      or ends with whitespace. */
  lemma BlankNames(name: string)
    ensures Trim(name) == "" <==> forall i :: 0 <= i < |name| ==> IsJsSpace(name[i])
    ensures Trim(name) != "" ==> !IsJsSpace(Trim(name)[0]) && !IsJsSpace(Trim(name)[|Trim(name)| - 1])
  {
    TrimEmptyIffAllSpace(name, IsJsSpace);
    TrimmedEnds(name, IsJsSpace);
  }

  /** A response that is not marked a success is reported as an error even when the HTTP
      status is fine, and a success needs both. */
  lemma SuccessNeedsBoth(ok: bool, data: SaveData)
    ensures Saved(Responded(ok, Some(data.(status := Some("success"))))) <==> ok
    ensures data.status != Some("success") ==> SaveStatus(Responded(true, Some(data))).1 == "error"
  {
  }
}
