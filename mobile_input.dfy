/** The centred input modal for touch devices: which page fields it takes over, the
    one-time marking of those fields, showing the modal for a field, the title and
    character counter it shows, and hiding it with or without writing the text back. */
module MobileInput {
  import opened Wrappers
  import opened Text
  import opened Browser

  // ------------------------------------------------------------ page fields

  /** The `type` values, in lower case, of the `input` elements the modal takes over. */
  const TextTypes: set<string> := {"text", "email", "password", "search", "url", "tel"}

  /** `isTextInput`, given the element's tag name and its `type` property: a
      `textarea`, or an `input` of one of the text types, whatever the case of the tag
      name and of the type. */
  predicate IsTextInput(tagName: string, inputType: string)
  {
    Lower(tagName) == "textarea" || (Lower(tagName) == "input" && Lower(inputType) in TextTypes)
  }

  /** The values of an `input`'s `type` attribute that HTML defines, in lower case. */
  const InputTypes: set<string> := {
    "hidden", "text", "search", "tel", "url", "email", "password", "date", "month", "week",
    "time", "datetime-local", "number", "range", "color", "checkbox", "radio", "file",
    "submit", "image", "reset", "button"}

  /** The `type` property of an `input` with the `type` attribute `typeAttr`: the
      attribute in lower case when it names a defined type, and `text` when it is
      missing or names none. */
  function InputTypeProperty(typeAttr: Option<string>): (t: string)
    ensures t in InputTypes
    ensures typeAttr.Some? && Lower(typeAttr.value) in InputTypes ==> t == Lower(typeAttr.value)
    ensures typeAttr.None? || Lower(typeAttr.value) !in InputTypes ==> t == "text"
  {
    if typeAttr.Some? && Lower(typeAttr.value) in InputTypes then Lower(typeAttr.value) else "text"
  }

  /** The `type` property `isTextInput` reads, for the two tags it looks at: derived from
      the attribute for an `input`, always `textarea` for a `textarea`. Other elements
      are taken to report no type. */
  function TypeProperty(tagName: string, typeAttr: Option<string>): string
  {
    if Lower(tagName) == "input" then InputTypeProperty(typeAttr)
    else if Lower(tagName) == "textarea" then "textarea"
    else ""
  }

  /** The elements `setupInputListeners` selects: `input[type="text"]`,
      `input[type="email"]`, `input[type="password"]` and `textarea`. In an HTML document
      an attribute selector on `type` compares the value without regard to ASCII case,
      and it needs the attribute to be present. */
  predicate Selected(tagName: string, typeAttr: Option<string>)
  {
    Lower(tagName) == "textarea" ||
    (Lower(tagName) == "input" && typeAttr.Some? && Lower(typeAttr.value) in {"text", "email", "password"})
  }

  const DefaultTitle := "Enter Text"

  /** `getFieldTitle`: the title for a known field id, else the default. */
  function FieldTitle(id: string): (t: string)
    ensures id == "commandInput" ==> t == "Describe Your Design"
    ensures id == "designName" ==> t == "Design Name"
    ensures id == "password" ==> t == "Enter Password"
    ensures id == "email" ==> t == "Email Address"
    ensures id == "username" ==> t == "Username"
    ensures id == "search" ==> t == "Search"
    ensures id !in {"commandInput", "designName", "password", "email", "username", "search"} ==>
      t == DefaultTitle
  {
    var titles := map[
      "commandInput" := "Describe Your Design",
      "designName" := "Design Name",
      "password" := "Enter Password",
      "email" := "Email Address",
      "username" := "Username",
      "search" := "Search"];
    if id in titles then titles[id] else DefaultTitle
  }

  /** The title `configureModal` chooses: the three known ids first, then a truthy
      `aria-label`, then the text of the label in the enclosing form group, else the
      default. */
  function ModalTitle(id: string, ariaLabel: Option<string>, groupLabel: Option<string>): (t: string)
    ensures id == "commandInput" ==> t == "Describe Your Design"
    ensures id == "designName" ==> t == "Design Name"
    ensures id == "password" ==> t == "Enter Password"
    ensures id !in {"commandInput", "designName", "password"} && Truthy(ariaLabel) ==> t == ariaLabel.value
    ensures id !in {"commandInput", "designName", "password"} && !Truthy(ariaLabel) && groupLabel.Some? ==>
      t == groupLabel.value
    ensures id !in {"commandInput", "designName", "password"} && !Truthy(ariaLabel) && groupLabel.None? ==>
      t == DefaultTitle
  {
    if id == "commandInput" then "Describe Your Design"
    else if id == "designName" then "Design Name"
    else if id == "password" then "Enter Password"
    else if Truthy(ariaLabel) then ariaLabel.value
    else if groupLabel.Some? then groupLabel.value
    else DefaultTitle
  }

  // ---------------------------------------------------------------- counter

  const Red := "#dc3545"
  const Yellow := "#ffc107"
  const Grey := "#6e6e80"

  /** The counter colour for `current` code units of at most `max`: red above 90% of
      the limit, yellow above 80%, grey otherwise. */
  function CounterColor(current: nat, max: int): (c: string)
    ensures c == Red <==> current as real > max as real * 0.9
    ensures c == Yellow <==> !(current as real > max as real * 0.9) && current as real > max as real * 0.8
    ensures c == Grey <==> !(current as real > max as real * 0.8)
  {
    if current as real > max as real * 0.9 then Red
    else if current as real > max as real * 0.8 then Yellow
    else Grey
  }

  /** The counter's text `current/max`. */
  datatype CounterText = CounterText(current: nat, max: int)

  // ------------------------------------------------------------ the DOM

  /** A page field the modal can take over. `value` and the listener marking change;
      the rest is read only. */
  class InputElement {
    const tagName: string
    /** The `type` attribute, when the element has one. */
    const typeAttr: Option<string>
    const id: string
    const placeholder: string
    const maxLength: int
    const ariaLabel: Option<string>
    /** The text of the `label` in the closest `.form-group`, when there is one. */
    const groupLabel: Option<string>
    /** Whether the field sits inside a `form`. */
    const inForm: bool
    var value: string
    /** The `data-mobile-modal-listener` attribute. */
    var marked: bool
    var focusListeners: nat
    /** The events dispatched on the field, by name. */
    var dispatched: seq<string>

    constructor (tagName: string, typeAttr: Option<string>, id: string, placeholder: string, maxLength: int,
                 ariaLabel: Option<string>, groupLabel: Option<string>, inForm: bool, value: string)
      ensures this.tagName == tagName && this.typeAttr == typeAttr && this.id == id
      ensures this.placeholder == placeholder && this.maxLength == maxLength
      ensures this.ariaLabel == ariaLabel && this.groupLabel == groupLabel && this.inForm == inForm
      ensures this.value == value && !marked && focusListeners == 0 && dispatched == []
    {
      this.tagName := tagName;
      this.typeAttr := typeAttr;
      this.id := id;
      this.placeholder := placeholder;
      this.maxLength := maxLength;
      this.ariaLabel := ariaLabel;
      this.groupLabel := groupLabel;
      this.inForm := inForm;
      this.value := value;
      marked := false;
      focusListeners := 0;
      dispatched := [];
    }

    predicate IsTextarea()
    {
      Lower(tagName) == "textarea"
    }

    /** The element's `type` property. */
    function Type(): string
    {
      TypeProperty(tagName, typeAttr)
    }
  }

  /** The modal's own field: an `input` (of type `text` or `password`) or, for a page
      textarea, a `textarea`. A new element has `maxLength` -1 and empty text. */
  datatype FieldKind = InputField(inputType: string) | TextareaField
  datatype ModalField = ModalField(kind: FieldKind, placeholder: string, value: string, maxLength: int)

  const FreshInput := ModalField(InputField("text"), "", "", -1)

  /** `addInputListener`: a field is given one focus listener, and marked so that it is
      never given a second. */
  method AddInputListener(input: InputElement)
    modifies input
    ensures input.marked
    ensures input.focusListeners == old(input.focusListeners) + (if old(input.marked) then 0 else 1)
    ensures input.value == old(input.value) && input.dispatched == old(input.dispatched)
  {
    if input.marked {
      return;
    }
    input.marked := true;
    input.focusListeners := input.focusListeners + 1;
  }

  /** `setupInputListeners` and the mutation observer: the forEach over the found fields.
      Every field ends marked and has gained one listener if it was not marked before,
      however often it occurs in the list. */
  method AddInputListeners(inputs: seq<InputElement>)
    modifies set e | e in inputs
    ensures forall e :: e in inputs ==> e.marked
    ensures forall e :: e in inputs ==>
      e.focusListeners == old(e.focusListeners) + (if old(e.marked) then 0 else 1)
    ensures forall e :: e in inputs ==> e.value == old(e.value) && e.dispatched == old(e.dispatched)
  {
    for i := 0 to |inputs|
      invariant forall e :: e in inputs[..i] ==> e.marked
      invariant forall e :: e in inputs && e !in inputs[..i] ==> e.marked == old(e.marked)
      invariant forall e :: e in inputs ==>
        e.focusListeners == old(e.focusListeners) + (if e.marked && !old(e.marked) then 1 else 0)
      invariant forall e :: e in inputs ==> old(e.marked) ==> e.marked
      invariant forall e :: e in inputs ==> e.value == old(e.value) && e.dispatched == old(e.dispatched)
    {
      assert inputs[..i + 1] == inputs[..i] + [inputs[i]];
      AddInputListener(inputs[i]);
    }
  }

  /** The modal. Every hide schedules its own clean-up (`pendingCleanups` counts them)
      and, when the text is saved into a form field, a form submission (`pendingSubmits`);
      these timers fire as separate steps. */
  class Modal {
    var isVisible: bool
    var currentInput: InputElement?
    var originalValue: string
    var field: ModalField
    var title: string
    var counterShown: bool
    var counterText: Option<CounterText>
    var counterColor: Option<string>
    /** The `show` class on the modal. */
    var shown: bool
    var bodyOverflow: string
    var pendingCleanups: nat
    var pendingSubmits: seq<InputElement>

    constructor ()
      ensures !isVisible && currentInput == null && originalValue == "" && field == FreshInput
      ensures title == DefaultTitle && !counterShown && counterText == None && counterColor == None
      ensures !shown && bodyOverflow == "" && pendingCleanups == 0 && pendingSubmits == []
    {
      isVisible := false;
      currentInput := null;
      originalValue := "";
      field := FreshInput;
      title := DefaultTitle;
      counterShown := false;
      counterText := None;
      counterColor := None;
      shown := false;
      bodyOverflow := "";
      pendingCleanups := 0;
      pendingSubmits := [];
    }

    /** `updateCharacterCounter`: nothing while the counter is hidden or the field has
        no limit; otherwise `current/max` in the colour for how full the field is, where
        `current` is the text's `length` in UTF-16 code units, so that a character outside
        the Basic Multilingual Plane counts twice. */
    method UpdateCharacterCounter()
      modifies this
      ensures var max := old(field).maxLength; var current := Utf16Length(old(field).value);
        if old(counterShown) && max > 0 then
          counterText == Some(CounterText(current, max)) && counterColor == Some(CounterColor(current, max))
        else
          counterText == old(counterText) && counterColor == old(counterColor)
      ensures isVisible == old(isVisible) && currentInput == old(currentInput)
      ensures originalValue == old(originalValue) && field == old(field) && title == old(title)
      ensures counterShown == old(counterShown) && shown == old(shown) && bodyOverflow == old(bodyOverflow)
      ensures pendingCleanups == old(pendingCleanups) && pendingSubmits == old(pendingSubmits)
    {
      if !counterShown {
        return;
      }
      var current := Utf16Length(field.value);
      var max := field.maxLength;
      if max > 0 {
        counterText := Some(CounterText(current, max));
        counterColor := Some(CounterColor(current, max));
      }
    }

    /** Whether `configureModal` throws for `input` while the modal's field is `f`: a
        one-line field is configured by assigning the modal field's `type`, which a
        textarea only has as a getter, so in class code (which is strict) the assignment
        throws a `TypeError` while the textarea of an earlier field is still in place. */
    static predicate ConfigureThrows(f: ModalField, input: InputElement)
    {
      f.kind.TextareaField? && !input.IsTextarea()
    }

    /** `configureModal`: the title, the field (a textarea for a textarea, else an input
        of type password or text, with the field's placeholder, text and limit) and the
        counter, shown only for a textarea with a limit. An input keeps the limit of the
        previous field when the new one has none. When it throws, only the title has been
        set. */
    method ConfigureModal(input: InputElement) returns (threw: bool)
      modifies this
      ensures threw <==> ConfigureThrows(old(field), input)
      ensures title == ModalTitle(input.id, input.ariaLabel, input.groupLabel)
      ensures !threw ==> var placeholder := Or(Some(input.placeholder), "Enter text");
        field == if input.IsTextarea() then
          ModalField(TextareaField, placeholder, old(originalValue), if input.maxLength > 0 then input.maxLength else -1)
        else
          ModalField(InputField(if input.Type() == "password" then "password" else "text"), placeholder,
                     old(originalValue), if input.maxLength > 0 then input.maxLength else old(field).maxLength)
      ensures !threw ==> (counterShown <==> input.maxLength > 0 && input.IsTextarea())
      ensures !threw && counterShown ==>
        counterText == Some(CounterText(Utf16Length(old(originalValue)), input.maxLength)) &&
        counterColor == Some(CounterColor(Utf16Length(old(originalValue)), input.maxLength))
      ensures !counterShown ==> counterText == old(counterText) && counterColor == old(counterColor)
      ensures threw ==> field == old(field) && counterShown == old(counterShown)
      ensures threw ==> counterText == old(counterText) && counterColor == old(counterColor)
      ensures isVisible == old(isVisible) && currentInput == old(currentInput) && originalValue == old(originalValue)
      ensures shown == old(shown) && bodyOverflow == old(bodyOverflow)
      ensures pendingCleanups == old(pendingCleanups) && pendingSubmits == old(pendingSubmits)
    {
      var placeholder := Or(Some(input.placeholder), "Enter text");
      title := ModalTitle(input.id, input.ariaLabel, input.groupLabel);
      if input.IsTextarea() {
        field := ModalField(TextareaField, placeholder, originalValue, if input.maxLength > 0 then input.maxLength else -1);
      } else if field.kind.TextareaField? {
        return true;
      } else {
        field := ModalField(InputField(if input.Type() == "password" then "password" else "text"), placeholder,
                            originalValue, if input.maxLength > 0 then input.maxLength else field.maxLength);
      }
      threw := false;
      if input.maxLength > 0 && input.IsTextarea() {
        counterShown := true;
        UpdateCharacterCounter();
      } else {
        counterShown := false;
      }
    }

    /** `showModal`: ignored while the modal is visible; otherwise the field and its
        current text are remembered, the modal is marked visible, configured for it and
        shown, and the page stops scrolling. When the configuration throws, the rest of
        `showModal` is skipped: the modal counts as visible without being shown. */
    method ShowModal(input: InputElement) returns (threw: bool)
      modifies this
      ensures old(isVisible) ==>
        !threw && isVisible && currentInput == old(currentInput) &&
        originalValue == old(originalValue) && field == old(field) && title == old(title) &&
        shown == old(shown) && bodyOverflow == old(bodyOverflow)
      ensures !old(isVisible) ==>
        isVisible && currentInput == input && originalValue == input.value &&
        title == ModalTitle(input.id, input.ariaLabel, input.groupLabel) &&
        (threw <==> ConfigureThrows(old(field), input))
      ensures !old(isVisible) && !threw ==> field.value == input.value && shown && bodyOverflow == "hidden"
      ensures !old(isVisible) && !threw ==> (field.kind.TextareaField? <==> input.IsTextarea())
      ensures threw ==> field == old(field) && shown == old(shown) && bodyOverflow == old(bodyOverflow)
      ensures pendingCleanups == old(pendingCleanups) && pendingSubmits == old(pendingSubmits)
    {
      if isVisible {
        return false;
      }
      currentInput := input;
      originalValue := input.value;
      isVisible := true;
      threw := ConfigureModal(input);
      if threw {
        return;
      }
      shown := true;
      bodyOverflow := "hidden";
    }

    /** `showModal` as evidently intended: a textarea left from an earlier field is
        swapped back for a plain input before a one-line field is configured (as the
        clean-up would have done), so the modal is always shown with the field's text. */
    method ShowModalCorrected(input: InputElement)
      modifies this
      ensures old(isVisible) ==>
        isVisible && currentInput == old(currentInput) &&
        originalValue == old(originalValue) && field == old(field) && title == old(title) &&
        shown == old(shown) && bodyOverflow == old(bodyOverflow)
      ensures !old(isVisible) ==>
        isVisible && currentInput == input && originalValue == input.value && field.value == input.value &&
        title == ModalTitle(input.id, input.ariaLabel, input.groupLabel) &&
        (field.kind.TextareaField? <==> input.IsTextarea()) && shown && bodyOverflow == "hidden"
      ensures pendingCleanups == old(pendingCleanups) && pendingSubmits == old(pendingSubmits)
    {
      if isVisible {
        return;
      }
      currentInput := input;
      originalValue := input.value;
      isVisible := true;
      if ConfigureThrows(field, input) {
        field := FreshInput;
      }
      var threw := ConfigureModal(input);
      shown := true;
      bodyOverflow := "hidden";
    }

    /** Typing into the modal's field: its `input` listener updates the counter. */
    method TypeText(text: string)
      modifies this
      ensures field == old(field).(value := text)
      ensures old(counterShown) && field.maxLength > 0 ==>
        counterText == Some(CounterText(Utf16Length(text), field.maxLength)) &&
        counterColor == Some(CounterColor(Utf16Length(text), field.maxLength))
      ensures isVisible == old(isVisible) && currentInput == old(currentInput) && originalValue == old(originalValue)
      ensures counterShown == old(counterShown) && shown == old(shown)
    {
      field := field.(value := text);
      UpdateCharacterCounter();
    }

    /** `hideModal(saveChanges)`: ignored while hidden. Otherwise the modal is hidden;
        when saving, the modal's text is written into the field, `input` and `change` are
        dispatched on it, and a form submission is scheduled for a field in a form that is
        the command input or was edited on one line. */
    method HideModal(saveChanges: bool)
      modifies this, currentInput
      ensures currentInput == old(currentInput) && field == old(field) && originalValue == old(originalValue)
      ensures !old(isVisible) ==>
        shown == old(shown) && pendingCleanups == old(pendingCleanups) && pendingSubmits == old(pendingSubmits) &&
        (currentInput != null ==> currentInput.value == old(currentInput.value))
      ensures old(isVisible) ==> !isVisible && !shown && pendingCleanups == old(pendingCleanups) + 1
      ensures old(isVisible) && saveChanges && currentInput != null ==>
        currentInput.value == old(field).value &&
        currentInput.dispatched == old(currentInput.dispatched) + ["input", "change"] &&
        pendingSubmits == old(pendingSubmits) +
          if currentInput.inForm && (currentInput.id == "commandInput" || !old(field).kind.TextareaField?)
          then [currentInput] else []
      ensures old(isVisible) && !saveChanges && currentInput != null ==>
        currentInput.value == old(currentInput.value) && pendingSubmits == old(pendingSubmits)
    {
      if !isVisible {
        return;
      }
      isVisible := false;
      if saveChanges && currentInput != null {
        var input := currentInput;
        input.value := field.value;
        input.dispatched := input.dispatched + ["input", "change"];
        if input.inForm && input.id == "commandInput" {
          pendingSubmits := pendingSubmits + [input];
        } else if !field.kind.TextareaField? && input.inForm {
          pendingSubmits := pendingSubmits + [input];
        }
      }
      shown := false;
      pendingCleanups := pendingCleanups + 1;
    }

    /** A key pressed in the modal's field: Enter without Shift saves a one-line field,
        Escape cancels, anything else does nothing. */
    method KeyDown(key: string, shiftKey: bool)
      modifies this, currentInput
      ensures key == "Enter" && !shiftKey && !old(field).kind.TextareaField? && old(isVisible) ==> !isVisible
      ensures key == "Escape" && old(isVisible) ==> !isVisible
      ensures key != "Enter" && key != "Escape" ==> isVisible == old(isVisible)
      ensures currentInput == old(currentInput) && field == old(field)
    {
      if key == "Enter" && !shiftKey && !field.kind.TextareaField? {
        HideModal(true);
      } else if key == "Escape" {
        HideModal(false);
      }
    }

    /** One clean-up timer, 300 ms after its hide: scrolling returns, the remembered
        field and text are dropped and a textarea field is swapped back for a plain
        input. It runs whether or not the modal has been shown again since. */
    method FireCleanup()
      requires pendingCleanups > 0
      modifies this
      ensures pendingCleanups == old(pendingCleanups) - 1
      ensures bodyOverflow == "" && currentInput == null && originalValue == ""
      ensures field == if old(field).kind.TextareaField? then FreshInput else old(field)
      ensures isVisible == old(isVisible) && shown == old(shown) && title == old(title)
      ensures pendingSubmits == old(pendingSubmits)
    {
      pendingCleanups := pendingCleanups - 1;
      bodyOverflow := "";
      currentInput := null;
      originalValue := "";
      if field.kind.TextareaField? {
        field := FreshInput;
      }
    }
  }

  /** A page textarea is opened and the modal closed, and a one-line field is opened
      before the clean-up has run: `configureModal` throws, the modal is marked visible
      but never shown, and every later `showModal` is ignored, so the modal cannot be
      opened again (the pending clean-up does not reset visibility). */
  method QuickReopenSticks(m: Modal, area: InputElement, line: InputElement) returns (threw: bool, again: bool)
    requires !m.isVisible && area.IsTextarea() && !line.IsTextarea()
    modifies m, area
    ensures threw && !again
    ensures m.isVisible && !m.shown && m.pendingCleanups == old(m.pendingCleanups) + 1
  {
    var first := m.ShowModal(area);
    m.HideModal(false);
    threw := m.ShowModal(line);
    again := m.ShowModal(line);
  }

  /** The same steps with the corrected `showModal`: the one-line field is shown. */
  method QuickReopenCorrected(m: Modal, area: InputElement, line: InputElement)
    requires !m.isVisible && area.IsTextarea() && !line.IsTextarea()
    modifies m, area
    ensures m.isVisible && m.shown && m.bodyOverflow == "hidden"
    ensures m.currentInput == line && m.field.value == line.value && !m.field.kind.TextareaField?
  {
    m.ShowModalCorrected(area);
    m.HideModal(false);
    m.ShowModalCorrected(line);
  }

  // ---------------------------------------------------------------- lemmas

  lemma {:induction false} LowerIdle(s: string)
    requires forall i :: 0 <= i < |s| ==> !('A' <= s[i] <= 'Z')
    ensures Lower(s) == s
  {
    assert forall i :: 0 <= i < |s| ==> Lower(s)[i] == s[i];
  }

  lemma LowerTwice(s: string)
    ensures Lower(Lower(s)) == Lower(s)
  {
    assert forall i :: 0 <= i < |s| ==> Lower(Lower(s))[i] == Lower(s)[i];
  }

  /** Whether a field is a text input does not depend on the case of its tag or type. */
  lemma TextInputIgnoresCase(tagName: string, inputType: string)
    ensures IsTextInput(tagName, inputType) == IsTextInput(Lower(tagName), Lower(inputType))
  {
    LowerTwice(tagName);
    LowerTwice(inputType);
  }

  /** Every field the initial scan selects is one the observer accepts as a text input.
      The observer also accepts search, url and tel inputs, and an `input` with no
      `type` attribute or an unknown one, whose `type` property is `text`; the scan
      misses all of these. Both ignore the case of the type. */
  lemma SelectedAreTextInputs(tagName: string, typeAttr: Option<string>)
    ensures Selected(tagName, typeAttr) ==> IsTextInput(tagName, TypeProperty(tagName, typeAttr))
    ensures IsTextInput("input", TypeProperty("input", Some("search"))) && !Selected("input", Some("search"))
    ensures IsTextInput("input", TypeProperty("input", None)) && !Selected("input", None)
    ensures IsTextInput("input", TypeProperty("input", Some("txt"))) && !Selected("input", Some("txt"))
    ensures Selected("INPUT", Some("Email")) && IsTextInput("INPUT", TypeProperty("INPUT", Some("Email")))
  {
    if Selected(tagName, typeAttr) && Lower(tagName) == "input" {
      LowerTwice(typeAttr.value);
    }
    LowerIdle("input");
    LowerIdle("search");
    LowerIdle("text");
    LowerIdle("txt");
    assert Lower("INPUT") == "input";
    assert Lower("Email") == "email";
    LowerIdle("email");
  }

  /** The two title tables agree on the three ids both of them know, and only those. */
  lemma TitleTablesAgree(id: string, ariaLabel: Option<string>, groupLabel: Option<string>)
    ensures id in {"commandInput", "designName", "password"} ==> ModalTitle(id, ariaLabel, groupLabel) == FieldTitle(id)
    ensures ModalTitle("email", None, None) == DefaultTitle != FieldTitle("email")
  {
  }

  /** The counter shows red only for a field nearly full: at most 10% of its limit left. */
  lemma RedMeansNearlyFull(current: nat, max: int)
    requires max > 0
    ensures CounterColor(current, max) == Red <==> 10 * current > 9 * max
    ensures CounterColor(current, max) == Grey <==> 10 * current <= 8 * max
  {
  }
}
