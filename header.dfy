/** The header bar (`components/Header.js`): the validation status shown
    next to the buttons, when each button is enabled, and the save dialog
    that trims what it passes on. */
module Header {
  import opened Values
  import opened Text
  import Workflow

  /** The status icon: spinner, warning triangle, check mark, cross. */
  datatype Icon = Spinner | Warning | Check | Cross

  /** `getValidationText()`: the first matching case of validating, no
      result, valid, invalid. */
  function ValidationText(isValidating: bool, result: Option<Workflow.Validation>): (text: string)
    ensures isValidating ==> text == "Validating..."
    ensures !isValidating && result.None? ==> text == "Not validated"
  {
    if isValidating then "Validating..."
    else if result.None? then "Not validated"
    else if result.value.valid then "Valid workflow"
    else "Invalid workflow"
  }

  /** `getValidationIcon()`, by the same cases. */
  function ValidationIcon(isValidating: bool, result: Option<Workflow.Validation>): (icon: Icon)
    ensures isValidating ==> icon == Spinner
  {
    if isValidating then Spinner
    else if result.None? then Warning
    else if result.value.valid then Check
    else Cross
  }

  /** The icon and the text always tell the same story. */
  lemma IconMatchesText(isValidating: bool, result: Option<Workflow.Validation>)
    ensures ValidationIcon(isValidating, result) == Spinner <==> ValidationText(isValidating, result) == "Validating..."
    ensures ValidationIcon(isValidating, result) == Warning <==> ValidationText(isValidating, result) == "Not validated"
    ensures ValidationIcon(isValidating, result) == Check <==> ValidationText(isValidating, result) == "Valid workflow"
    ensures ValidationIcon(isValidating, result) == Cross <==> ValidationText(isValidating, result) == "Invalid workflow"
  {
  }

  /** "Chat with Stack" is enabled (`!validationResult?.valid` is false)
      exactly when a result exists and says valid. */
  function ChatEnabled(result: Option<Workflow.Validation>): (enabled: bool)
    ensures enabled <==> result.Some? && result.value.valid
  {
    !(result.None? || !result.value.valid)
  }

  /** "Build Stack" is disabled while validating or on an empty canvas. */
  function BuildDisabled(isValidating: bool, nodeCount: nat): (disabled: bool)
    ensures !disabled <==> !isValidating && nodeCount > 0
  {
    isValidating || nodeCount == 0
  }

  /** The "Build Stack" button's caption. */
  function BuildLabel(isValidating: bool): (caption: string)
    ensures caption == "Validating..." <==> isValidating
  {
    if isValidating then "Validating..." else "Build Stack"
  }

  /** While validating, the button and the status line say the same. */
  lemma BuildLabelMatchesStatus(isValidating: bool, result: Option<Workflow.Validation>)
    ensures isValidating ==> BuildLabel(isValidating) == ValidationText(isValidating, result)
    ensures !isValidating ==> BuildLabel(isValidating) != ValidationText(isValidating, result)
  {
  }

  /** "Save" is disabled on an empty canvas. */
  function SaveDisabled(nodeCount: nat): (disabled: bool)
    ensures disabled <==> nodeCount == 0
  {
    nodeCount == 0
  }

  /** Chat can be enabled while a new validation runs, but once it is done,
      chat is enabled exactly when the status reads "Valid workflow". */
  lemma ChatFollowsStatus(result: Option<Workflow.Validation>)
    ensures ChatEnabled(result) <==> ValidationText(false, result) == "Valid workflow"
  {
  }

  /** What `handleSave` passes to `onSave`. */
  datatype SaveRequest = SaveRequest(name: string, description: string)

  /** The save dialog: whether it is open (`showSaveModal`), its two fields,
      and the requests passed to `onSave` so far. */
  class SaveModal {
    var isOpen: bool
    var name: string
    var description: string
    var saves: seq<SaveRequest>

    /** Every request sent carries a non-blank trimmed name and a trimmed
        description. */
    ghost predicate Valid()
      reads this
    {
      forall i :: 0 <= i < |saves| ==>
        saves[i].name != "" && Trimmed(saves[i].name, IsJsSpace) && Trimmed(saves[i].description, IsJsSpace)
    }

    /** `showSaveModal` starts false and both fields start empty. */
    constructor ()
      ensures Valid() && !isOpen && name == "" && description == "" && saves == []
    {
      isOpen := false;
      name := "";
      description := "";
      saves := [];
    }

    /** The header's "Save" button (enabled only on a non-empty canvas). */
    method Open(nodeCount: nat)
      requires Valid() && !SaveDisabled(nodeCount)
      modifies this
      ensures Valid() && isOpen
      ensures name == old(name) && description == old(description) && saves == old(saves)
    {
      isOpen := true;
    }

    /** The dialog's "Save Workflow" button is enabled exactly when the
        trimmed name is not empty, the condition under which `handleSave`
        does anything. */
    function CanSave(): (enabled: bool)
      reads this
      ensures enabled <==> exists i :: 0 <= i < |name| && !IsJsSpace(name[i])
    {
      StripEmpty(name, IsJsSpace);
      Strip(name, IsJsSpace) != ""
    }

    /** Typing into the two fields. */
    method SetFields(newName: string, newDescription: string)
      requires Valid()
      modifies this
      ensures Valid() && name == newName && description == newDescription
      ensures isOpen == old(isOpen) && saves == old(saves)
    {
      name := newName;
      description := newDescription;
    }

    /** Cancel: the dialog closes and keeps what was typed. */
    method Close()
      requires Valid()
      modifies this
      ensures Valid() && !isOpen
      ensures name == old(name) && description == old(description) && saves == old(saves)
    {
      isOpen := false;
    }

    /** `handleSave()`: a blank name does nothing; otherwise the trimmed
        name and description are saved, the dialog closes and both fields
        are cleared. */
    method HandleSave()
      requires Valid()
      modifies this
      ensures Valid()
      ensures Strip(old(name), IsJsSpace) == "" ==>
                isOpen == old(isOpen) && name == old(name) && description == old(description) && saves == old(saves)
      ensures Strip(old(name), IsJsSpace) != "" ==>
                && saves == old(saves) + [SaveRequest(Strip(old(name), IsJsSpace), Strip(old(description), IsJsSpace))]
                && !isOpen && name == "" && description == ""
    {
      var trimmedName := Strip(name, IsJsSpace);
      if trimmedName != "" {
        saves := saves + [SaveRequest(trimmedName, Strip(description, IsJsSpace))];
        isOpen := false;
        name := "";
        description := "";
      }
    }
  }
}
