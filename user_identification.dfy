/** `pages/UserIdentification.tsx`: the name form. */
module UserIdentificationScreen {
  import opened Wrappers
  import opened Text
  import opened Storage
  import opened Ui

  /** The state of a `UserIdentification` screen. */
  class Screen {
    var isFocused: bool
    var isFilled: bool
    /** `undefined` until the first keystroke. */
    var name: Option<string>

    constructor ()
      ensures !isFocused && !isFilled && name.None?
    {
      isFocused, isFilled, name := false, false, None;
    }

    /**
     * `handleInputChange(value)`: the name is the trimmed value, while
     * "filled" looks at the untrimmed one, so spaces alone count as filled.
     */
    method HandleInputChange(value: string)
      modifies this`isFilled, this`name
      ensures isFilled == (value != "")
      ensures name == Some(Trim(value))
      ensures isFilled && name == Some("") <==> value != "" && AllWhiteSpace(value)
    {
      isFilled := value != "";
      name := Some(Trim(value));
    }

    /** `handleInputBlur()`: filled now means a non-empty stored name. */
    method HandleInputBlur()
      modifies this`isFocused, this`isFilled
      ensures !isFocused
      ensures isFilled == (name.Some? && name.value != "")
    {
      isFocused := false;
      isFilled := name.Some? && name.value != "";
    }

    /** `handleInputFocus()`. */
    method HandleInputFocus()
      modifies this`isFocused
      ensures isFocused
    {
      isFocused := true;
    }

    /**
     * `handleSubmit()`: without a name, alert and stop; otherwise store the
     * name under "@plantmanager:user" and show the confirmation leading to
     * PlantSelect, or alert when the write rejects.
     */
    method HandleSubmit(storage: DeviceStorage, writeRejects: bool) returns (effect: Effect)
      requires storage.Valid()
      modifies storage`user
      ensures storage.Valid()
      ensures name.None? || name.value == "" ==> effect == Alert(AskForName) && storage.user == old(storage.user)
      ensures name.Some? && name.value != "" && writeRejects ==>
        effect == Alert(CouldNotSaveName) && storage.user == old(storage.user)
      ensures name.Some? && name.value != "" && !writeRejects ==>
        effect == ShowConfirmation(PlantSelect) && storage.user == name
    {
      if name.None? || name.value == "" {
        return Alert(AskForName);
      }
      if writeRejects {
        return Alert(CouldNotSaveName);
      }
      storage.user := name;
      effect := ShowConfirmation(PlantSelect);
    }
  }
}
