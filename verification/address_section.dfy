/**
 * The address part of the organization form (used twice: for the official and the postal
 * address): typing a street or zip, switching between manual entry and an existing record, and
 * picking a stored record. Street and zip take any text; there is no keystroke filter.
 */
module AddressSection {
  import opened Wrappers
  import opened Validation
  import opened Entities
  import opened OrganizationApi

  datatype AddressField = Street | Zip

  /** The call waiting in the section's one debounced validator. */
  datatype AddressCheck = AddressCheck(field: AddressField, value: string)

  function CheckMessage(c: AddressCheck): string {
    if c.field == Street then ValidateStreet(c.value) else ValidateZip(c.value)
  }

  class AddressForm {
    var mode: InputMode
    var street: string
    var zip: string
    var selected: Selection
    var errorStreet: string
    var errorZip: string
    /** The trailing call of the debounced validator, if its 300 ms have not yet run out. */
    var pending: Option<AddressCheck>

    /** The dialog opens in manual mode with empty fields, nothing selected, no errors and no pending check. */
    constructor ()
      ensures mode == Manual && street == "" && zip == "" && selected == Unselected
      ensures errorStreet == "" && errorZip == "" && pending == None
    {
      mode, street, zip, selected := Manual, "", "", Unselected;
      errorStreet, errorZip, pending := "", "", None;
    }

    function Slot(): AddressSlot
      reads this
    {
      AddressSlot(mode, street, zip, selected)
    }

    /** `handleStreetChange`: any text is taken, the street's error is cleared and its check is (re)started. */
    method HandleStreetChange(value: string)
      modifies this`street, this`errorStreet, this`pending
      ensures street == value && errorStreet == "" && pending == Some(AddressCheck(Street, value))
    {
      street := value;
      errorStreet := "";
      pending := Some(AddressCheck(Street, value));
    }

    /** `handleZipCodeChange`: the same, on the zip. */
    method HandleZipChange(value: string)
      modifies this`zip, this`errorZip, this`pending
      ensures zip == value && errorZip == "" && pending == Some(AddressCheck(Zip, value))
    {
      zip := value;
      errorZip := "";
      pending := Some(AddressCheck(Zip, value));
    }

    /** The debounce timer runs out: the waiting check writes its message into its field's error. */
    method DebounceElapsed()
      modifies this`errorStreet, this`errorZip, this`pending
      ensures pending == None
      ensures old(pending) == None ==> errorStreet == old(errorStreet) && errorZip == old(errorZip)
      ensures old(pending).Some? && old(pending).value.field == Street ==>
        errorStreet == CheckMessage(old(pending).value) && errorZip == old(errorZip)
      ensures old(pending).Some? && old(pending).value.field == Zip ==>
        errorZip == CheckMessage(old(pending).value) && errorStreet == old(errorStreet)
    {
      match pending
      case None =>
      case Some(check) =>
        if check.field == Street {
          errorStreet := ValidateStreet(check.value);
        } else {
          errorZip := ValidateZip(check.value);
        }
        pending := None;
    }

    /**
     * Manual clears the selection and keeps the typed text; existing clears street, zip and both
     * errors. Neither cancels a waiting check.
     */
    method HandleInputModeChange(newMode: InputMode)
      modifies this`mode, this`selected, this`street, this`zip, this`errorStreet, this`errorZip
      ensures mode == newMode
      ensures newMode == Manual ==>
        selected == Unselected && street == old(street) && zip == old(zip)
        && errorStreet == old(errorStreet) && errorZip == old(errorZip)
      ensures newMode == Existing ==>
        selected == old(selected) && street == "" && zip == "" && errorStreet == "" && errorZip == ""
    {
      mode := newMode;
      if newMode == Manual {
        selected := Unselected;
      } else {
        street, zip := "", "";
        errorStreet, errorZip := "", "";
      }
    }

    /**
     * `handleAddressSelect`: the chosen item always becomes the selection, the "None selected"
     * item (the empty value) included; when the choice is an id the store holds, its street and
     * zip are copied into the fields and both errors are cleared. The empty value matches no
     * stored record, so it changes nothing else.
     */
    method HandleAddressSelect(s: Selection, store: map<int, Address>)
      modifies this`selected, this`street, this`zip, this`errorStreet, this`errorZip
      ensures selected == s
      ensures s.Selected? && s.id in store ==>
        street == store[s.id].street && zip == store[s.id].zip && errorStreet == "" && errorZip == ""
      ensures s == Unselected || s.id !in store ==>
        street == old(street) && zip == old(zip) && errorStreet == old(errorStreet) && errorZip == old(errorZip)
    {
      selected := s;
      if s.Selected? && s.id in store {
        var a := store[s.id];
        street := a.street;
        zip := a.zip;
        errorStreet, errorZip := "", "";
      }
    }
  }

  /**
   * Switching to an existing record while a street check waits: the fields and errors are
   * cleared at once, and when the timer runs out the stale check still reports on the old text.
   */
  method StaleCheckSurvivesModeChange(form: AddressForm)
    modifies form
  {
    form.HandleStreetChange("");
    form.HandleInputModeChange(Existing);
    assert form.errorStreet == "";
    form.DebounceElapsed();
    assert form.street == "" && form.errorStreet == "Street name cannot be empty";
  }
}
