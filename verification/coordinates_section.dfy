/**
 * The coordinates part of the organization form: the keystroke filter on X and Y, and the
 * handlers for typing, switching between manual entry and an existing record, and picking a
 * stored record. The field values belong to the dialog and the error texts to the section; the
 * model keeps both in one object.
 */
module CoordinatesSection {
  import opened Wrappers
  import opened Strings
  import opened Numbers
  import opened Validation
  import opened Entities
  import opened OrganizationApi
  import OrganizationModal

  /** `value === "" || /^-?\d*$/.test(value)`: an optional minus sign, then digits only. */
  predicate CoordinateKeystroke(value: string) {
    value == "" || AllDigits(if value != [] && value[0] == '-' then value[1..] else value)
  }

  /** Character by character: every character is a digit, except a '-' in first position. */
  lemma CoordinateKeystrokeIff(value: string)
    ensures CoordinateKeystroke(value) <==>
      forall i :: 0 <= i < |value| ==> IsDigit(value[i]) || (i == 0 && value[i] == '-')
  {
    if value != [] && value[0] == '-' {
      if forall i :: 0 <= i < |value| ==> IsDigit(value[i]) || (i == 0 && value[i] == '-') {
        forall i | 0 <= i < |value[1..]| ensures IsDigit(value[1..][i]) {
          assert value[1..][i] == value[i + 1];
        }
      }
      if CoordinateKeystroke(value) {
        forall i | 1 <= i < |value| ensures IsDigit(value[i]) {
          assert value[i] == value[1..][i - 1];
        }
      }
    }
  }

  /** The text of any integer passes the filter, so a stored record's numbers can be shown in the fields. */
  lemma IntegerTextPasses(n: int)
    ensures CoordinateKeystroke(IntToString(n))
  {
    var digits := NatToDigits(if n < 0 then -n else n);
    if n < 0 {
      assert IntToString(n)[1..] == digits;
    } else {
      assert IntToString(n)[0] != '-';
    }
  }

  /**
   * Number and parseInt read a text that passes the filter the same way: both fail only on ""
   * (which Number reads as 0) and "-", and otherwise give the same integer.
   */
  lemma FilteredTextReadsAsInteger(value: string)
    requires CoordinateKeystroke(value) && value != "" && value != "-"
    ensures ParseInt(value).Some?
    ensures ToNumber(value) == Some(Decimal(ParseInt(value).value, 0))
  {
    var digits := Unsigned(value);
    assert digits == (if value[0] == '-' then value[1..] else value);
    assert digits != [];
    MagnitudeOfDigits(digits);
    DigitPrefixOfDigits(digits);
    assert !IsWhitespace(value[0]) && !IsWhitespace(value[|value| - 1]) by {
      assert IsDigit(value[|value| - 1]) by {
        if value[0] == '-' {
          assert value[|value| - 1] == digits[|digits| - 1];
        }
      }
    }
    assert TrimStart(value) == value;
    assert Trim(value) == value;
  }

  /** On a text that passes the filter, the Y check fails only for "" and "-". */
  lemma FilteredYIsValid(value: string)
    requires CoordinateKeystroke(value)
    ensures ValidateCoordinatesY(value) == "" <==> value != "" && value != "-"
  {
    if value == "-" {
      LoneMinusIsNotAnInteger();
    } else if value != "" {
      FilteredTextReadsAsInteger(value);
      var n := ParseInt(value).value;
      assert Pow10(0) == 1;
      assert Value(Decimal(n, 0)) == n as real;
    }
  }

  /** The two fields whose error texts the section keeps. */
  datatype CoordinatesField = X | Y

  /** The call waiting in the section's one debounced validator: which field, and the text it will check. */
  datatype CoordinatesCheck = CoordinatesCheck(field: CoordinatesField, value: string)

  function CheckMessage(c: CoordinatesCheck): string {
    if c.field == X then ValidateCoordinatesX(c.value) else ValidateCoordinatesY(c.value)
  }

  class CoordinatesForm {
    var mode: InputMode
    var x: string
    var y: string
    var selected: Selection
    var errorX: string
    var errorY: string
    /** The trailing call of the debounced validator, if its 300 ms have not yet run out. */
    var pending: Option<CoordinatesCheck>

    /** The dialog opens in manual mode with empty fields, nothing selected, no errors and no pending check. */
    constructor ()
      ensures mode == Manual && x == "" && y == "" && selected == Unselected
      ensures errorX == "" && errorY == "" && pending == None
    {
      mode, x, y, selected := Manual, "", "", Unselected;
      errorX, errorY, pending := "", "", None;
    }

    function Slot(): CoordinatesSlot
      reads this
    {
      CoordinatesSlot(mode, x, y, selected)
    }

    /**
     * `handleXChange`: a keystroke the filter accepts sets X, clears X's error and (re)starts the
     * debounced check of X, replacing whatever check was waiting; any other keystroke changes nothing.
     */
    method HandleXChange(value: string)
      modifies this`x, this`errorX, this`pending
      ensures CoordinateKeystroke(value) ==> x == value && errorX == "" && pending == Some(CoordinatesCheck(X, value))
      ensures !CoordinateKeystroke(value) ==> x == old(x) && errorX == old(errorX) && pending == old(pending)
    {
      if value == "" || CoordinateKeystroke(value) {
        x := value;
        errorX := "";
        pending := Some(CoordinatesCheck(X, value));
      }
    }

    /** `handleYChange`: the same filter and the same debounced validator, on Y. */
    method HandleYChange(value: string)
      modifies this`y, this`errorY, this`pending
      ensures CoordinateKeystroke(value) ==> y == value && errorY == "" && pending == Some(CoordinatesCheck(Y, value))
      ensures !CoordinateKeystroke(value) ==> y == old(y) && errorY == old(errorY) && pending == old(pending)
    {
      if value == "" || CoordinateKeystroke(value) {
        y := value;
        errorY := "";
        pending := Some(CoordinatesCheck(Y, value));
      }
    }

    /** The debounce timer runs out: the waiting check writes its message into its field's error. */
    method DebounceElapsed()
      modifies this`errorX, this`errorY, this`pending
      ensures pending == None
      ensures old(pending) == None ==> errorX == old(errorX) && errorY == old(errorY)
      ensures old(pending).Some? && old(pending).value.field == X ==>
        errorX == CheckMessage(old(pending).value) && errorY == old(errorY)
      ensures old(pending).Some? && old(pending).value.field == Y ==>
        errorY == CheckMessage(old(pending).value) && errorX == old(errorX)
    {
      match pending
      case None =>
      case Some(check) =>
        if check.field == X {
          errorX := ValidateCoordinatesX(check.value);
        } else {
          errorY := ValidateCoordinatesY(check.value);
        }
        pending := None;
    }

    /**
     * Manual clears the selection and keeps the typed numbers; existing clears both numbers and
     * both errors. Neither cancels a waiting check.
     */
    method HandleInputModeChange(newMode: InputMode)
      modifies this`mode, this`selected, this`x, this`y, this`errorX, this`errorY
      ensures mode == newMode
      ensures newMode == Manual ==>
        selected == Unselected && x == old(x) && y == old(y) && errorX == old(errorX) && errorY == old(errorY)
      ensures newMode == Existing ==> selected == old(selected) && x == "" && y == "" && errorX == "" && errorY == ""
    {
      mode := newMode;
      if newMode == Manual {
        selected := Unselected;
      } else {
        x, y := "", "";
        errorX, errorY := "", "";
      }
    }

    /**
     * `handleCoordinateSelect`: the chosen item always becomes the selection, the "None selected"
     * item (the empty value) included; when the choice is an id the store holds, its numbers are
     * copied into the fields as decimal text and both errors are cleared. The empty value matches
     * no stored record, so it changes nothing else.
     */
    method HandleCoordinateSelect(s: Selection, store: map<int, Coordinates>)
      modifies this`selected, this`x, this`y, this`errorX, this`errorY
      ensures selected == s
      ensures s.Selected? && s.id in store ==>
        x == IntToString(store[s.id].x) && y == IntToString(store[s.id].y) && errorX == "" && errorY == ""
      ensures s == Unselected || s.id !in store ==>
        x == old(x) && y == old(y) && errorX == old(errorX) && errorY == old(errorY)
    {
      selected := s;
      if s.Selected? && s.id in store {
        var c := store[s.id];
        x := IntToString(c.x);
        y := IntToString(c.y);
        errorX, errorY := "", "";
      }
    }
  }

  /**
   * Picking a stored record fills the fields with text the filter accepts and the Y check passes;
   * a rejected keystroke afterwards leaves the copied text alone.
   */
  method SelectThenType(form: CoordinatesForm, store: map<int, Coordinates>, id: int, keystroke: string)
    requires id in store && !CoordinateKeystroke(keystroke)
    modifies form
  {
    form.HandleCoordinateSelect(Selected(id), store);
    IntegerTextPasses(store[id].x);
    CoordinatesYOfInteger(store[id].y);
    assert CoordinateKeystroke(form.x) && ValidateCoordinatesY(form.y) == "";
    form.HandleXChange(keystroke);
    assert form.x == IntToString(store[id].x);
  }

  /**
   * In existing mode, choosing "None selected" after a record takes the selection back to the
   * empty value: the copied numbers stay in the fields, and the coordinates no longer count as
   * filled in, so the Create button is disabled again.
   */
  method SelectThenDeselect(form: CoordinatesForm, store: map<int, Coordinates>, id: int)
    requires form.mode == Existing
    modifies form
    ensures form.selected == Unselected
    ensures !OrganizationModal.CoordinatesValid(form.Slot())
  {
    form.HandleCoordinateSelect(Selected(id), store);
    var x, y := form.x, form.y;
    form.HandleCoordinateSelect(Unselected, store);
    assert form.x == x && form.y == y;
  }

  /**
   * The section has one debounced validator for both fields: typing Y within 300 ms of typing X
   * replaces X's check, so X's error stays empty even when X is out of range (as "500" is).
   */
  method TypingYCancelsTheCheckOfX(form: CoordinatesForm, x: string, y: string)
    requires CoordinateKeystroke(x) && ValidateCoordinatesX(x) != "" && CoordinateKeystroke(y)
    modifies form
  {
    form.HandleXChange(x);
    form.HandleYChange(y);
    form.DebounceElapsed();
    assert form.x == x && form.errorX == "";
  }
}
