/**
 * The general-information part of the organization form: name and full name take any text; the
 * three numeric fields take only keystrokes made of digits and at most one decimal point; the
 * type comes from a list. Each text field has an error text, cleared on every accepted keystroke
 * and set later by the section's one debounced validator.
 */
module GeneralInfoSection {
  import opened Wrappers
  import opened Strings
  import opened Numbers
  import opened Validation
  import opened Entities

  /** `/^\d*\.?\d*$/.test(value)`: digits, at most one point, digits. */
  predicate NumericKeystroke(value: string) {
    var k := IndexOf(value, '.');
    AllDigits(value[..k]) && (k == |value| || AllDigits(value[k + 1..]))
  }

  /** Character by character: only digits and points, and no two points. */
  lemma NumericKeystrokeIff(value: string)
    ensures NumericKeystroke(value) <==>
      && (forall i :: 0 <= i < |value| ==> IsDigit(value[i]) || value[i] == '.')
      && (forall i, j :: 0 <= i < j < |value| && value[i] == '.' ==> value[j] != '.')
  {
    var k := IndexOf(value, '.');
    if NumericKeystroke(value) {
      forall i | 0 <= i < |value| ensures IsDigit(value[i]) || value[i] == '.' {
        if i < k {
          assert value[i] == value[..k][i];
        } else if i > k {
          assert value[i] == value[k + 1..][i - k - 1];
        }
      }
    }
    if (forall i :: 0 <= i < |value| ==> IsDigit(value[i]) || value[i] == '.')
      && (forall i, j :: 0 <= i < j < |value| && value[i] == '.' ==> value[j] != '.')
    {
      forall i | 0 <= i < k ensures IsDigit(value[..k][i]) {
        assert value[..k][i] == value[i];
      }
      if k < |value| {
        var tail := value[k + 1..];
        forall i | 0 <= i < |tail| ensures IsDigit(tail[i]) {
          assert tail[i] == value[k + 1 + i];
        }
      }
    }
  }

  /**
   * What Number makes of a text the filter lets through: NaN only for a lone point, and never a
   * negative number. So on these fields "must be a valid number" is reported only for ".".
   */
  lemma NumericKeystrokeValue(value: string)
    requires NumericKeystroke(value)
    ensures NumberValue(value).None? <==> value == "."
    ensures NumberValue(value).Some? ==> NumberValue(value).value >= 0.0
  {
    if value != [] {
      NumericTextIsBare(value);
      NumericMagnitude(value);
      ToNumberOfBareText(value);
      var m := ReadMagnitude(value);
      if m.Some? {
        NonNegativeValue(m.value);
      }
    }
  }

  /** Such a text has no surrounding whitespace and no sign, so Number reads it as it stands. */
  lemma NumericTextIsBare(value: string)
    requires NumericKeystroke(value) && value != []
    ensures Trim(value) == value && Unsigned(value) == value && !Negative(value)
  {
    NumericKeystrokeIff(value);
    assert !IsWhitespace(value[0]) && !IsWhitespace(value[|value| - 1]);
    assert TrimStart(value) == value;
  }

  /** The magnitude grammar fails on such a text only when it is a lone point. */
  lemma NumericMagnitude(value: string)
    requires NumericKeystroke(value) && value != []
    ensures ReadMagnitude(value).None? <==> value == "."
  {
    var k := IndexOf(value, '.');
    assert value == value[..k] + value[k..];
    DigitPrefixExtend(value[..k], value[k..]);
    DigitPrefixOfDigits(value[..k]);
    assert DigitPrefix(value) == value[..k];
    if k < |value| {
      assert value[k..][1..] == value[k + 1..];
      if k == 0 && |value| == 1 {
        assert value == ".";
      }
    }
  }

  datatype GeneralField = Name | AnnualTurnover | EmployeesCount | Rating | FullName

  const AllFields: set<GeneralField> := {Name, AnnualTurnover, EmployeesCount, Rating, FullName}

  /** The fields whose keystrokes go through the numeric filter. */
  predicate IsNumeric(f: GeneralField) {
    f == AnnualTurnover || f == EmployeesCount || f == Rating
  }

  /** The validator each field is checked with. */
  function CheckMessage(f: GeneralField, value: string): string {
    match f
    case Name => ValidateName(value)
    case AnnualTurnover => ValidateAnnualTurnover(value)
    case EmployeesCount => ValidateEmployeesCount(value)
    case Rating => ValidateRating(value)
    case FullName => ValidateFullName(value)
  }

  /** The call waiting in the section's one debounced validator. */
  datatype GeneralCheck = GeneralCheck(field: GeneralField, value: string)

  /** All five error texts empty, as the section starts. */
  const NoErrors: map<GeneralField, string> :=
    map[Name := "", AnnualTurnover := "", EmployeesCount := "", Rating := "", FullName := ""]

  class GeneralInfoForm {
    var name: string
    var annualTurnover: string
    var employeesCount: string
    var rating: string
    var fullName: string
    var orgType: Option<OrganizationType>
    var errors: map<GeneralField, string>
    /** The trailing call of the debounced validator, if its 300 ms have not yet run out. */
    var pending: Option<GeneralCheck>

    /** Every text empty, no type chosen, all five errors empty, nothing pending. */
    constructor ()
      ensures name == "" && annualTurnover == "" && employeesCount == "" && rating == "" && fullName == ""
      ensures orgType == None && pending == None
      ensures errors.Keys == AllFields && forall f :: f in errors ==> errors[f] == ""
    {
      name, annualTurnover, employeesCount, rating, fullName := "", "", "", "", "";
      orgType, errors, pending := None, NoErrors, None;
    }

    /** The text of a field. */
    function Text(f: GeneralField): string
      reads this
    {
      match f
      case Name => name
      case AnnualTurnover => annualTurnover
      case EmployeesCount => employeesCount
      case Rating => rating
      case FullName => fullName
    }

    /** `handleNameChange`: any text is taken, its error is cleared and its check is (re)started. */
    method HandleNameChange(value: string)
      modifies this`name, this`errors, this`pending
      ensures name == value && errors == old(errors)[Name := ""] && pending == Some(GeneralCheck(Name, value))
    {
      name := value;
      errors := errors[Name := ""];
      pending := Some(GeneralCheck(Name, value));
    }

    /** `handleFullNameChange`: the same, on the full name. */
    method HandleFullNameChange(value: string)
      modifies this`fullName, this`errors, this`pending
      ensures fullName == value && errors == old(errors)[FullName := ""] && pending == Some(GeneralCheck(FullName, value))
    {
      fullName := value;
      errors := errors[FullName := ""];
      pending := Some(GeneralCheck(FullName, value));
    }

    /**
     * `handleNumericChange`: a keystroke the filter accepts sets the field, clears its error and
     * (re)starts its check; any other keystroke changes nothing. The other texts are never touched.
     */
    method HandleNumericChange(field: GeneralField, value: string)
      requires IsNumeric(field)
      modifies this`annualTurnover, this`employeesCount, this`rating, this`errors, this`pending
      ensures forall g :: g != field ==> Text(g) == old(Text(g))
      ensures NumericKeystroke(value) ==>
        Text(field) == value && errors == old(errors)[field := ""] && pending == Some(GeneralCheck(field, value))
      ensures !NumericKeystroke(value) ==>
        Text(field) == old(Text(field)) && errors == old(errors) && pending == old(pending)
    {
      if value == "" || NumericKeystroke(value) {
        match field {
          case AnnualTurnover => annualTurnover := value;
          case EmployeesCount => employeesCount := value;
          case Rating => rating := value;
        }
        errors := errors[field := ""];
        pending := Some(GeneralCheck(field, value));
      }
    }

    method HandleAnnualTurnoverChange(value: string)
      modifies this`annualTurnover, this`employeesCount, this`rating, this`errors, this`pending
      ensures NumericKeystroke(value) ==>
        annualTurnover == value && errors == old(errors)[AnnualTurnover := ""] && pending == Some(GeneralCheck(AnnualTurnover, value))
      ensures !NumericKeystroke(value) ==> annualTurnover == old(annualTurnover) && errors == old(errors) && pending == old(pending)
      ensures employeesCount == old(employeesCount) && rating == old(rating)
    {
      HandleNumericChange(AnnualTurnover, value);
      assert Text(EmployeesCount) == old(Text(EmployeesCount)) && Text(Rating) == old(Text(Rating));
    }

    method HandleEmployeesCountChange(value: string)
      modifies this`annualTurnover, this`employeesCount, this`rating, this`errors, this`pending
      ensures NumericKeystroke(value) ==>
        employeesCount == value && errors == old(errors)[EmployeesCount := ""] && pending == Some(GeneralCheck(EmployeesCount, value))
      ensures !NumericKeystroke(value) ==> employeesCount == old(employeesCount) && errors == old(errors) && pending == old(pending)
      ensures annualTurnover == old(annualTurnover) && rating == old(rating)
    {
      HandleNumericChange(EmployeesCount, value);
      assert Text(AnnualTurnover) == old(Text(AnnualTurnover)) && Text(Rating) == old(Text(Rating));
    }

    method HandleRatingChange(value: string)
      modifies this`annualTurnover, this`employeesCount, this`rating, this`errors, this`pending
      ensures NumericKeystroke(value) ==>
        rating == value && errors == old(errors)[Rating := ""] && pending == Some(GeneralCheck(Rating, value))
      ensures !NumericKeystroke(value) ==> rating == old(rating) && errors == old(errors) && pending == old(pending)
      ensures annualTurnover == old(annualTurnover) && employeesCount == old(employeesCount)
    {
      HandleNumericChange(Rating, value);
      assert Text(AnnualTurnover) == old(Text(AnnualTurnover)) && Text(EmployeesCount) == old(Text(EmployeesCount));
    }

    /** `handleOrganizationTypeChange`: the chosen type, with no validation. */
    method HandleOrganizationTypeChange(t: OrganizationType)
      modifies this`orgType
      ensures orgType == Some(t)
    {
      orgType := Some(t);
    }

    /** The debounce timer runs out: the waiting check writes its message into its field's error. */
    method DebounceElapsed()
      modifies this`errors, this`pending
      ensures pending == None
      ensures old(pending) == None ==> errors == old(errors)
      ensures old(pending).Some? ==>
        errors == old(errors)[old(pending).value.field := CheckMessage(old(pending).value.field, old(pending).value.value)]
    {
      match pending
      case None =>
      case Some(check) =>
        errors := errors[check.field := CheckMessage(check.field, check.value)];
        pending := None;
    }
  }

  /**
   * A rejected keystroke leaves the accepted text in place: after "12" then "1a2" (a letter) and
   * "1.2." (a second point), the turnover is still "12", and its check reports that 12 is fine.
   */
  method RejectedKeystrokesKeepText(form: GeneralInfoForm)
    modifies form
  {
    form.HandleAnnualTurnoverChange("12");
    form.HandleAnnualTurnoverChange("1a2");
    form.HandleAnnualTurnoverChange("1.2.");
    assert !NumericKeystroke("1.2.") by {
      NumericKeystrokeIff("1.2.");
      assert "1.2."[1] == '.' && "1.2."[3] == '.';
    }
    assert form.annualTurnover == "12";
  }
}
