/**
 * The field validators. Each one runs its checks in a fixed order and returns the message of
 * the first check that fails, or "" when the value is acceptable.
 */
module Validation {
  import opened Wrappers
  import opened Strings
  import opened Numbers

  /** `/^[a-zA-Z0-9]+$/.test(s)` */
  predicate AlphanumericOnly(s: string) {
    |s| > 0 && forall i :: 0 <= i < |s| ==> IsAsciiAlphanumeric(s[i])
  }

  /** The text `Number(s)` reads as a number (None for NaN). */
  function NumberValue(s: string): Option<real> {
    match ToNumber(s)
    case None => None
    case Some(d) => Some(Value(d))
  }

  // ---- the acceptance conditions, stated on the exact value of the text ----

  /** Between 3 and 50 UTF-16 code units, every one of them `[a-zA-Z0-9]`. */
  predicate IsUsername(s: string) {
    3 <= Utf16Length(s) <= 50 && forall i :: 0 <= i < |s| ==> IsAsciiAlphanumeric(s[i])
  }

  predicate IsPositiveInteger(s: string) {
    |s| > 0 && NumberValue(s).Some? && NumberValue(s).value > 0.0 && IsWhole(NumberValue(s).value)
  }

  predicate IsPositiveNumber(s: string) {
    |s| > 0 && NumberValue(s).Some? && NumberValue(s).value > 0.0
  }

  predicate IsIntegerAtMost(s: string, bound: int) {
    |s| > 0 && NumberValue(s).Some? && IsWhole(NumberValue(s).value) && NumberValue(s).value <= bound as real
  }

  predicate IsIntegerText(s: string) {
    |s| > 0 && NumberValue(s).Some? && IsWhole(NumberValue(s).value)
  }

  // ---- the validators ----

  /** The length checks count UTF-16 code units, as `username.length` does. */
  function ValidateUsername(username: string): (r: string)
    ensures r == "" <==> IsUsername(username)
    ensures |username| == 0 ==> r == "Username cannot be empty"
    ensures 0 < Utf16Length(username) < 3 ==> r == "Username must be at least 3 characters"
    ensures Utf16Length(username) > 50 ==> r == "Username must be less than 50 characters"
    ensures 3 <= Utf16Length(username) <= 50 && !AlphanumericOnly(username) ==>
      r == "Username can only contain letters and numbers"
  {
    var n := Utf16Length(username);
    if n == 0 then "Username cannot be empty"
    else if n < 3 then "Username must be at least 3 characters"
    else if n > 50 then "Username must be less than 50 characters"
    else if !AlphanumericOnly(username) then "Username can only contain letters and numbers"
    else ""
  }

  /** Only emptiness is checked; a password of spaces is accepted. */
  function ValidatePassword(password: string): (r: string)
    ensures r == "" <==> |password| > 0
    ensures |password| == 0 ==> r == "Password cannot be empty"
  {
    if |password| == 0 then "Password cannot be empty" else ""
  }

  function ValidateName(name: string): (r: string)
    ensures r == "" <==> |name| > 0 && !IsBlank(name)
    ensures |name| == 0 ==> r == "Name cannot be empty"
    ensures |name| > 0 && IsBlank(name) ==> r == "Name cannot be only whitespace"
  {
    TrimEmptyIffBlank(name);
    if |name| == 0 then "Name cannot be empty"
    else if |Trim(name)| == 0 then "Name cannot be only whitespace"
    else ""
  }

  function ValidateFullName(fullName: string): (r: string)
    ensures r == "" <==> |fullName| > 0 && !IsBlank(fullName)
    ensures |fullName| == 0 ==> r == "Full name cannot be empty"
    ensures |fullName| > 0 && IsBlank(fullName) ==> r == "Full name cannot be only whitespace"
  {
    TrimEmptyIffBlank(fullName);
    if |fullName| == 0 then "Full name cannot be empty"
    else if |Trim(fullName)| == 0 then "Full name cannot be only whitespace"
    else ""
  }

  /** Applies the number checks to Number(s) and relates them to its exact value. */
  lemma NumberChecks(d: Decimal, bound: int)
    ensures d.units > 0 <==> Value(d) > 0.0
    ensures d.units % Pow10(d.scale) == 0 <==> IsWhole(Value(d))
    ensures d.units > bound * Pow10(d.scale) <==> Value(d) > bound as real
  {
    PositiveIff(d);
    WholeIff(d);
    ExceedsIff(d, bound);
  }

  function ValidateAnnualTurnover(turnover: string): (r: string)
    ensures r == "" <==> IsPositiveInteger(turnover)
    ensures |turnover| == 0 ==> r == "Annual turnover cannot be empty"
    ensures |turnover| > 0 && NumberValue(turnover).None? ==> r == "Annual turnover must be a valid number"
    ensures |turnover| > 0 && NumberValue(turnover).Some? && NumberValue(turnover).value <= 0.0
      ==> r == "Annual turnover must be greater than 0"
    ensures (|turnover| > 0 && NumberValue(turnover).Some? && NumberValue(turnover).value > 0.0
      && !IsWhole(NumberValue(turnover).value)) ==> r == "Annual turnover must be an integer"
  {
    if |turnover| == 0 then "Annual turnover cannot be empty"
    else match ToNumber(turnover)
      case None => "Annual turnover must be a valid number"
      case Some(num) =>
        NumberChecks(num, 0);
        if num.units <= 0 then "Annual turnover must be greater than 0"
        else if num.units % Pow10(num.scale) != 0 then "Annual turnover must be an integer"
        else ""
  }

  function ValidateEmployeesCount(count: string): (r: string)
    ensures r == "" <==> IsPositiveInteger(count)
    ensures |count| == 0 ==> r == "Employees count cannot be empty"
    ensures |count| > 0 && NumberValue(count).None? ==> r == "Employees count must be a valid number"
    ensures |count| > 0 && NumberValue(count).Some? && NumberValue(count).value <= 0.0
      ==> r == "Employees count must be greater than 0"
    ensures (|count| > 0 && NumberValue(count).Some? && NumberValue(count).value > 0.0
      && !IsWhole(NumberValue(count).value)) ==> r == "Employees count must be an integer"
  {
    if |count| == 0 then "Employees count cannot be empty"
    else match ToNumber(count)
      case None => "Employees count must be a valid number"
      case Some(num) =>
        NumberChecks(num, 0);
        if num.units <= 0 then "Employees count must be greater than 0"
        else if num.units % Pow10(num.scale) != 0 then "Employees count must be an integer"
        else ""
  }

  /** Unlike turnover and employees, the rating is not required to be an integer. */
  function ValidateRating(rating: string): (r: string)
    ensures r == "" <==> IsPositiveNumber(rating)
    ensures |rating| == 0 ==> r == "Rating cannot be empty"
    ensures |rating| > 0 && NumberValue(rating).None? ==> r == "Rating must be a valid number"
    ensures |rating| > 0 && NumberValue(rating).Some? && NumberValue(rating).value <= 0.0
      ==> r == "Rating must be greater than 0"
  {
    if |rating| == 0 then "Rating cannot be empty"
    else match ToNumber(rating)
      case None => "Rating must be a valid number"
      case Some(num) =>
        NumberChecks(num, 0);
        if num.units <= 0 then "Rating must be greater than 0"
        else ""
  }

  /** An integer up to 442; there is no lower bound. */
  function ValidateCoordinatesX(x: string): (r: string)
    ensures r == "" <==> IsIntegerAtMost(x, 442)
    ensures |x| == 0 ==> r == "X is required"
    ensures |x| > 0 && (NumberValue(x).None? || !IsWhole(NumberValue(x).value)) ==> r == "X must be a valid integer"
    ensures IsIntegerText(x) && NumberValue(x).value > 442.0 ==> r == "X must be less than 443"
  {
    if |x| == 0 then "X is required"
    else match ToNumber(x)
      case None => "X must be a valid integer"
      case Some(num) =>
        NumberChecks(num, 442);
        if num.units % Pow10(num.scale) != 0 then "X must be a valid integer"
        else if num.units > 442 * Pow10(num.scale) then "X must be less than 443"
        else ""
  }

  function ValidateCoordinatesY(y: string): (r: string)
    ensures r == "" <==> IsIntegerText(y)
    ensures |y| == 0 ==> r == "Y is required"
    ensures |y| > 0 && !IsIntegerText(y) ==> r == "Y must be a valid integer"
  {
    if |y| == 0 then "Y is required"
    else match ToNumber(y)
      case None => "Y must be a valid integer"
      case Some(num) =>
        NumberChecks(num, 0);
        if num.units % Pow10(num.scale) != 0 then "Y must be a valid integer"
        else ""
  }

  /** Only emptiness is checked. */
  function ValidateStreet(street: string): (r: string)
    ensures r == "" <==> |street| > 0
    ensures |street| == 0 ==> r == "Street name cannot be empty"
  {
    if |street| == 0 then "Street name cannot be empty" else ""
  }

  /** Only emptiness is checked. */
  function ValidateZip(zip: string): (r: string)
    ensures r == "" <==> |zip| > 0
    ensures |zip| == 0 ==> r == "Zip cannot be empty"
  {
    if |zip| == 0 then "Zip cannot be empty" else ""
  }

  // ---- boundaries ----

  /** A username of 50 characters is accepted; one of 51 is not. */
  lemma UsernameLengthBoundary()
    ensures ValidateUsername(seq(50, _ => 'a')) == ""
    ensures ValidateUsername(seq(51, _ => 'a')) == "Username must be less than 50 characters"
  {
    Utf16LengthOfBmp(seq(50, _ => 'a'));
    Utf16LengthOfBmp(seq(51, _ => 'a'));
  }

  /**
   * A character above U+FFFF counts twice: "a" followed by an emoji is three code units long,
   * so it passes the length checks and fails on the character class.
   */
  lemma SupplementaryCharacterCountsTwice()
    ensures Utf16Length("a\U{1F600}") == 3
    ensures ValidateUsername("a\U{1F600}") == "Username can only contain letters and numbers"
  {
    assert "a\U{1F600}"[1..] == "\U{1F600}";
    assert "\U{1F600}"[1..] == "";
  }

  /** The empty check comes first: an empty username is reported as empty, not as too short. */
  lemma EmptyUsernameReportsEmpty()
    ensures ValidateUsername("") == "Username cannot be empty"
  {
  }

  /** The text of an integer n reads back as n, which is whole. */
  lemma NumberValueOfInteger(n: int)
    ensures |IntToString(n)| > 0
    ensures NumberValue(IntToString(n)) == Some(n as real)
    ensures IsWhole(n as real)
  {
    ToNumberOfIntToString(n);
    assert Pow10(0) == 1;
    assert Value(Decimal(n, 0)) == n as real;
  }

  /** On the decimal text of an integer n, X is accepted exactly when n <= 442 (so 442 passes, 443 fails, and -1000000 passes). */
  lemma CoordinatesXOfInteger(n: int)
    ensures ValidateCoordinatesX(IntToString(n)) == "" <==> n <= 442
    ensures n > 442 ==> ValidateCoordinatesX(IntToString(n)) == "X must be less than 443"
  {
    NumberValueOfInteger(n);
    assert IsIntegerAtMost(IntToString(n), 442) <==> n <= 442;
    assert IsIntegerText(IntToString(n));
  }

  /** Y accepts the decimal text of every integer. */
  lemma CoordinatesYOfInteger(n: int)
    ensures ValidateCoordinatesY(IntToString(n)) == ""
  {
    NumberValueOfInteger(n);
    assert IsIntegerText(IntToString(n));
  }

  /** A lone minus sign, which the X / Y keystroke filter lets through, is not an integer. */
  lemma LoneMinusIsNotAnInteger()
    ensures ValidateCoordinatesY("-") == "Y must be a valid integer"
    ensures ValidateCoordinatesX("-") == "X must be a valid integer"
  {
    assert Trim("-") == "-";
    assert DigitPrefix("") == "";
  }

  /** The rating "2.5" is accepted (there is no integer check), while "2.5" as turnover is refused. */
  lemma RatingAcceptsFraction()
    ensures ValidateRating("2.5") == ""
    ensures ValidateAnnualTurnover("2.5") == "Annual turnover must be an integer"
  {
    TwoPointFive();
    assert Pow10(1) == 10;
    assert 25 % Pow10(1) != 0;
  }
}
