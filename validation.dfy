/**
  The two stand-alone validators of the ledger: the name pattern
  `^[A-Za-z\s]+$` and the positive-amount check used by the shell.
 */
module Validation {

  /**
    What `float(amount)` makes of the caller's argument: a number (money in
    whole smallest units), the special value NaN (`float("nan")`), or a
    `TypeError`/`ValueError` because the argument is not numeric.
   */
  datatype Amount = Number(value: int) | NaN | NotNumeric

  /** The character class `[A-Za-z]`: ASCII letters only. */
  predicate IsAsciiLetter(c: char) {
    'A' <= c <= 'Z' || 'a' <= c <= 'z'
  }

  /**
    `\s` in a pattern over `str`: the Unicode whitespace characters, the
    same set as `str.isspace`.
   */
  function IsWhitespace(c: char): (r: bool)
    ensures c == ' ' || c == '\t' || c == '\n' || c == '\r' || c == '\U{00A0}' ==> r
    ensures r ==> !IsAsciiLetter(c) && !('0' <= c <= '9') && c != '_'
  {
    var n := c as int;
    || 0x09 <= n <= 0x0D
    || 0x1C <= n <= 0x20
    || n == 0x85 || n == 0xA0 || n == 0x1680
    || 0x2000 <= n <= 0x200A
    || n == 0x2028 || n == 0x2029 || n == 0x202F || n == 0x205F || n == 0x3000
  }

  /** The class `[A-Za-z\s]`. */
  predicate IsNameChar(c: char) {
    IsAsciiLetter(c) || IsWhitespace(c)
  }

  /**
    The repetition `[A-Za-z\s]*` followed by `$`, consuming `s` one character
    at a time: it reaches the end exactly when every character is in the class.
   */
  function MatchesToEnd(s: string): (r: bool)
    ensures r <==> forall i | 0 <= i < |s| :: IsNameChar(s[i])
  {
    if s == [] then true
    else IsNameChar(s[0]) && MatchesToEnd(s[1..])
  }

  /**
    `is_valid_name`: `re.match("^[A-Za-z\s]+$", name)` succeeds. The `+`
    demands at least one character.
   */
  function IsValidName(name: string): (r: bool)
    ensures r <==> |name| > 0 && forall i | 0 <= i < |name| :: IsNameChar(name[i])
    ensures r ==> forall i | 0 <= i < |name| :: !('0' <= name[i] <= '9')
  {
    |name| > 0 && MatchesToEnd(name)
  }

  /**
    `is_valid_amount`: the text converts to a number that compares greater
    than zero; a conversion failure gives false, and so does NaN, since every
    comparison with NaN is false.
   */
  function IsValidAmount(amount: Amount): (r: bool)
    ensures r ==> amount.Number? && amount.value >= 1
    ensures amount.Number? && amount.value > 0 ==> r
    ensures amount.NaN? || amount.NotNumeric? ==> !r
  {
    match amount
    case Number(v) => v > 0
    case NaN => false
    case NotNumeric => false
  }

  /** A name with a space in it is accepted. */
  lemma AcceptedName()
    ensures IsValidName("Alice Smith")
  {
    var s := "Alice Smith";
    assert IsWhitespace(s[5]);
    assert forall i | 0 <= i < |s| && i != 5 :: IsAsciiLetter(s[i]);
  }

  /** A non-empty name of ASCII letters only is valid. */
  lemma LettersOnlyIsValid(name: string)
    requires |name| > 0 && forall i | 0 <= i < |name| :: IsAsciiLetter(name[i])
    ensures IsValidName(name)
  {
  }

  /** The names of the unit tests' account-creation cases. */
  lemma CreateTestNames()
    ensures IsValidName("Alice") && IsValidName("Bob")
  {
    LettersOnlyIsValid("Alice");
    LettersOnlyIsValid("Bob");
  }

  /** The names of the unit tests' deposit cases. */
  lemma DepositTestNames()
    ensures IsValidName("Charlie") && IsValidName("David") && IsValidName("Mike")
  {
    LettersOnlyIsValid("Charlie");
    LettersOnlyIsValid("David");
    LettersOnlyIsValid("Mike");
  }

  /** The names of the unit tests' withdrawal cases. */
  lemma WithdrawTestNames()
    ensures IsValidName("Eve") && IsValidName("Frank") && IsValidName("Lily")
  {
    LettersOnlyIsValid("Eve");
    LettersOnlyIsValid("Frank");
    LettersOnlyIsValid("Lily");
  }

  /** The names of the unit tests' transfer cases. */
  lemma TransferTestNames()
    ensures IsValidName("Grace") && IsValidName("Hannah") && IsValidName("Ivy")
    ensures IsValidName("Jack") && IsValidName("John") && IsValidName("Paul")
  {
    LettersOnlyIsValid("Grace");
    LettersOnlyIsValid("Hannah");
    LettersOnlyIsValid("Ivy");
    LettersOnlyIsValid("Jack");
    LettersOnlyIsValid("John");
    LettersOnlyIsValid("Paul");
  }

  /**
    Names the unit tests reject: digits, and a non-ASCII letter followed by
    two invisible control characters; and the empty name.
   */
  lemma RejectedNames()
    ensures !IsValidName("Alice123")
    ensures !IsValidName("\U{0111}\U{009F}\U{0092}\U{00B0}Bob")
    ensures !IsValidName("")
  {
    assert !IsNameChar("Alice123"[5]);
    assert !IsNameChar("\U{0111}\U{009F}\U{0092}\U{00B0}Bob"[0]);
  }
}
