/**
 * The two RegexValidators declared on UserRegisterForm and UserEditForm:
 *
 *   latin_validator  `^[a-zA-Z-]*$`   on the username field
 *   kiril_validator  `^[а-яА-Я- ]*$`  on first_name, last_name and patronymic
 *
 * Django's RegexValidator runs Python's `re.search` and raises its message
 * when there is no match. The pattern is modelled the way Python's regular
 * expression engine reads it: a greedy run of class characters anchored at
 * the start, then `$`, which matches at the end of the string and also just
 * before a newline that ends the string.
 */
module Validators {
  import opened FormResult

  /** The two character classes: `[a-zA-Z-]` and `[а-яА-Я- ]`. */
  datatype CharClass = Latin | Kiril

  /**
   * Membership in a class. The Cyrillic ranges are by code point,
   * А (U+0410) to Я (U+042F) and а (U+0430) to я (U+044F), so ё (U+0451)
   * and Ё (U+0401) lie outside them.
   */
  predicate InClass(cls: CharClass, c: char) {
    match cls
    case Latin => 'a' <= c <= 'z' || 'A' <= c <= 'Z' || c == '-'
    case Kiril => 'а' <= c <= 'я' || 'А' <= c <= 'Я' || c == '-' || c == ' '
  }

  /** Every character of `s` is in the class. */
  predicate AllIn(cls: CharClass, s: string) {
    forall i :: 0 <= i < |s| ==> InClass(cls, s[i])
  }

  /**
   * The strings the pattern accepts, read declaratively: all characters in
   * the class, or all but a final newline.
   */
  predicate Accepts(cls: CharClass, s: string) {
    AllIn(cls, s) || (|s| > 0 && s[|s| - 1] == '\n' && AllIn(cls, s[..|s| - 1]))
  }

  /** How far the greedy `[...]*` runs from the start of `s`. */
  function Span(cls: CharClass, s: string): (n: nat)
    ensures n <= |s|
    ensures forall i :: 0 <= i < n ==> InClass(cls, s[i])
    ensures n < |s| ==> !InClass(cls, s[n])
  {
    if s == [] || !InClass(cls, s[0]) then 0 else 1 + Span(cls, s[1..])
  }

  /**
   * `re.search('^[...]*$', s)` finds a match: after the greedy run `$` holds,
   * either at the end of `s` or right before its final newline. Backtracking
   * to a shorter run cannot help, since `$` holds at no earlier position.
   */
  predicate PatternMatches(cls: CharClass, s: string) {
    var n := Span(cls, s);
    n == |s| || (n == |s| - 1 && s[n] == '\n')
  }

  /** The scanning reading of the pattern and the declarative one agree. */
  lemma PatternMatchesIff(cls: CharClass, s: string)
    ensures PatternMatches(cls, s) <==> Accepts(cls, s)
  {
  }

  /**
   * latin_validator on the username field: accepts exactly the strings made
   * of ASCII letters and '-', up to a final newline, and leaves the value as
   * it is.
   */
  function LatinValidator(s: string): (r: Result<string>)
    ensures r.Ok? <==> Accepts(Latin, s)
    ensures r.Ok? ==> r.value == s
    ensures r.Err? ==> r.error == UsernameCharset
  {
    PatternMatchesIff(Latin, s);
    if PatternMatches(Latin, s) then Ok(s) else Err(UsernameCharset)
  }

  /**
   * kiril_validator on first_name, last_name and patronymic: accepts exactly
   * the strings made of А-Я, а-я, '-' and ' ', up to a final newline.
   */
  function KirilValidator(s: string): (r: Result<string>)
    ensures r.Ok? <==> Accepts(Kiril, s)
    ensures r.Ok? ==> r.value == s
    ensures r.Err? ==> r.error == FullNameCharset
  {
    PatternMatchesIff(Kiril, s);
    if PatternMatches(Kiril, s) then Ok(s) else Err(FullNameCharset)
  }

  /**
   * On a value that does not end in a newline (Django's CharField strips
   * surrounding whitespace before its validators run), a validator accepts
   * exactly when every character is in its class.
   */
  lemma ValidatorsOnStrippedValue(s: string)
    requires |s| == 0 || s[|s| - 1] != '\n'
    ensures LatinValidator(s).Ok? <==> AllIn(Latin, s)
    ensures KirilValidator(s).Ok? <==> AllIn(Kiril, s)
  {
  }

  /** One character outside the class, other than a final newline, rejects the value. */
  lemma RejectsForeignChar(cls: CharClass, s: string, i: nat)
    requires i < |s| && !InClass(cls, s[i])
    requires i < |s| - 1 || s[i] != '\n'
    ensures !Accepts(cls, s)
  {
  }

  /** ё and Ё are outside а-я and А-Я: a name containing either is rejected. */
  lemma KirilRejectsYo(s: string, i: nat)
    requires i < |s| && (s[i] == 'ё' || s[i] == 'Ё')
    ensures KirilValidator(s) == Err(FullNameCharset)
  {
  }

  /** A Latin letter in a name is rejected, and a Cyrillic letter or a space in a username. */
  lemma ScriptsDoNotMix(s: string, i: nat)
    requires i < |s|
    ensures ('a' <= s[i] <= 'z' || 'A' <= s[i] <= 'Z') ==> KirilValidator(s) == Err(FullNameCharset)
    ensures ('а' <= s[i] <= 'я' || 'А' <= s[i] <= 'Я' || s[i] == ' ') ==> LatinValidator(s) == Err(UsernameCharset)
  {
  }

  /**
   * The two classes share only '-': a value that passes both validators is
   * hyphens, possibly followed by one newline.
   */
  lemma BothValidatorsAcceptOnlyHyphens(s: string)
    requires LatinValidator(s).Ok? && KirilValidator(s).Ok?
    ensures forall i :: 0 <= i < |s| ==> s[i] == '-' || (i == |s| - 1 && s[i] == '\n')
  {
  }
}
