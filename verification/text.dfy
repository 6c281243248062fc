/** The string primitives the input checks rely on: Python's character
    classes (`str.isspace`, `str.isalpha`, `str.isdigit`), `str.strip()` and
    `str.index`. Character classes are exact for code points below 256
    (ASCII plus the Latin-1 supplement); every higher code point is treated
    as neither a letter, a digit nor whitespace. */
module Text {
  import opened Options

  /** `c.isspace()`: tab through carriage return, the four information
      separators, space, NEL and no-break space. */
  predicate IsSpace(c: char) {
    var n := c as int;
    (9 <= n <= 13) || (28 <= n <= 32) || n == 0x85 || n == 0xA0
  }

  /** `c.isalpha()`: ASCII letters plus the Latin-1 letters (ª, µ, º and the
      accented capitals and smalls, but not × and ÷). */
  predicate IsAlpha(c: char) {
    var n := c as int;
    ('A' as int <= n <= 'Z' as int) || ('a' as int <= n <= 'z' as int)
    || n == 0xAA || n == 0xB5 || n == 0xBA
    || (0xC0 <= n <= 0xD6) || (0xD8 <= n <= 0xF6) || (0xF8 <= n <= 0xFF)
  }

  /** `c.isdigit()`: the ten ASCII digits and the superscripts ¹ ² ³. */
  predicate IsDigit(c: char) {
    var n := c as int;
    ('0' as int <= n <= '9' as int) || n == 0xB2 || n == 0xB3 || n == 0xB9
  }

  /** `s.strip() == ""`: every character is whitespace. */
  predicate Blank(s: string) {
    forall i :: 0 <= i < |s| ==> IsSpace(s[i])
  }

  /** `s.isdigit()`: non-empty and made of digits only. */
  predicate DigitString(s: string) {
    |s| > 0 && forall i :: 0 <= i < |s| ==> IsDigit(s[i])
  }

  /** Drops leading whitespace (`str.lstrip()`). */
  function TrimLeft(s: string): (r: string)
    ensures |r| <= |s| && r == s[|s| - |r|..]
    ensures forall i :: 0 <= i < |s| - |r| ==> IsSpace(s[i])
    ensures |r| > 0 ==> !IsSpace(r[0])
  {
    if |s| > 0 && IsSpace(s[0]) then TrimLeft(s[1..]) else s
  }

  /** Drops trailing whitespace (`str.rstrip()`). */
  function TrimRight(s: string): (r: string)
    ensures |r| <= |s| && r == s[..|r|]
    ensures forall i :: |r| <= i < |s| ==> IsSpace(s[i])
    ensures |r| > 0 ==> !IsSpace(r[|r| - 1])
  {
    if |s| > 0 && IsSpace(s[|s| - 1]) then TrimRight(s[..|s| - 1]) else s
  }

  /** `str.strip()` with no argument. */
  function Strip(s: string): string {
    TrimRight(TrimLeft(s))
  }

  /** Where the stripped text starts in the original. */
  function StripOffset(s: string): nat {
    |s| - |TrimLeft(s)|
  }

  /** `Strip` keeps a slice of the input that neither starts nor ends with
      whitespace and removes only whitespace around it. */
  lemma StripIsTrim(s: string)
    ensures var r, k := Strip(s), StripOffset(s);
            && k + |r| <= |s| && r == s[k..k + |r|]
            && (forall i :: 0 <= i < k ==> IsSpace(s[i]))
            && (forall i :: k + |r| <= i < |s| ==> IsSpace(s[i]))
    ensures var r := Strip(s);
            |r| > 0 ==> !IsSpace(r[0]) && !IsSpace(r[|r| - 1])
  {
  }

  /** Stripping leaves nothing exactly when the string is all whitespace. */
  lemma StripEmptyIffBlank(s: string)
    ensures Strip(s) == "" <==> Blank(s)
  {
  }

  /** `s.index(c)` when `c` occurs: the position of its first occurrence;
      `None` where Python raises `ValueError`. */
  function IndexOf(s: string, c: char): (r: Option<nat>)
    ensures r.None? <==> c !in s
    ensures r.Some? ==> r.value < |s| && s[r.value] == c
    ensures r.Some? ==> forall j :: 0 <= j < r.value ==> s[j] != c
  {
    if |s| == 0 then None
    else if s[0] == c then Some(0)
    else match IndexOf(s[1..], c)
      case None => None
      case Some(k) => Some(k + 1)
  }

  /** An occurrence with no earlier occurrence is the one `IndexOf` finds. */
  lemma IndexOfUnique(s: string, c: char, k: nat)
    requires k < |s| && s[k] == c && c !in s[..k]
    ensures IndexOf(s, c) == Some(k)
  {
  }

  /** A digit string is not blank. */
  lemma DigitsAreNotBlank(s: string)
    ensures DigitString(s) ==> !Blank(s)
  {
    if |s| > 0 {
      CharClasses(s[0]);
    }
  }

  /** The three classes are disjoint, and the Latin-1 characters Python
      classifies beyond ASCII are classified alike: 'é' and 'ª' are letters,
      '²' is a digit, the no-break space is whitespace, '×' is none. */
  lemma CharClasses(c: char)
    ensures IsSpace(c) ==> !IsAlpha(c) && !IsDigit(c)
    ensures IsAlpha(c) ==> !IsDigit(c)
    ensures IsAlpha('\U{E9}') && IsAlpha('\U{AA}') && IsDigit('\U{B2}') && IsSpace('\U{A0}')
    ensures !IsAlpha('\U{D7}') && !IsDigit('\U{D7}') && !IsSpace('\U{D7}')
  {
  }
}
