/** The checks `registrar_cliente` (`main_interfaz.py`) applies to each field
    before it builds a membership. Each input loop re-prompts until its check
    accepts; one round of a check is modelled as a verdict. The e-mail check
    can also end the program with an uncaught `ValueError`, which is the
    `Crash` verdict. */
module Validation {
  import opened Options
  import opened Text
  import Memberships

  datatype Reason =
    | Empty            // the field is blank after `strip()`
    | BadCharacters    // a name holds something other than letters and whitespace
    | TooShortOrNoAt   // an e-mail shorter than 6 characters or without '@'
    | DotTooClose      // the first '.' is not at least two places after the first '@'
    | HasSpace         // an e-mail containing ' '
    | BadCardFormat    // a card number that is not 16 digits
    | TierOutOfRange   // a tier number outside 1..4

  datatype Verdict = Accept | Reject(reason: Reason) | Crash

  /** Every character is a letter or whitespace. */
  predicate NameChars(s: string) {
    forall i :: 0 <= i < |s| ==> IsAlpha(s[i]) || IsSpace(s[i])
  }

  /** The check on the first name and the paternal surname. */
  function NameVerdict(s: string): (r: Verdict)
    ensures r != Crash
    ensures r == Reject(Empty) <==> Blank(s)
    ensures !Blank(s) && !NameChars(s) ==> r == Reject(BadCharacters)
    ensures r == Accept <==> NameChars(s) && exists i :: 0 <= i < |s| && IsAlpha(s[i])
  {
    StripEmptyIffBlank(s);
    if Strip(s) == "" then Reject(Empty)
    else if !NameChars(s) then Reject(BadCharacters)
    else
      assert exists i :: 0 <= i < |s| && IsAlpha(s[i]) by {
        var i :| 0 <= i < |s| && !IsSpace(s[i]);
      }
      Accept
  }

  /** The optional second name and maternal surname: a non-blank value with
      a character other than letters and whitespace is replaced by "". The
      blank test turns out to be redundant, since whitespace passes the
      character test anyway. */
  function OptionalName(s: string): (r: string)
    ensures NameChars(r)
    ensures r == s <==> NameChars(s)
    ensures r != s ==> r == ""
  {
    StripEmptyIffBlank(s);
    if Strip(s) != "" && !NameChars(s) then "" else s
  }

  /** The displayed full name: the optional parts, when not blank, come with
      an extra leading space. */
  function FullName(first: string, second: string, paternal: string, maternal: string): string {
    first + " " + OptionalPart(second) + " " + paternal + " " + OptionalPart(maternal)
  }

  /** An optional name part as it enters the full name. */
  function OptionalPart(x: string): string {
    if Strip(x) != "" then " " + x else ""
  }

  /** The full name in the four cases of present or blank optional parts:
      always a double space after the first name, a trailing space when the
      maternal surname is blank, and each present optional part set off by
      two spaces. */
  lemma FullNameShape(first: string, second: string, paternal: string, maternal: string)
    ensures Blank(second) && Blank(maternal) ==>
      FullName(first, second, paternal, maternal) == first + "  " + paternal + " "
    ensures !Blank(second) && !Blank(maternal) ==>
      FullName(first, second, paternal, maternal) == first + "  " + second + " " + paternal + "  " + maternal
    ensures !Blank(second) && Blank(maternal) ==>
      FullName(first, second, paternal, maternal) == first + "  " + second + " " + paternal + " "
    ensures Blank(second) && !Blank(maternal) ==>
      FullName(first, second, paternal, maternal) == first + "  " + paternal + "  " + maternal
  {
    StripEmptyIffBlank(second);
    StripEmptyIffBlank(maternal);
    var mid, last := OptionalPart(second), OptionalPart(maternal);
    assert mid == if Blank(second) then "" else " " + second;
    assert last == if Blank(maternal) then "" else " " + maternal;
    JoinParts(first, second, paternal, maternal, mid, last);
  }

  lemma JoinParts(first: string, second: string, paternal: string, maternal: string, mid: string, last: string)
    requires mid == "" || mid == " " + second
    requires last == "" || last == " " + maternal
    ensures mid == "" && last == "" ==>
      first + " " + mid + " " + paternal + " " + last == first + "  " + paternal + " "
    ensures mid != "" && last != "" ==>
      first + " " + mid + " " + paternal + " " + last == first + "  " + second + " " + paternal + "  " + maternal
    ensures mid != "" && last == "" ==>
      first + " " + mid + " " + paternal + " " + last == first + "  " + second + " " + paternal + " "
    ensures mid == "" && last != "" ==>
      first + " " + mid + " " + paternal + " " + last == first + "  " + paternal + "  " + maternal
  {
  }


  /** The four ordered e-mail checks. `correo.index(".")` raises when there
      is no '.', so an address that passes the first two checks without a
      '.' crashes instead of being rejected. */
  function EmailVerdict(s: string): (r: Verdict)
    ensures r == Reject(Empty) <==> Blank(s)
    ensures r == Reject(TooShortOrNoAt) <==> !Blank(s) && (|s| < 6 || '@' !in s)
    ensures r == Crash <==> !Blank(s) && |s| >= 6 && '@' in s && '.' !in s
  {
    StripEmptyIffBlank(s);
    if Strip(s) == "" then Reject(Empty)
    else if |s| < 6 || '@' !in s then Reject(TooShortOrNoAt)
    else match IndexOf(s, '.')
      case None => Crash
      case Some(dot) =>
        if dot <= IndexOf(s, '@').value + 1 then Reject(DotTooClose)
        else if ' ' in s then Reject(HasSpace)
        else Accept
  }

  /** An accepted address: at least 6 characters, no space, and, with `at`
      the position of the first '@', no '.' before position `at + 2` but
      some '.' from there on. A '.' before the '@' therefore fails it. */
  predicate EmailShape(s: string) {
    && |s| >= 6
    && ' ' !in s
    && '.' in s
    && exists at :: 0 <= at && at + 2 < |s| && s[at] == '@' && '@' !in s[..at] && '.' !in s[..at + 2]
  }

  /** The verdict of an address that passes the first two checks and has
      a '.', in terms of the first '@' and the first '.'. */
  lemma EmailVerdictPastCrash(s: string)
    requires !Blank(s) && |s| >= 6 && '@' in s && '.' in s
    ensures var at := IndexOf(s, '@').value;
            var dot := IndexOf(s, '.').value;
            EmailVerdict(s) ==
              if dot <= at + 1 then Reject(DotTooClose)
              else if ' ' in s then Reject(HasSpace)
              else Accept
  {
  }

  /** The e-mail check, stated without `str.index`. */
  lemma EmailAcceptIff(s: string)
    ensures EmailVerdict(s) == Accept <==> EmailShape(s)
  {
    if EmailVerdict(s) == Accept {
      EmailAcceptedHasShape(s);
    }
    if EmailShape(s) {
      EmailShapeAccepted(s);
    }
  }

  lemma EmailAcceptedHasShape(s: string)
    requires EmailVerdict(s) == Accept
    ensures EmailShape(s)
  {
    StripEmptyIffBlank(s);
    assert |s| >= 6 && '@' in s && '.' in s;
    EmailVerdictPastCrash(s);
    var at := IndexOf(s, '@').value;
    var dot := IndexOf(s, '.').value;
    assert at + 2 <= dot;
    assert '@' !in s[..at] by {
      forall j | 0 <= j < at ensures s[..at][j] != '@' {
        assert s[..at][j] == s[j];
      }
    }
    var past := at + 2;
    assert '.' !in s[..past] by {
      forall j | 0 <= j < past ensures s[..past][j] != '.' {
        assert s[..past][j] == s[j];
      }
    }
    assert 0 <= at && at + 2 < |s| && s[at] == '@';
  }

  lemma EmailShapeAccepted(s: string)
    requires EmailShape(s)
    ensures EmailVerdict(s) == Accept
  {
  }

  /** The quirk of the third check: a '.' in the local part is rejected even
      when the domain has one, e.g. "ana.b@mail.com". */
  lemma DotBeforeAtRejected(s: string, dot: nat, at: nat)
    requires !Blank(s) && |s| >= 6
    requires dot < at < |s| && s[dot] == '.' && s[at] == '@' && '@' !in s[..dot]
    ensures EmailVerdict(s) == Reject(DotTooClose)
  {
  }

  /** The card check: non-blank, `isdigit()` and 16 characters long. */
  function CardVerdict(s: string): (r: Verdict)
    ensures r != Crash
    ensures r == Reject(Empty) <==> Blank(s)
    ensures r == Accept <==> |s| == 16 && forall i :: 0 <= i < |s| ==> IsDigit(s[i])
    ensures r == Reject(BadCardFormat) <==> !Blank(s) && !(|s| == 16 && forall i :: 0 <= i < |s| ==> IsDigit(s[i]))
  {
    StripEmptyIffBlank(s);
    DigitsAreNotBlank(s);
    if Strip(s) == "" then Reject(Empty)
    else if !DigitString(s) || |s| != 16 then Reject(BadCardFormat)
    else Accept
  }

  /** The tier menu accepts exactly the numbers that name a paid tier. */
  function TierChoice(id: int): (r: Verdict)
    ensures r == Accept <==> Memberships.TierForId(id).Some?
    ensures r != Accept ==> r == Reject(TierOutOfRange)
  {
    if 1 <= id <= 4 then Accept else Reject(TierOutOfRange)
  }

  /** The sample address "a@b.co" passes. */
  lemma SampleInputs()
    ensures EmailVerdict("a@b.co") == Accept
  {
    var e := "a@b.co";
    assert e[1] == '@' && e[..1] == "a" && e[..3] == "a@b" && e[3] == '.';
    EmailShapeAccepted(e);
  }

  /** The sample card number "1111222233334444" passes. */
  lemma SampleCard()
    ensures CardVerdict("1111222233334444") == Accept
  {
    var c := "1111222233334444";
    assert |c| == 16;
    assert forall i :: 0 <= i < 16 ==> '1' <= c[i] <= '4';
    assert forall i :: 0 <= i < |c| ==> IsDigit(c[i]);
  }

  /** An address of 6 or more characters with an '@' but no '.' ends the
      program, e.g. "abcdef@gh". */
  lemma NoDotCrashes()
    ensures EmailVerdict("abcdef@gh") == Crash
  {
    var c := "abcdef@gh";
    assert |c| == 9 && c[6] == '@';
    assert forall i :: 0 <= i < |c| ==> c[i] != '.';
    assert !IsSpace(c[0]);
  }
}
