/**
 * The phone-format check of the create-customer resolver: Python's
 * `re.match(r'^(\+\d{10,15}|\d{3}-\d{3}-\d{4})$', phone)`, written out as
 * a predicate over characters. `\d` is taken to be an ASCII digit.
 */
module PhoneFormat {
  import opened Wrappers
  import opened Digits

  const InvalidPhone := "Invalid phone format"

  /** The first alternative, `\+\d{10,15}`, covering the whole text. */
  predicate International(s: string) {
    11 <= |s| <= 16 && s[0] == '+' && AllDigits(s[1..])
  }

  /** The second alternative, `\d{3}-\d{3}-\d{4}`, covering the whole text. */
  predicate Dashed(s: string) {
    |s| == 12 && s[3] == '-' && s[7] == '-' &&
    AllDigits(s[..3]) && AllDigits(s[4..7]) && AllDigits(s[8..])
  }

  /** The text between `^` and the end of the subject. */
  predicate PhoneBody(s: string) {
    International(s) || Dashed(s)
  }

  /**
   * Whether the pattern matches. Python's `$` matches at the very end and
   * also just before one final newline, so a valid number followed by a
   * single "\n" matches too.
   */
  predicate PhoneMatches(s: string) {
    PhoneBody(s) || (|s| > 0 && s[|s| - 1] == '\n' && PhoneBody(s[..|s| - 1]))
  }

  /** `if phone:` is true for a present, non-empty string only. */
  predicate PhoneGiven(phone: Option<string>) {
    phone.Some? && phone.value != ""
  }

  /** `\d{lo,hi}`: a run of between lo and hi digits. */
  predicate DigitRun(d: string, lo: nat, hi: nat) {
    lo <= |d| <= hi && AllDigits(d)
  }

  /**
   * The pattern's grammar: a "+" followed by 10 to 15 digits, or three,
   * three and four digits joined by dashes.
   */
  ghost predicate PatternForm(s: string) {
    (exists d :: DigitRun(d, 10, 15) && s == "+" + d) ||
    (exists a, b, c :: DigitRun(a, 3, 3) && DigitRun(b, 3, 3) && DigitRun(c, 4, 4) &&
                       s == a + "-" + b + "-" + c)
  }

  /**
   * The validation error the resolver raises for `phone`, if any: none
   * when the phone is absent or empty, or is in the pattern's grammar,
   * possibly followed by one newline that `$` lets through.
   */
  function PhoneError(phone: Option<string>): (e: Option<string>)
    ensures e.None? <==>
      !PhoneGiven(phone) || PatternForm(phone.value) ||
      (|phone.value| > 0 && phone.value[|phone.value| - 1] == '\n' &&
       PatternForm(phone.value[..|phone.value| - 1]))
    ensures e.Some? ==> e.value == InvalidPhone
  {
    if PhoneGiven(phone) then
      PhoneMatchesGrammar(phone.value);
      if PhoneMatches(phone.value) then None else Some(InvalidPhone)
    else None
  }

  /** The character-position form above is the pattern's grammar. */
  lemma PhoneBodyGrammar(s: string)
    ensures PhoneBody(s) <==> PatternForm(s)
  {
    if International(s) {
      assert s == "+" + s[1..];
      assert DigitRun(s[1..], 10, 15);
    }
    if Dashed(s) {
      assert s == s[..3] + "-" + s[4..7] + "-" + s[8..];
      assert DigitRun(s[..3], 3, 3) && DigitRun(s[4..7], 3, 3) && DigitRun(s[8..], 4, 4);
    }
    if d :| DigitRun(d, 10, 15) && s == "+" + d {
      assert s[1..] == d;
    }
    if a, b, c :| DigitRun(a, 3, 3) && DigitRun(b, 3, 3) && DigitRun(c, 4, 4) &&
                  s == a + "-" + b + "-" + c {
      assert s[..3] == a && s[4..7] == b && s[8..] == c;
    }
  }

  /** The whole match, `$` included, in terms of the pattern's grammar. */
  lemma PhoneMatchesGrammar(s: string)
    ensures PhoneMatches(s) <==>
      PatternForm(s) || (|s| > 0 && s[|s| - 1] == '\n' && PatternForm(s[..|s| - 1]))
  {
    PhoneBodyGrammar(s);
    if |s| > 0 {
      PhoneBodyGrammar(s[..|s| - 1]);
    }
  }

  /**
   * A matching number is 11 to 17 characters long and made of digits,
   * "+", "-" and "\n"; a "+" can only come first and a newline only last.
   */
  lemma {:induction false} PhoneMatchesShape(s: string)
    requires PhoneMatches(s)
    ensures 11 <= |s| <= 17
    ensures forall i :: 0 <= i < |s| ==> IsDigit(s[i]) || s[i] in "+-\n"
    ensures forall i :: 0 <= i < |s| - 1 ==> s[i] != '\n'
    ensures forall i :: 0 < i < |s| ==> s[i] != '+'
  {
    var body := if PhoneBody(s) then s else s[..|s| - 1];
    assert PhoneBody(body);
    forall i | 0 <= i < |body|
      ensures IsDigit(body[i]) || (i == 0 && body[i] == '+') || body[i] == '-'
    {
      if International(body) {
        if i > 0 { assert body[i] == body[1..][i - 1]; }
      } else {
        if i < 3 { assert body[i] == body[..3][i]; }
        else if 4 <= i < 7 { assert body[i] == body[4..7][i - 4]; }
        else if 8 <= i { assert body[i] == body[8..][i - 8]; }
      }
    }
    assert forall i :: 0 <= i < |body| ==> s[i] == body[i];
  }

  /** Numbers the pattern accepts and rejects. */
  lemma PhoneExamples()
    ensures PhoneMatches("+12345678901") && PhoneMatches("123-456-7890")
    ensures !PhoneMatches("abc") && !PhoneMatches("12345")
    ensures PhoneMatches("123-456-7890\n")
    ensures !PhoneMatches("+123456789") && !PhoneMatches("+1234567890123456")
  {
    assert International("+12345678901");
    assert "123-456-7890\n"[..12] == "123-456-7890";
    assert Dashed("123-456-7890");
    assert !IsDigit('a');
    assert "abc"[..2] == "ab";
  }
}
