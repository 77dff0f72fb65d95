/**
  The caregiver's answer form and its decoding into typed answers, as the
  first lines of `compute_result` do it: every Yes/No field is true exactly
  when it holds the string "Yes", the three choice fields are compared with
  their option values, and the breathing rate is read permissively (anything
  that is not, after trimming white space, a non-empty run of digits counts
  as not measured).
 */
module Answers {
  import opened Wrappers

  /** The submitted form, field by field, as strings. `rr` is absent when the form did not send it. */
  datatype Form = Form(
    dsDrink: string, dsVomit: string, dsConvulsions: string, dsLethargy: string,
    ageGroup: string, fever: string, coughBreath: string, rr: Option<string>,
    chestIndrawing: string, stridor: string, muac: string, oedema: string,
    notFeeding: string, stimOnly: string, rdt: string)

  /**
    Age groups. The form offers "0_2m", "2_12m" and "1_5y"; any other string
    matches none of the age tests of the scorer and is kept as UnlistedAge,
    which behaves like none of the three.
   */
  datatype AgeGroup = YoungInfant | Infant | Child | UnlistedAge

  datatype Muac = NotMeasured | Green | Yellow | Red

  datatype Rdt = NotDone | Negative | Positive

  /** The decoded answers the scorer reasons about. */
  datatype Answers = Answers(
    drinkSign: bool, vomitSign: bool, convulsionSign: bool, lethargySign: bool,
    age: AgeGroup, fever: bool, cough: bool, rr: Option<nat>,
    chestIndrawing: bool, stridor: bool, muac: Muac, oedema: bool,
    notFeeding: bool, stimOnly: bool, rdt: Rdt)

  predicate YesNo(s: string)
  {
    s == "Yes"
  }

  function DecodeAge(s: string): AgeGroup
  {
    if s == "0_2m" then YoungInfant
    else if s == "2_12m" then Infant
    else if s == "1_5y" then Child
    else UnlistedAge
  }

  /**
    MUAC colour: the scorer only tests for "red" and "yellow" ("green" adds
    nothing), so every other string acts exactly like "not_measured".
   */
  function DecodeMuac(s: string): Muac
  {
    if s == "red" then Red
    else if s == "yellow" then Yellow
    else if s == "green" then Green
    else NotMeasured
  }

  /** RDT result: the scorer only tests for "positive" and "negative"; anything else acts like "not_done". */
  function DecodeRdt(s: string): Rdt
  {
    if s == "positive" then Positive
    else if s == "negative" then Negative
    else NotDone
  }

  function Decode(f: Form): Answers
  {
    Answers(
      YesNo(f.dsDrink), YesNo(f.dsVomit), YesNo(f.dsConvulsions), YesNo(f.dsLethargy),
      DecodeAge(f.ageGroup), YesNo(f.fever), YesNo(f.coughBreath), ParseRr(f.rr),
      YesNo(f.chestIndrawing), YesNo(f.stridor), DecodeMuac(f.muac), YesNo(f.oedema),
      YesNo(f.notFeeding), YesNo(f.stimOnly), DecodeRdt(f.rdt))
  }

  // ---------------------------------------------------------------------
  // Reading the breathing rate
  // ---------------------------------------------------------------------

  /**
    The two white-space sets line 178 meets, restricted to ASCII: what
    `str.strip()` removes, and what `int()` skips around the digits.
   */
  datatype Blanks = StripBlanks | IntBlanks

  /** Tab, line feed, vertical tab, form feed, carriage return and space: skipped by both. */
  predicate IsIntSpace(c: char)
  {
    c as int == 32 || 9 <= c as int <= 13
  }

  /** The file, group, record and unit separators: `str.strip()` removes them, `int()` refuses them. */
  predicate IsSeparator(c: char)
  {
    28 <= c as int <= 31
  }

  /** White space as `str.strip()` removes it. */
  predicate IsSpace(c: char)
  {
    IsIntSpace(c) || IsSeparator(c)
  }

  predicate IsBlank(b: Blanks, c: char)
  {
    match b
    case StripBlanks => IsSpace(c)
    case IntBlanks => IsIntSpace(c)
  }

  predicate AllBlank(b: Blanks, s: string)
  {
    forall k :: 0 <= k < |s| ==> IsBlank(b, s[k])
  }

  predicate IsDigit(c: char)
  {
    '0' <= c <= '9'
  }

  /** Non-empty and every character an ASCII digit. */
  predicate AllDigits(t: string)
  {
    |t| > 0 && forall k :: 0 <= k < |t| ==> IsDigit(t[k])
  }

  /** Number of blanks at the front of `s`. */
  function LeadingBlanks(b: Blanks, s: string): (n: nat)
    ensures n <= |s|
    ensures forall k :: 0 <= k < n ==> IsBlank(b, s[k])
    ensures n < |s| ==> !IsBlank(b, s[n])
  {
    if s == [] || !IsBlank(b, s[0]) then 0 else 1 + LeadingBlanks(b, s[1..])
  }

  /** Number of blanks at the back of `s`. */
  function TrailingBlanks(b: Blanks, s: string): (n: nat)
    ensures n <= |s|
    ensures forall k :: |s| - n <= k < |s| ==> IsBlank(b, s[k])
    ensures n < |s| ==> !IsBlank(b, s[|s| - 1 - n])
  {
    if s == [] || !IsBlank(b, s[|s| - 1]) then 0 else 1 + TrailingBlanks(b, s[..|s| - 1])
  }

  /** `s` without its leading and trailing blanks; its ends are not blank, and it is empty exactly when `s` is all blanks. */
  function Trim(b: Blanks, s: string): (t: string)
    ensures t != [] ==> !IsBlank(b, t[0]) && !IsBlank(b, t[|t| - 1])
    ensures t == [] <==> AllBlank(b, s)
  {
    var front := s[LeadingBlanks(b, s)..];
    front[..|front| - TrailingBlanks(b, front)]
  }

  /** Trimming removes only blanks: the result is a slice of `s` whose two pads are all blank. */
  lemma TrimSlice(b: Blanks, s: string) returns (i: nat, j: nat)
    ensures i <= j <= |s| && Trim(b, s) == s[i..j]
    ensures AllBlank(b, s[..i]) && AllBlank(b, s[j..])
  {
    i := LeadingBlanks(b, s);
    var front := s[i..];
    var t := Trim(b, s);
    j := i + |t|;
    var pre, post := s[..i], s[j..];
    assert AllBlank(b, pre) by {
      forall k | 0 <= k < |pre| ensures IsBlank(b, pre[k]) {
        assert pre[k] == s[k];
      }
    }
    assert AllBlank(b, post) by {
      forall k | 0 <= k < |post| ensures IsBlank(b, post[k]) {
        assert post[k] == front[|t| + k];
      }
    }
  }

  /** `str.strip()` */
  function Strip(s: string): string
  {
    Trim(StripBlanks, s)
  }

  function DigitValue(c: char): nat
    requires IsDigit(c)
  {
    c as int - '0' as int
  }

  /** The number a run of decimal digits denotes (leading zeros allowed). */
  function DigitsValue(t: string): nat
    requires forall k :: 0 <= k < |t| ==> IsDigit(t[k])
  {
    if t == [] then 0 else 10 * DigitsValue(t[..|t| - 1]) + DigitValue(t[|t| - 1])
  }

  /**
    The breathing rate as the guard of line 178 means it: an absent or
    empty field, or one that is not a run of digits once trimmed, is "not
    measured"; otherwise the rate is the number the digits spell.
   */
  function ParseRr(raw: Option<string>): Option<nat>
  {
    match raw
    case None => None
    case Some(s) =>
      if s != [] && AllDigits(Strip(s)) then Some(DigitsValue(Strip(s))) else None
  }

  /** The decimal numeral of `n`, without leading zeros: what a number input sends. */
  function Numeral(n: nat): (t: string)
    ensures |t| > 0 && forall k :: 0 <= k < |t| ==> IsDigit(t[k])
  {
    var d := ['0' + ((n % 10) as char)];
    if n < 10 then d else Numeral(n / 10) + d
  }

  lemma {:induction false} DigitsValueNumeral(n: nat)
    ensures DigitsValue(Numeral(n)) == n
  {
    var t := Numeral(n);
    if n >= 10 {
      DigitsValueNumeral(n / 10);
      assert t[..|t| - 1] == Numeral(n / 10);
    }
  }

  /** Trimming a core whose ends are not blank, padded with blanks, gives back the core. */
  lemma TrimPadded(b: Blanks, pre: string, core: string, post: string)
    requires AllBlank(b, pre) && AllBlank(b, post)
    requires |core| > 0 && !IsBlank(b, core[0]) && !IsBlank(b, core[|core| - 1])
    ensures Trim(b, pre + core + post) == core
  {
    var s := pre + core + post;
    var lead := LeadingBlanks(b, s);
    assert s[|pre|] == core[0];
    assert lead == |pre|;
    var front := s[lead..];
    assert front == core + post;
    var trail := TrailingBlanks(b, front);
    assert front[|core| - 1] == core[|core| - 1];
    assert trail == |post|;
  }

  /** Trimming a string whose ends are not blank leaves it as it is. */
  lemma UnpaddedTrim(b: Blanks, s: string)
    requires |s| > 0 && !IsBlank(b, s[0]) && !IsBlank(b, s[|s| - 1])
    ensures Trim(b, s) == s
  {
    assert [] + s + [] == s;
    TrimPadded(b, [], s, []);
  }

  /** A character that is not blank survives trimming, at its position less the leading pad. */
  lemma TrimKeeps(b: Blanks, s: string, k: nat)
    requires k < |s| && !IsBlank(b, s[k])
    ensures LeadingBlanks(b, s) <= k
    ensures k - LeadingBlanks(b, s) < |Trim(b, s)| && Trim(b, s)[k - LeadingBlanks(b, s)] == s[k]
  {
    var lead := LeadingBlanks(b, s);
    var front := s[lead..];
    var trail := TrailingBlanks(b, front);
    assert front[k - lead] == s[k];
    assert k - lead < |front| - trail;
  }

  /**
    Round trip: a breathing rate written as a decimal numeral, with any
    white space around it, is read back as that rate.
   */
  lemma ParseRrNumeral(n: nat, pre: string, post: string)
    requires AllBlank(StripBlanks, pre) && AllBlank(StripBlanks, post)
    ensures ParseRr(Some(pre + Numeral(n) + post)) == Some(n)
  {
    var t := Numeral(n);
    assert !IsSpace(t[0]) && !IsSpace(t[|t| - 1]);
    TrimPadded(StripBlanks, pre, t, post);
    DigitsValueNumeral(n);
  }

  /**
    Permissive reading: a field holding any character that is neither a
    digit nor white space (a sign, a decimal point, a letter) is "not
    measured"; so are an absent field and one of white space only.
   */
  lemma ParseRrRejects(raw: Option<string>)
    requires raw == None || AllBlank(StripBlanks, raw.value)
             || exists k :: 0 <= k < |raw.value| && !IsDigit(raw.value[k]) && !IsSpace(raw.value[k])
    ensures ParseRr(raw) == None
  {
    if raw.Some? && !AllBlank(StripBlanks, raw.value) {
      var s := raw.value;
      var k :| 0 <= k < |s| && !IsDigit(s[k]) && !IsSpace(s[k]);
      TrimKeeps(StripBlanks, s, k);
    }
  }

  // ---------------------------------------------------------------------
  // The breathing rate as line 178 reads it: a guard on the stripped
  // field, then `int()` on the field as it came
  // ---------------------------------------------------------------------

  /**
    Characters that `str.isdigit()` accepts but `int()` refuses: the
    superscript digits one, two and three of Latin-1 (Unicode has more of
    them, such as the circled digits; they are not part of this model).
   */
  predicate IsSuperscriptDigit(c: char)
  {
    c == '\U{B9}' || c == '\U{B2}' || c == '\U{B3}'
  }

  /** The characters `str.isdigit()` accepts, within this model. */
  predicate IsDigitLike(c: char)
  {
    IsDigit(c) || IsSuperscriptDigit(c)
  }

  /** The guard of line 178: a non-empty field whose stripped text is non-empty and digits only. */
  predicate PassesGuard(s: string)
  {
    var t := Strip(s);
    s != [] && |t| > 0 && forall k :: 0 <= k < |t| ==> IsDigitLike(t[k])
  }

  /**
    CPython's default cap on the digits `int()` converts from a string: the
    default since 3.11 and since the security releases 3.7.14, 3.8.14,
    3.9.14 and 3.10.7; earlier releases have no cap, and
    `PYTHONINTMAXSTRDIGITS`, `-X int_max_str_digits` or
    `sys.set_int_max_str_digits` can change it.
   */
  const IntMaxDigits: nat := 4300

  /**
    `int()` on the unstripped field: it skips its own white space, then
    takes ASCII digits only, and at most IntMaxDigits of them; None stands
    for the ValueError it raises otherwise.
   */
  function IntParse(s: string): Option<nat>
  {
    var u := Trim(IntBlanks, s);
    if AllDigits(u) && |u| <= IntMaxDigits then Some(DigitsValue(u)) else None
  }

  /** The outcome of reading the rate field: a value, or the ValueError that aborts the whole screening. */
  datatype RrReading = Read(rate: Option<nat>) | ValueError

  /** Line 178 as written: the guard, then `int()` on the field as it came. */
  function ParseRrAsWritten(raw: Option<string>): RrReading
  {
    match raw
    case None => Read(None)
    case Some(s) =>
      if !PassesGuard(s) then Read(None)
      else match IntParse(s)
        case None => ValueError
        case Some(n) => Read(Some(n))
  }

  /**
    The source's reading fails exactly on a field that passes the guard and
    holds a superscript digit or a separator, or whose stripped digits are
    more than IntMaxDigits; whenever it does not fail it reads what the
    corrected ParseRr reads.
   */
  lemma AsWrittenFailsExactly(raw: Option<string>)
    ensures ParseRrAsWritten(raw) == ValueError <==>
              raw.Some? && PassesGuard(raw.value)
              && ((exists k :: 0 <= k < |raw.value| && (IsSuperscriptDigit(raw.value[k]) || IsSeparator(raw.value[k])))
                  || |Strip(raw.value)| > IntMaxDigits)
    ensures ParseRrAsWritten(raw) != ValueError ==> ParseRrAsWritten(raw) == Read(ParseRr(raw))
  {
    if raw.Some? && PassesGuard(raw.value) {
      var s := raw.value;
      if k :| 0 <= k < |s| && (IsSuperscriptDigit(s[k]) || IsSeparator(s[k])) {
        IntRefuses(s, k);
      } else {
        IntReadsStripped(s);
      }
    }
  }

  /** A superscript digit or a separator anywhere in the field makes `int()` fail. */
  lemma IntRefuses(s: string, k: nat)
    requires k < |s| && (IsSuperscriptDigit(s[k]) || IsSeparator(s[k]))
    ensures IntParse(s) == None
  {
    TrimKeeps(IntBlanks, s, k);
    assert !IsDigit(s[k]);
  }

  /** Without superscripts or separators, `int()` sees the stripped text of a field that passes the guard. */
  lemma IntReadsStripped(s: string)
    requires PassesGuard(s)
    requires forall k :: 0 <= k < |s| ==> !IsSuperscriptDigit(s[k]) && !IsSeparator(s[k])
    ensures Trim(IntBlanks, s) == Strip(s) && AllDigits(Strip(s))
  {
    var t := Strip(s);
    var i, j := TrimSlice(StripBlanks, s);
    var pre, post := s[..i], s[j..];
    assert AllBlank(IntBlanks, pre) by {
      forall m | 0 <= m < |pre| ensures IsIntSpace(pre[m]) {
        assert pre[m] == s[m];
      }
    }
    assert AllBlank(IntBlanks, post) by {
      forall m | 0 <= m < |post| ensures IsIntSpace(post[m]) {
        assert post[m] == s[j + m];
      }
    }
    forall m | 0 <= m < |t| ensures IsDigit(t[m]) {
      assert t[m] == s[i + m];
      assert IsDigitLike(t[m]);
    }
    Split(s, i, j);
    TrimPadded(IntBlanks, pre, t, post);
  }

  lemma Split(s: string, i: nat, j: nat)
    requires i <= j <= |s|
    ensures s == s[..i] + s[i..j] + s[j..]
  {
    assert s[..j] == s[..i] + s[i..j];
  }

  /**
    Two fields on which the source's reading aborts the screening with a
    ValueError: "²", and "60" after a file separator.
   */
  lemma AsWrittenAborts()
    ensures ParseRrAsWritten(Some("\U{B2}")) == ValueError
    ensures ParseRrAsWritten(Some("\U{1C}60")) == ValueError
  {
    SuperscriptAborts();
    SeparatorAborts();
  }

  lemma SuperscriptAborts()
    ensures ParseRrAsWritten(Some("\U{B2}")) == ValueError
  {
    var sup := "\U{B2}";
    UnpaddedTrim(StripBlanks, sup);
    assert PassesGuard(sup);
    assert IntParse(sup) == None by {
      IntRefuses(sup, 0);
    }
  }

  lemma SeparatorAborts()
    ensures ParseRrAsWritten(Some("\U{1C}60")) == ValueError
  {
    var sep := "\U{1C}60";
    SeparatorSixtyStrips();
    assert PassesGuard(sep);
    assert IntParse(sep) == None by {
      IntRefuses(sep, 0);
    }
  }

  /** A rate of more than IntMaxDigits digits, leading zeros included, aborts the screening too. */
  lemma LongRateAborts(s: string)
    requires AllDigits(s) && |s| > IntMaxDigits
    ensures ParseRrAsWritten(Some(s)) == ValueError
    ensures ParseRr(Some(s)) == Some(DigitsValue(s))
  {
    UnpaddedTrim(StripBlanks, s);
    UnpaddedTrim(IntBlanks, s);
  }

  /**
    The corrected reading never fails: "²" is "not measured", the
    separator-padded "60" is 60; and on every field where the source does
    not fail, the two readings agree.
   */
  lemma ParseRrCorrected(raw: Option<string>)
    ensures raw == Some("\U{B2}") ==> ParseRr(raw) == None
    ensures raw == Some("\U{1C}60") ==> ParseRr(raw) == Some(60)
    ensures ParseRrAsWritten(raw) != ValueError ==> ParseRrAsWritten(raw) == Read(ParseRr(raw))
  {
    AsWrittenFailsExactly(raw);
    if raw == Some("\U{B2}") {
      ParseRrRejects(raw);
    } else if raw == Some("\U{1C}60") {
      SeparatorPaddedSixty();
    }
  }

  /** `str.strip()` removes the file separator in front of "60". */
  lemma SeparatorSixtyStrips()
    ensures Strip("\U{1C}60") == "60"
  {
    assert ['\U{1C}'] + "60" + [] == "\U{1C}60";
    TrimPadded(StripBlanks, ['\U{1C}'], "60", []);
  }

  lemma SeparatorPaddedSixty()
    ensures ParseRr(Some("\U{1C}60")) == Some(60)
  {
    SeparatorSixtyStrips();
    assert DigitsValue("60") == 60 by {
      assert "60"[..1] == "6";
      assert "6"[..0] == "";
    }
  }
}
