/**
 * Extraction of gender-specific obesity prevalence from scraped page text
 * (scrape_gender_based_prevalence, the nested loop over the gender patterns).
 *
 * The regular-expression engine is not modelled: for each pattern, in order,
 * the caller supplies what re.findall returned, a list of matches, each a
 * list of captured groups (gender token, captured number).
 */
module Extraction {
  import opened Values

  type Match = seq<string>

  datatype Gender = Male | Female

  datatype Accepted = Accepted(gender: Gender, rate: real)

  /** The prevalence slots filled by extraction so far, one per gender. */
  datatype Prevalences = Prevalences(male: Option<real>, female: Option<real>)

  // ---------------------------------------------------------------------
  // Numbers in captured text
  // ---------------------------------------------------------------------

  predicate IsDigit(c: char) { '0' <= c <= '9' }

  function DigitValue(c: char): nat
    requires IsDigit(c)
  {
    (c as int) - ('0' as int)
  }

  /** s.replace('.', '') */
  function RemoveDots(s: string): (r: string)
    ensures forall i :: 0 <= i < |r| ==> r[i] != '.' && r[i] in s
    ensures forall i :: 0 <= i < |s| && s[i] != '.' ==> s[i] in r
  {
    if s == [] then []
    else if s[0] == '.' then RemoveDots(s[1..])
    else [s[0]] + RemoveDots(s[1..])
  }

  /** Removing dots distributes over concatenation, so order and multiplicity are kept. */
  lemma {:induction false} RemoveDotsAppend(a: string, b: string)
    ensures RemoveDots(a + b) == RemoveDots(a) + RemoveDots(b)
  {
    if a != [] {
      assert (a + b)[0] == a[0] && (a + b)[1..] == a[1..] + b;
      RemoveDotsAppend(a[1..], b);
      if a[0] != '.' {
        var x, y := RemoveDots(a[1..]), RemoveDots(b);
        assert [a[0]] + (x + y) == ([a[0]] + x) + y;
      }
    } else {
      assert a + b == b;
    }
  }

  /** On one character: a dot disappears, anything else stays. */
  lemma RemoveDotsChar(c: char)
    ensures RemoveDots([c]) == if c == '.' then [] else [c]
  {
    assert [c][1..] == [];
  }

  /** str.isdigit() for ASCII text: non-empty and every character a digit. */
  predicate IsDigitString(s: string)
  {
    |s| > 0 && forall i :: 0 <= i < |s| ==> IsDigit(s[i])
  }

  function DotCount(s: string): nat
  {
    if s == [] then 0 else (if s[0] == '.' then 1 else 0) + DotCount(s[1..])
  }

  /**
   * The text float() accepts, restricted to ASCII digits and dots: at least
   * one digit and at most one decimal point ("12", "12.5", "12.", ".5").
   */
  predicate IsDecimalLiteral(s: string)
  {
    && (forall i :: 0 <= i < |s| ==> IsDigit(s[i]) || s[i] == '.')
    && DotCount(s) <= 1
    && (exists i :: 0 <= i < |s| && IsDigit(s[i]))
  }

  function Pow10(n: nat): (r: nat)
    ensures r >= 1
  {
    if n == 0 then 1 else 10 * Pow10(n - 1)
  }

  /** The number a string of decimal digits denotes. */
  function DigitsValue(ds: string): nat
    requires forall i :: 0 <= i < |ds| ==> IsDigit(ds[i])
  {
    if ds == [] then 0
    else 10 * DigitsValue(ds[..|ds| - 1]) + DigitValue(ds[|ds| - 1])
  }

  /** Index of the first '.', or |s| when there is none. */
  function DotIndex(s: string): (k: nat)
    ensures k <= |s|
    ensures forall i :: 0 <= i < k ==> s[i] != '.'
    ensures k < |s| ==> s[k] == '.'
  {
    if s == [] then 0 else if s[0] == '.' then 0 else 1 + DotIndex(s[1..])
  }

  lemma {:induction false} DotCountAfterFirstDot(s: string)
    requires DotCount(s) <= 1
    ensures forall i :: DotIndex(s) < i < |s| ==> s[i] != '.'
  {
    if s != [] && s[0] != '.' {
      DotCountAfterFirstDot(s[1..]);
      forall i | DotIndex(s) < i < |s| ensures s[i] != '.' {
        assert s[i] == s[1..][i - 1];
      }
    } else if s != [] {
      // s[0] is the one dot; the rest has none
      NoDotsWhenCountZero(s[1..]);
      forall i | DotIndex(s) < i < |s| ensures s[i] != '.' {
        assert s[i] == s[1..][i - 1];
      }
    }
  }

  lemma {:induction false} NoDotsWhenCountZero(s: string)
    requires DotCount(s) == 0
    ensures forall i :: 0 <= i < |s| ==> s[i] != '.'
  {
    if s != [] {
      NoDotsWhenCountZero(s[1..]);
      forall i | 0 <= i < |s| ensures s[i] != '.' {
        if i > 0 { assert s[i] == s[1..][i - 1]; }
      }
    }
  }

  predicate AllDigits(s: string)
  {
    forall i :: 0 <= i < |s| ==> IsDigit(s[i])
  }

  /** The digits before the first dot. */
  function WholePart(s: string): string
  {
    s[..DotIndex(s)]
  }

  /** The digits after the first dot, empty when there is none. */
  function FractionPart(s: string): string
  {
    if DotIndex(s) < |s| then s[DotIndex(s) + 1..] else ""
  }

  /** Both parts of a decimal literal are digit strings. */
  lemma PartsAreDigits(s: string)
    requires IsDecimalLiteral(s)
    ensures AllDigits(WholePart(s)) && AllDigits(FractionPart(s))
  {
    var k := DotIndex(s);
    DotCountAfterFirstDot(s);
    var w := WholePart(s);
    var f := FractionPart(s);
    forall i | 0 <= i < |w| ensures IsDigit(w[i]) { assert w[i] == s[i]; }
    forall i | 0 <= i < |f| ensures IsDigit(f[i]) { assert f[i] == s[k + 1 + i]; }
  }

  /** The exact value of a decimal literal: integer part plus fraction. */
  function DecimalValue(s: string): real
    requires IsDecimalLiteral(s)
  {
    PartsAreDigits(s);
    DigitsValue(WholePart(s)) as real + DigitsValue(FractionPart(s)) as real / Pow10(|FractionPart(s)|) as real
  }

  /**
   * float(s) where it succeeds on the strings modelled here; None stands for
   * the ValueError float raises.
   */
  function ToFloat(s: string): (r: Option<real>)
    ensures r.Some? <==> IsDecimalLiteral(s)
  {
    if IsDecimalLiteral(s) then Some(DecimalValue(s)) else None
  }

  lemma {:induction false} NoDotIndex(s: string)
    requires forall i :: 0 <= i < |s| ==> s[i] != '.'
    ensures DotIndex(s) == |s|
  {
    if s != [] {
      assert forall i :: 0 <= i < |s[1..]| ==> s[1..][i] == s[i + 1];
      NoDotIndex(s[1..]);
    }
  }

  lemma {:induction false} RemoveDotsNoDots(s: string)
    requires forall i :: 0 <= i < |s| ==> s[i] != '.'
    ensures RemoveDots(s) == s
  {
    if s != [] {
      assert forall i :: 0 <= i < |s[1..]| ==> s[1..][i] == s[i + 1];
      RemoveDotsNoDots(s[1..]);
      assert s == [s[0]] + s[1..];
    }
  }

  lemma AllDigitsAppend(a: string, b: string)
    requires AllDigits(a) && AllDigits(b)
    ensures AllDigits(a + b)
  {
    var w := a + b;
    forall i | 0 <= i < |w| ensures IsDigit(w[i]) {
      if i < |a| { assert w[i] == a[i]; } else { assert w[i] == b[i - |a|]; }
    }
  }

  lemma ShiftArithmetic(a: int, b: int, p: int, c: int)
    ensures 10 * (a * p + b) + c == a * (10 * p) + (10 * b + c)
  {
  }

  /** Appending digits: the value of whole + frac shifts whole by the length of frac. */
  lemma {:induction false} DigitsValueAppend(whole: string, frac: string)
    requires AllDigits(whole) && AllDigits(frac)
    ensures AllDigits(whole + frac)
    ensures DigitsValue(whole + frac) == DigitsValue(whole) * Pow10(|frac|) + DigitsValue(frac)
  {
    AllDigitsAppend(whole, frac);
    if frac != [] {
      var init := frac[..|frac| - 1];
      var last := frac[|frac| - 1];
      var w := whole + frac;
      assert w[..|w| - 1] == whole + init;
      assert w[|w| - 1] == last;
      assert AllDigits(init) by {
        forall i | 0 <= i < |init| ensures IsDigit(init[i]) { assert init[i] == frac[i]; }
      }
      DigitsValueAppend(whole, init);
      ShiftArithmetic(DigitsValue(whole), DigitsValue(init), Pow10(|init|), DigitValue(last));
    } else {
      assert whole + frac == whole;
    }
  }

  /** float() of a string of digits is the integer those digits denote. */
  lemma DigitStringValue(s: string)
    requires IsDigitString(s)
    ensures ToFloat(s) == Some(DigitsValue(s) as real)
  {
    NoDotIndex(s);
    assert WholePart(s) == s;
    assert FractionPart(s) == "";
    assert DotCount(s) == 0 by { NoDotCount(s); }
    assert IsDecimalLiteral(s) by { assert IsDigit(s[0]); }
    assert DecimalValue(s) == DigitsValue(s) as real;
  }

  lemma {:induction false} NoDotCount(s: string)
    requires forall i :: 0 <= i < |s| ==> s[i] != '.'
    ensures DotCount(s) == 0
  {
    if s != [] {
      assert forall i :: 0 <= i < |s[1..]| ==> s[1..][i] == s[i + 1];
      NoDotCount(s[1..]);
    }
  }

  /** A string with a dot is its whole part, the dot and its fraction part. */
  lemma {:induction false} SplitAtDot(s: string)
    requires DotIndex(s) < |s|
    ensures s == WholePart(s) + ([s[DotIndex(s)]] + FractionPart(s))
  {
    var k := DotIndex(s);
    var rest := s[k..];
    assert rest[0] == s[k] && rest[1..] == s[k + 1..];
    assert rest == [rest[0]] + rest[1..];
    assert s == s[..k] + rest;
  }

  /** Neither part of a decimal literal holds a dot. */
  lemma {:induction false} PartsHaveNoDots(s: string)
    requires DotCount(s) <= 1
    ensures forall i :: 0 <= i < |WholePart(s)| ==> WholePart(s)[i] != '.'
    ensures forall i :: 0 <= i < |FractionPart(s)| ==> FractionPart(s)[i] != '.'
  {
    var k := DotIndex(s);
    DotCountAfterFirstDot(s);
    var whole := WholePart(s);
    var frac := FractionPart(s);
    forall i | 0 <= i < |whole| ensures whole[i] != '.' { assert whole[i] == s[i]; }
    forall i | 0 <= i < |frac| ensures frac[i] != '.' { assert frac[i] == s[k + 1 + i]; }
  }

  /** Removing the dot of a decimal literal joins its two parts. */
  lemma {:induction false} RemoveDotsJoinsParts(s: string)
    requires IsDecimalLiteral(s)
    ensures RemoveDots(s) == WholePart(s) + FractionPart(s)
  {
    PartsHaveNoDots(s);
    RemoveDotsNoDots(WholePart(s));
    RemoveDotsNoDots(FractionPart(s));
    if DotIndex(s) < |s| {
      var dot := [s[DotIndex(s)]];
      SplitAtDot(s);
      RemoveDotsAppend(WholePart(s), dot + FractionPart(s));
      RemoveDotsAppend(dot, FractionPart(s));
      RemoveDotsChar(s[DotIndex(s)]);
    } else {
      assert s == WholePart(s);
    }
  }

  /** Ten to the number of digits after the dot. */
  function FractionScale(s: string): nat
  {
    Pow10(|FractionPart(s)|)
  }

  /** The integer a digit string denotes once its dots are removed. */
  function UndottedValue(s: string): nat
    requires AllDigits(RemoveDots(s))
  {
    DigitsValue(RemoveDots(s))
  }

  /** The undotted digits of a decimal literal are its whole part shifted left past its fraction. */
  lemma JoinedPartsValue(s: string)
    requires IsDecimalLiteral(s)
    ensures AllDigits(WholePart(s)) && AllDigits(FractionPart(s)) && AllDigits(RemoveDots(s))
    ensures UndottedValue(s) == DigitsValue(WholePart(s)) * FractionScale(s) + DigitsValue(FractionPart(s))
  {
    PartsAreDigits(s);
    RemoveDotsJoinsParts(s);
    DigitsValueAppend(WholePart(s), FractionPart(s));
  }

  /** float() of a decimal literal is its whole part plus its fraction over the scale. */
  lemma ToFloatParts(s: string)
    requires IsDecimalLiteral(s)
    ensures AllDigits(WholePart(s)) && AllDigits(FractionPart(s))
    ensures ToFloat(s).value
      == DigitsValue(WholePart(s)) as real + DigitsValue(FractionPart(s)) as real / FractionScale(s) as real
  {
    PartsAreDigits(s);
  }

  /** v scaled by p is exactly the integer d. */
  predicate ScalesTo(v: real, p: nat, d: nat)
  {
    v * (p as real) == d as real
  }

  /**
   * The value float() returns, scaled by ten to the number of fractional
   * digits, is the integer the isdigit() guard reads once the dot is removed:
   * float("15.2") * 10 == 152.
   */
  lemma {:induction false} DecimalValueScaled(s: string)
    requires IsDecimalLiteral(s)
    ensures AllDigits(RemoveDots(s))
    ensures ScalesTo(ToFloat(s).value, FractionScale(s), UndottedValue(s))
  {
    JoinedPartsValue(s);
    ToFloatParts(s);
    ScaleBack(ToFloat(s).value, DigitsValue(WholePart(s)), DigitsValue(FractionPart(s)),
              FractionScale(s), UndottedValue(s));
  }

  /** Arithmetic of the scaling: (w + f / p) * p == w * p + f. */
  lemma ScaleBack(v: real, w: nat, f: nat, p: nat, d: nat)
    requires p > 0
    requires v == w as real + f as real / p as real
    requires d == w * p + f
    ensures ScalesTo(v, p, d)
  {
    var pr := p as real;
    assert (f as real / pr) * pr == f as real;
    assert v * pr == w as real * pr + f as real;
  }

  /** Whatever float() accepts among digits and dots passes isdigit() once the dots are removed. */
  lemma DecimalLiteralPassesGuard(s: string)
    ensures IsDecimalLiteral(s) ==> IsDigitString(RemoveDots(s))
  {
    if !IsDecimalLiteral(s) { return; }
    var i :| 0 <= i < |s| && IsDigit(s[i]);
    assert s[i] in RemoveDots(s);
    var r := RemoveDots(s);
    forall j | 0 <= j < |r| ensures IsDigit(r[j]) {
      var c := r[j];
      assert c in s && c != '.';
      var t :| 0 <= t < |s| && s[t] == c;
    }
  }

  // ---------------------------------------------------------------------
  // One match
  // ---------------------------------------------------------------------

  /** The gender named by a captured token ('male'/'men', 'female'/'women'). */
  function GenderOf(token: string): (g: Option<Gender>)
    ensures g == Some(Male) <==> token in ["male", "men"]
    ensures g == Some(Female) <==> token in ["female", "women"]
  {
    if token == "male" || token == "men" then Some(Male)
    else if token == "female" || token == "women" then Some(Female)
    else None
  }

  predicate Plausible(rate: real) { 1.0 < rate < 50.0 }

  /** A gender token is not a number, so float() of it raises. */
  lemma GenderTokenIsNotANumber(token: string)
    ensures GenderOf(token).Some? ==> ToFloat(token) == None
  {
    if GenderOf(token).Some? {
      assert !IsDigit(token[0]) && token[0] != '.';
    }
  }

  /**
   * What one match contributes, or None when it is skipped: a match whose
   * group count is not 2, a capture float() rejects (the `except: continue`
   * path), an implausible rate, or a token that names no gender.
   * The conversion reads the number from the second group when its digits
   * pass isdigit(), and otherwise from the first group.
   */
  function Classify(m: Match): (r: Option<Accepted>)
    ensures r.Some? <==>
      && |m| == 2
      && GenderOf(m[0]).Some?
      && ToFloat(m[1]).Some?
      && Plausible(ToFloat(m[1]).value)
    ensures r.Some? ==> r.value == Accepted(GenderOf(m[0]).value, ToFloat(m[1]).value)
  {
    if |m| != 2 then None
    else
      var gender := m[0];
      var rate := if IsDigitString(RemoveDots(m[1])) then ToFloat(m[1]) else ToFloat(m[0]);
      DecimalLiteralPassesGuard(m[1]);
      GenderTokenIsNotANumber(gender);
      match rate
      case None => None
      case Some(x) =>
        if Plausible(x) then
          match GenderOf(gender)
          case Some(g) => Some(Accepted(g, x))
          case None => None
        else None
  }

  // ---------------------------------------------------------------------
  // The loop over all matches
  // ---------------------------------------------------------------------

  function Slot(p: Prevalences, g: Gender): Option<real>
  {
    if g == Male then p.male else p.female
  }

  /** One iteration of the inner loop: an accepted rate overwrites its gender's slot. */
  function Step(p: Prevalences, m: Match): Prevalences
  {
    match Classify(m)
    case None => p
    case Some(a) =>
      if a.gender == Male then p.(male := Some(a.rate)) else p.(female := Some(a.rate))
  }

  /** The slots after processing the matches in order, starting from empty ones. */
  function ExtractAll(ms: seq<Match>): Prevalences
  {
    if ms == [] then Prevalences(None, None)
    else Step(ExtractAll(ms[..|ms| - 1]), ms[|ms| - 1])
  }

  /** All matches of all patterns, pattern by pattern, in findall order. */
  function Flatten(perPattern: seq<seq<Match>>): seq<Match>
  {
    if perPattern == [] then []
    else Flatten(perPattern[..|perPattern| - 1]) + perPattern[|perPattern| - 1]
  }

  predicate AcceptedFor(m: Match, g: Gender)
  {
    Classify(m).Some? && Classify(m).value.gender == g
  }

  /** Index i holds the last match accepted for gender g. */
  predicate IsLastAccepted(ms: seq<Match>, g: Gender, i: int)
  {
    && 0 <= i < |ms|
    && AcceptedFor(ms[i], g)
    && forall j :: i < j < |ms| ==> !AcceptedFor(ms[j], g)
  }

  /** A match accepted for one gender leaves the other gender's slot alone. */
  lemma StepTouchesOnlyItsGender(p: Prevalences, m: Match, g: Gender)
    ensures Slot(Step(p, m), g) == if AcceptedFor(m, g) then Some(Classify(m).value.rate) else Slot(p, g)
  {
  }

  /** A slot stays empty exactly when no match is accepted for its gender. */
  lemma {:induction false} EmptySlotIffNoneAccepted(ms: seq<Match>, g: Gender)
    ensures Slot(ExtractAll(ms), g).None? <==> forall i :: 0 <= i < |ms| ==> !AcceptedFor(ms[i], g)
  {
    if ms != [] {
      var init, last := ms[..|ms| - 1], ms[|ms| - 1];
      EmptySlotIffNoneAccepted(init, g);
      StepTouchesOnlyItsGender(ExtractAll(init), last, g);
      assert ExtractAll(ms) == Step(ExtractAll(init), last);
      if AcceptedFor(last, g) {
        assert Slot(ExtractAll(ms), g).Some?;
        assert !AcceptedFor(ms[|ms| - 1], g) == false;
      } else {
        assert Slot(ExtractAll(ms), g) == Slot(ExtractAll(init), g);
        assert forall i :: 0 <= i < |init| ==> init[i] == ms[i];
      }
    }
  }

  /** The last accepted match for a gender decides its slot. */
  lemma {:induction false} LastAcceptedWins(ms: seq<Match>, g: Gender, i: int)
    requires IsLastAccepted(ms, g, i)
    ensures Slot(ExtractAll(ms), g) == Some(Classify(ms[i]).value.rate)
  {
    var init := ms[..|ms| - 1];
    StepTouchesOnlyItsGender(ExtractAll(init), ms[|ms| - 1], g);
    if i < |ms| - 1 {
      assert forall j :: 0 <= j < |init| ==> init[j] == ms[j];
      LastAcceptedWins(init, g, i);
    }
  }

  /** Extraction writes rates that passed the plausibility filter and nothing else. */
  lemma {:induction false} ExtractedRatesArePlausible(ms: seq<Match>, g: Gender)
    ensures Slot(ExtractAll(ms), g).Some? ==> Plausible(Slot(ExtractAll(ms), g).value)
  {
    if ms != [] {
      ExtractedRatesArePlausible(ms[..|ms| - 1], g);
      StepTouchesOnlyItsGender(ExtractAll(ms[..|ms| - 1]), ms[|ms| - 1], g);
    }
  }

  lemma FlattenStep(perPattern: seq<seq<Match>>, p: nat)
    requires p < |perPattern|
    ensures Flatten(perPattern[..p + 1]) == Flatten(perPattern[..p]) + perPattern[p]
  {
    assert perPattern[..p + 1][..p] == perPattern[..p];
  }

  lemma ExtractAllSnoc(ms: seq<Match>, m: Match)
    ensures ExtractAll(ms + [m]) == Step(ExtractAll(ms), m)
  {
    assert (ms + [m])[..|ms|] == ms;
  }

  /** The record a slot becomes: {'prevalence': rate}, or {} when nothing was accepted. */
  function PrevalenceRecord(slot: Option<real>): (r: Record)
    ensures r.Keys <= {"prevalence"}
    ensures r == map[] <==> slot.None?
  {
    match slot
    case None => map[]
    case Some(x) =>
      assert "prevalence" in map["prevalence" := Num(x)];
      map["prevalence" := Num(x)]
  }

  /**
   * The body of the inner loop for one match: convert the captured number
   * and, when plausible, write it to the male or female record.
   */
  method ApplyMatch(male: Record, female: Record, m: Match, ghost p: Prevalences)
    returns (male': Record, female': Record)
    requires male == PrevalenceRecord(p.male) && female == PrevalenceRecord(p.female)
    ensures male' == PrevalenceRecord(Step(p, m).male)
    ensures female' == PrevalenceRecord(Step(p, m).female)
  {
    male', female' := male, female;
    if |m| == 2 {
      var gender := m[0];
      var rate := if IsDigitString(RemoveDots(m[1])) then ToFloat(m[1]) else ToFloat(m[0]);
      GenderTokenIsNotANumber(gender);
      // rate == None is float() raising: the match is skipped
      if rate.Some? && 1.0 < rate.value < 50.0 {
        if gender in ["male", "men"] {
          assert Classify(m) == Some(Accepted(Male, rate.value));
          assert Step(p, m) == p.(male := Some(rate.value));
          male' := male'["prevalence" := Num(rate.value)];
        } else if gender in ["female", "women"] {
          assert Classify(m) == Some(Accepted(Female, rate.value));
          assert Step(p, m) == p.(female := Some(rate.value));
          female' := female'["prevalence" := Num(rate.value)];
        } else {
          assert Classify(m) == None;
          assert Step(p, m) == p;
        }
      } else {
        assert Classify(m) == None;
        assert Step(p, m) == p;
      }
    } else {
      assert Classify(m) == None;
      assert Step(p, m) == p;
    }
  }

  /**
   * The inner loop of scrape_gender_based_prevalence: the matches of one
   * pattern, applied in order on top of the records built so far.
   */
  method ExtractMatches(male0: Record, female0: Record, ghost before: seq<Match>, matches: seq<Match>)
    returns (male: Record, female: Record)
    requires male0 == PrevalenceRecord(ExtractAll(before).male)
    requires female0 == PrevalenceRecord(ExtractAll(before).female)
    ensures male == PrevalenceRecord(ExtractAll(before + matches).male)
    ensures female == PrevalenceRecord(ExtractAll(before + matches).female)
  {
    male, female := male0, female0;
    ghost var done := before;
    ghost var p := ExtractAll(before);
    assert before + matches[..0] == before;
    var k := 0;
    while k < |matches|
      invariant 0 <= k <= |matches|
      invariant done == before + matches[..k] && p == ExtractAll(done)
      invariant male == PrevalenceRecord(p.male) && female == PrevalenceRecord(p.female)
    {
      var m := matches[k];
      male, female := ApplyMatch(male, female, m, p);
      assert before + matches[..k + 1] == done + [m];
      ExtractAllSnoc(done, m);
      done, p := done + [m], Step(p, m);
      k := k + 1;
    }
    assert matches[..|matches|] == matches;
  }

  /**
   * The nested loop of scrape_gender_based_prevalence: for each pattern, for
   * each match, convert the captured number and, when plausible, write it to
   * the male or female record's 'prevalence' key.
   */
  method ExtractPrevalence(perPattern: seq<seq<Match>>) returns (male: Record, female: Record)
    ensures male == PrevalenceRecord(ExtractAll(Flatten(perPattern)).male)
    ensures female == PrevalenceRecord(ExtractAll(Flatten(perPattern)).female)
  {
    male, female := map[], map[];
    var p := 0;
    while p < |perPattern|
      invariant 0 <= p <= |perPattern|
      invariant male == PrevalenceRecord(ExtractAll(Flatten(perPattern[..p])).male)
      invariant female == PrevalenceRecord(ExtractAll(Flatten(perPattern[..p])).female)
    {
      male, female := ExtractMatches(male, female, Flatten(perPattern[..p]), perPattern[p]);
      FlattenStep(perPattern, p);
      p := p + 1;
    }
    assert perPattern[..|perPattern|] == perPattern;
  }

  /** A capture of 72 is an implausible prevalence and is rejected. */
  lemma SeventyTwoIsRejected()
    ensures Classify(["male", "72"]) == None
  {
    assert DotIndex("72") == 2;
    assert DigitsValue("7") == 7;
    assert DigitsValue("72") == 72;
  }

  /** A capture of 15.2 is accepted for the gender its token names. */
  lemma FifteenPointTwoIsAccepted()
    ensures Classify(["women", "15.2"]) == Some(Accepted(Female, 15.2))
  {
    var s := "15.2";
    assert DotIndex(s) == 2;
    assert DotCount(s) == 1;
    assert IsDecimalLiteral(s) by { assert IsDigit(s[0]); }
    assert DigitsValue("1") == 1;
    assert DigitsValue("15") == 15 by { assert "15"[..1] == "1"; }
    assert DigitsValue("2") == 2 by { assert "2"[..0] == ""; }
    assert s[..2] == "15" && s[3..] == "2";
    assert DecimalValue(s) == 15.2;
    assert ToFloat(s) == Some(15.2);
  }

  /** A non-numeric capture is skipped, not an error. */
  lemma NonNumericCaptureIsSkipped(token: string, capture: string)
    requires !IsDecimalLiteral(capture)
    ensures Classify([token, capture]) == None
  {
  }
}
