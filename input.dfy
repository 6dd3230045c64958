/** The measurement label's input filter (`handleInputChange`): the text
    must match `^\d*\.?\d*$`; an empty text or a lone dot clears the typed
    length, anything else is read as a decimal in the display unit and
    stored in millimetres. */
module Input {
  import opened Geometry

  predicate IsDigit(c: char) {
    '0' <= c <= '9'
  }

  predicate AllDigits(s: string) {
    forall i :: 0 <= i < |s| ==> IsDigit(s[i])
  }

  /** The shape the pattern describes: digits, at most one dot, digits. */
  predicate DecimalShape(s: string) {
    exists i :: 0 <= i <= |s| && AllDigits(s[..i])
      && (AllDigits(s[i..]) || (i < |s| && s[i] == '.' && AllDigits(s[i + 1..])))
  }

  /** The matcher, left to right: digits anywhere, one dot at most. */
  function Matches(s: string, seenDot: bool): bool {
    if s == [] then true
    else if IsDigit(s[0]) then Matches(s[1..], seenDot)
    else if s[0] == '.' && !seenDot then Matches(s[1..], true)
    else false
  }

  /** After the dot only digits may follow. */
  lemma {:induction false} MatchesAfterDot(s: string)
    ensures Matches(s, true) <==> AllDigits(s)
    decreases |s|
  {
    if s != [] {
      MatchesAfterDot(s[1..]);
      assert forall i :: 1 <= i < |s| ==> s[i] == s[1..][i - 1];
    }
  }

  /** A digit prefix is skipped without changing the matcher's mode. */
  lemma {:induction false} MatchesSkipsDigits(s: string, i: nat, seenDot: bool)
    requires i <= |s| && AllDigits(s[..i])
    ensures Matches(s, seenDot) == Matches(s[i..], seenDot)
    decreases i
  {
    if i > 0 {
      assert IsDigit(s[..i][0]);
      assert s[1..][..i - 1] == s[..i][1..];
      MatchesSkipsDigits(s[1..], i - 1, seenDot);
      assert s[1..][i - 1..] == s[i..];
    }
  }

  /** An accepted text splits at its first dot into two digit strings. */
  lemma {:induction false} ShapeSplit(s: string)
    requires Matches(s, false)
    ensures AllDigits(s[..DotIndex(s)])
    ensures DotIndex(s) < |s| ==> AllDigits(s[DotIndex(s) + 1..])
    decreases |s|
  {
    if s != [] {
      if s[0] == '.' {
        MatchesAfterDot(s[1..]);
      } else {
        ShapeSplit(s[1..]);
        var d := DotIndex(s[1..]);
        assert DotIndex(s) == d + 1;
        assert s[..d + 1] == [s[0]] + s[1..][..d];
        assert d < |s[1..]| ==> s[d + 2..] == s[1..][d + 1..];
      }
    }
  }

  lemma MatchedHasShape(s: string)
    requires Matches(s, false)
    ensures DecimalShape(s)
  {
    ShapeSplit(s);
    var d := DotIndex(s);
    if d == |s| {
      assert AllDigits(s[d..]);
    }
    assert AllDigits(s[..d]) && (AllDigits(s[d..]) || (d < |s| && s[d] == '.' && AllDigits(s[d + 1..])));
  }

  lemma ShapeIsMatched(s: string, i: nat)
    requires i <= |s| && AllDigits(s[..i])
    requires AllDigits(s[i..]) || (i < |s| && s[i] == '.' && AllDigits(s[i + 1..]))
    ensures Matches(s, false)
  {
    MatchesSkipsDigits(s, i, false);
    if AllDigits(s[i..]) {
      MatchesSkipsDigits(s[i..], |s[i..]|, false);
      assert s[i..][|s[i..]|..] == [];
    } else {
      assert s[i..][1..] == s[i + 1..];
      MatchesAfterDot(s[i + 1..]);
    }
  }

  /** The matcher accepts exactly the strings of the pattern's shape. */
  lemma MatchesIsShape(s: string)
    ensures Matches(s, false) <==> DecimalShape(s)
  {
    if Matches(s, false) {
      MatchedHasShape(s);
    }
    if DecimalShape(s) {
      var i :| 0 <= i <= |s| && AllDigits(s[..i])
        && (AllDigits(s[i..]) || (i < |s| && s[i] == '.' && AllDigits(s[i + 1..])));
      ShapeIsMatched(s, i);
    }
  }

  function DigitValue(c: char): nat
    requires IsDigit(c)
  {
    (c as int - '0' as int) as nat
  }

  /** The value of a digit string (0 for the empty string). */
  function DigitsValue(s: string): (v: nat)
    requires AllDigits(s)
  {
    if s == [] then 0 else 10 * DigitsValue(s[..|s| - 1]) + DigitValue(s[|s| - 1])
  }

  function Pow10(n: nat): (p: nat)
    ensures p >= 1
  {
    if n == 0 then 1 else 10 * Pow10(n - 1)
  }

  /** Where the dot is, or the length when there is none. */
  function DotIndex(s: string): (i: nat)
    ensures i <= |s|
    ensures i < |s| ==> s[i] == '.'
    ensures forall j :: 0 <= j < i ==> s[j] != '.'
  {
    if s == [] then 0
    else if s[0] == '.' then 0
    else
      var i := DotIndex(s[1..]);
      assert forall j :: 1 <= j <= i ==> s[j] == s[1..][j - 1];
      1 + i
  }

  /** `parseFloat` on an accepted text: the integral digits plus the
      fractional digits scaled by their count. */
  function DecimalValue(s: string): (v: real)
    requires Matches(s, false)
    ensures v >= 0.0
  {
    var i := DotIndex(s);
    ShapeSplit(s);
    var whole := DigitsValue(s[..i]) as real;
    var fracDigits := if i < |s| then s[i + 1..] else [];
    whole + (DigitsValue(fracDigits) as real) / (Pow10(|fracDigits|) as real)
  }

  /** What a keystroke in the label's input does. */
  datatype InputOutcome =
    | Rejected           // the text does not match; the input keeps its old text
    | Cleared            // `onValueChange(id, null)`
    | Entered(mm: real)  // `onValueChange(id, value / factor)`

  function InputChange(text: string, u: Unit): (r: InputOutcome)
    ensures r.Rejected? <==> !DecimalShape(text)
    ensures r.Cleared? <==> DecimalShape(text) && (text == "" || text == ".")
    ensures r.Entered? ==> r.mm >= 0.0
  {
    MatchesIsShape(text);
    if !Matches(text, false) then Rejected
    else if text == "" || text == "." then Cleared
    else Entered(DecimalValue(text) / Factor(u))
  }

  /** The stored millimetres, shown back in the same unit, give the typed value. */
  lemma EnteredShowsTyped(text: string, u: Unit)
    requires InputChange(text, u).Entered?
    ensures Matches(text, false)
    ensures InputChange(text, u).mm * Factor(u) == DecimalValue(text)
  {
    MatchesIsShape(text);
  }

  /** An accepted text other than "" and "." has a digit, so `parseFloat`
      never yields NaN on it. */
  lemma {:induction false} AcceptedHasDigit(s: string)
    requires Matches(s, false) && s != "" && s != "."
    ensures exists i :: 0 <= i < |s| && IsDigit(s[i])
  {
    if !IsDigit(s[0]) {
      assert s[0] == '.';
      assert |s| > 1;
      MatchesAfterDot(s[1..]);
      assert IsDigit(s[1..][0]);
      assert IsDigit(s[1]);
    }
  }

  /** "12.5" typed in millimetres stores 12.5 mm. */
  lemma TypedDecimal()
    ensures InputChange("12.5", Mm) == Entered(12.5)
  {
    var t := "12.5";
    assert Matches(t, false);
    assert DotIndex(t) == 2;
    assert t[..2] == "12" && t[3..] == "5";
    assert "12"[..1] == "1" && "1"[..0] == [] && "5"[..0] == [];
  }

  /** "1.5" typed in centimetres stores 15 mm. */
  lemma TypedCentimetres()
    ensures InputChange("1.5", Cm) == Entered(15.0)
  {
    var t := "1.5";
    assert Matches(t, false);
    assert DotIndex(t) == 1;
    assert t[..1] == "1" && t[2..] == "5";
    assert "1"[..0] == [] && "5"[..0] == [];
  }

  /** A second dot or a sign is refused. */
  lemma TypedRejected()
    ensures InputChange("1.2.3", Mm) == Rejected
    ensures InputChange("-3", Mm) == Rejected
  {
    assert !Matches("1.2.3", false) by {
      assert "1.2.3"[1..] == ".2.3";
      assert ".2.3"[1..] == "2.3";
      assert "2.3"[1..] == ".3";
    }
    MatchesIsShape("1.2.3");
    MatchesIsShape("-3");
  }
}
