/**
 * Decoding of the four-character term codes used by the class notifier
 * (for example "2257" is the fall term of 2025).
 *
 * The year is read with Python's `int` on the two middle characters, so a
 * code such as "2ab7" raises an error instead of yielding "Unknown Term";
 * the model keeps that error as a `ValueError` result.
 */
module Terms {

  import opened Wrappers

  /** The outcome of a call that may raise Python's ValueError. */
  datatype Result<T> = Ok(value: T) | ValueError

  const UNKNOWN_TERM := "Unknown Term"

  predicate IsDigit(c: char) { '0' <= c <= '9' }

  function DigitValue(c: char): nat
    requires IsDigit(c)
  {
    c as int - '0' as int
  }

  /** The ASCII characters Python's `int` strips around a number. */
  predicate IsSpace(c: char) {
    c == ' ' || c == '\t' || c == '\n' || c == '\r' || c == '\U{000B}' || c == '\U{000C}'
  }

  /**
   * Python's `int(s)` for a string of exactly two ASCII characters: two
   * digits, a sign and a digit, or one digit padded by white space.
   * Anything else raises ValueError (None here).
   */
  function IntOfTwoChars(s: string): (r: Option<int>)
    requires |s| == 2
    ensures r.Some? ==> -9 <= r.value <= 99
    ensures IsDigit(s[0]) && IsDigit(s[1]) ==> r == Some(10 * DigitValue(s[0]) + DigitValue(s[1]))
    ensures !IsDigit(s[0]) && !IsDigit(s[1]) ==> r.None?
    ensures !IsDigit(s[0]) && IsDigit(s[1]) ==> (r.Some? <==> s[0] == '+' || s[0] == '-' || IsSpace(s[0]))
    ensures !IsDigit(s[0]) && IsDigit(s[1]) && r.Some? ==>
              r.value == if s[0] == '-' then -(DigitValue(s[1]) as int) else DigitValue(s[1])
    ensures IsDigit(s[0]) && !IsDigit(s[1]) ==> (r.Some? <==> IsSpace(s[1]))
    ensures IsDigit(s[0]) && !IsDigit(s[1]) && r.Some? ==> r.value == DigitValue(s[0])
  {
    if IsDigit(s[0]) && IsDigit(s[1]) then Some(10 * DigitValue(s[0]) + DigitValue(s[1]))
    else if s[0] == '+' && IsDigit(s[1]) then Some(DigitValue(s[1]))
    else if s[0] == '-' && IsDigit(s[1]) then Some(-(DigitValue(s[1]) as int))
    else if IsSpace(s[0]) && IsDigit(s[1]) then Some(DigitValue(s[1]))
    else if IsDigit(s[0]) && IsSpace(s[1]) then Some(DigitValue(s[0]))
    else None
  }

  /** Decimal rendering of a natural number, as an f-string prints it. */
  function NatToString(n: nat): (r: string)
    ensures |r| >= 1
    ensures forall i :: 0 <= i < |r| ==> IsDigit(r[i])
    ensures r[0] == '0' ==> n == 0
  {
    if n < 10 then [(('0' as int) + n) as char]
    else NatToString(n / 10) + [(('0' as int) + n % 10) as char]
  }

  /** The value of a string of decimal digits, most significant first. */
  function DecimalValue(s: string): nat
    requires forall i :: 0 <= i < |s| ==> IsDigit(s[i])
  {
    if s == [] then 0 else 10 * DecimalValue(s[..|s| - 1]) + DigitValue(s[|s| - 1])
  }

  /** Reading back the decimal rendering gives the number again. */
  lemma {:induction false} DecimalRoundTrip(n: nat)
    ensures DecimalValue(NatToString(n)) == n
  {
    var r := NatToString(n);
    if n >= 10 {
      DecimalRoundTrip(n / 10);
      assert r[..|r| - 1] == NatToString(n / 10);
    }
  }

  /** Distinct years render as distinct strings. */
  lemma NatToStringInjective(m: nat, n: nat)
    requires NatToString(m) == NatToString(n)
    ensures m == n
  {
    DecimalRoundTrip(m);
    DecimalRoundTrip(n);
  }

  /** The season word for the last character of a term code, if any. */
  function SeasonName(c: char): Option<string>
  {
    if c == '1' then Some("Spring")
    else if c == '4' then Some("Summer")
    else if c == '7' then Some("Fall")
    else None
  }

  /**
   * The display name of a term code (backend/app.py, get_term_name).
   * A code whose length is not four is "Unknown Term"; otherwise the year
   * is parsed first (which may raise), and then the last character picks
   * Spring, Summer or Fall, or "Unknown Term" for any other character.
   */
  function GetTermName(code: string): (r: Result<string>)
    ensures r.ValueError? <==> |code| == 4 && IntOfTwoChars(code[1..3]).None?
    ensures |code| != 4 ==> r == Ok(UNKNOWN_TERM)
    ensures r.Ok? && r.value != UNKNOWN_TERM <==>
              |code| == 4 && IntOfTwoChars(code[1..3]).Some? && SeasonName(code[3]).Some?
    ensures r.Ok? && r.value != UNKNOWN_TERM ==>
              r.value == SeasonName(code[3]).value + " " + NatToString(2000 + IntOfTwoChars(code[1..3]).value)
  {
    if |code| != 4 then Ok(UNKNOWN_TERM)
    else
      match IntOfTwoChars(code[1..3])
      case None => ValueError
      case Some(yy) =>
        var year := 2000 + yy;
        match SeasonName(code[3])
        case None => Ok(UNKNOWN_TERM)
        case Some(season) =>
          assert (season + " " + NatToString(year))[0] != UNKNOWN_TERM[0];
          Ok(season + " " + NatToString(year))
  }

  /**
   * Building a code from a season character and a two-digit year and
   * decoding it gives back that season and 2000 plus the year; the first
   * character of the code is ignored.
   */
  lemma {:induction false} TermCodeRoundTrip(first: char, tens: char, ones: char, season: char)
    requires IsDigit(tens) && IsDigit(ones) && SeasonName(season).Some?
    ensures var r := GetTermName([first, tens, ones, season]);
      && r.Ok?
      && r.value == SeasonName(season).value + " " + NatToString(2000 + 10 * DigitValue(tens) + DigitValue(ones))
  {
    var code := [first, tens, ones, season];
    assert code[1..3] == [tens, ones];
    assert code[3] == season;
  }

  /** Two codes that decode to the same known term name agree on season and year. */
  lemma {:induction false} TermNameDeterminesTerm(c1: string, c2: string)
    requires GetTermName(c1).Ok? && GetTermName(c1).value != UNKNOWN_TERM
    requires GetTermName(c1) == GetTermName(c2)
    ensures c1[3] == c2[3]
    ensures IntOfTwoChars(c1[1..3]) == IntOfTwoChars(c2[1..3])
  {
    var s1, s2 := SeasonName(c1[3]).value, SeasonName(c2[3]).value;
    var y1, y2 := NatToString(2000 + IntOfTwoChars(c1[1..3]).value), NatToString(2000 + IntOfTwoChars(c2[1..3]).value);
    var n := GetTermName(c1).value;
    assert n == s1 + " " + y1 == s2 + " " + y2;
    // Spring, Summer and Fall differ at index 1 or at index 4 of the name.
    assert s1 == s2 by {
      assert n[1] == s1[1] == s2[1];
      assert n[4] == (s1 + " ")[4] == (s2 + " ")[4];
    }
    assert y1 == n[|s1| + 1..] == y2;
    NatToStringInjective(2000 + IntOfTwoChars(c1[1..3]).value, 2000 + IntOfTwoChars(c2[1..3]).value);
  }

  /** The code the notifier starts with. */
  lemma DefaultTermIsFall2025()
    ensures GetTermName("2257") == Ok("Fall 2025")
  {
    assert "2257"[1..3] == "25";
    assert IntOfTwoChars("25") == Some(25);
    assert SeasonName("2257"[3]) == Some("Fall");
    assert NatToString(2025) == "2025" by {
      assert NatToString(2) == "2";
      assert NatToString(20) == "20";
      assert NatToString(202) == "202";
    }
    assert "Fall" + " " + "2025" == "Fall 2025";
  }
}
