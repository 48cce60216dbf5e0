/** The score shown on screen (main.py, display_score): the number of
    asteroids destroyed times the level plus ten, written after "Score: " in
    decimal with a leading zero below ten. */
module Scoring {

  const Prefix := "Score: "

  function Score(destroyed: nat, level: nat): nat
  {
    destroyed * (level + 10)
  }

  predicate IsDigit(c: char) { '0' <= c <= '9' }

  predicate AllDigits(s: string)
  {
    forall i :: 0 <= i < |s| ==> IsDigit(s[i])
  }

  function DigitChar(d: nat): (c: char)
    requires d < 10
    ensures IsDigit(c) && (c as int) - ('0' as int) == d
  {
    (('0' as int) + d) as char
  }

  /** The decimal text of a non-negative number, as Python's `str`
      writes it: no sign and no leading zero except for 0 itself. */
  function Decimal(n: nat): (s: string)
    ensures |s| >= 1 && AllDigits(s)
    ensures s[0] == '0' <==> n == 0
    ensures n < 10 <==> |s| == 1
    decreases n
  {
    if n < 10 then [DigitChar(n)] else Decimal(n / 10) + [DigitChar(n % 10)]
  }

  /** The number a string of decimal digits stands for. */
  function DecimalValue(s: string): nat
    requires AllDigits(s)
    decreases |s|
  {
    if s == [] then 0
    else DecimalValue(s[..|s| - 1]) * 10 + ((s[|s| - 1] as int) - ('0' as int))
  }

  /** Reading back the decimal text of a number yields the number. */
  lemma {:induction false} DecimalRoundTrip(n: nat)
    ensures DecimalValue(Decimal(n)) == n
    decreases n
  {
    if n >= 10 {
      DecimalRoundTrip(n / 10);
      var s := Decimal(n);
      assert s[..|s| - 1] == Decimal(n / 10);
    }
  }

  /** The score line: the prefix, then at least two digits that read back as
      the score, the first of them a '0' exactly when the score is below 10.
      A score below 10 is padded with that one '0' to exactly two digits; a
      larger score has no leading zero, so its digits are determined. */
  function ScoreText(destroyed: nat, level: nat): (text: string)
    ensures |text| >= |Prefix| + 2 && text[..|Prefix|] == Prefix
    ensures AllDigits(text[|Prefix|..])
    ensures DecimalValue(text[|Prefix|..]) == Score(destroyed, level)
    ensures text[|Prefix|] == '0' <==> Score(destroyed, level) < 10
    ensures Score(destroyed, level) < 10 ==> |text| == |Prefix| + 2
  {
    var score := Score(destroyed, level);
    DecimalRoundTrip(score);
    var number := if score < 10 then "0" + Decimal(score) else Decimal(score);
    assert score < 10 ==> number[..|number| - 1] == "0";
    assert (Prefix + number)[|Prefix|..] == number;
    Prefix + number
  }
}
