/** An optional value, used for the registry's final-score slot and for parsing. */
module Options {
  datatype Option<+T> = None | Some(value: T)
}

/**
 * The on-screen carrot counter. The scene starts with the text "Carrot: 0"
 * and every collection rewrites it as "Carrots: " followed by the counter in
 * decimal, as a JavaScript template literal renders a small non-negative
 * integer. The parser below is the inverse used to state that the text
 * always determines the counter.
 */
module ScoreText {
  import opened Options

  /** The text the scene creates before anything is collected (singular label). */
  const InitialText: string := "Carrot: 0"

  /** The label written by every collection (plural label). */
  const CollectedPrefix: string := "Carrots: "

  predicate IsDigit(c: char) {
    '0' <= c <= '9'
  }

  function DigitChar(d: nat): (c: char)
    requires d < 10
    ensures IsDigit(c) && c as int - '0' as int == d
  {
    ('0' as int + d) as char
  }

  /** Decimal rendering of a counter, most significant digit first, no leading zeros. */
  function Decimal(n: nat): (s: string)
    ensures |s| > 0
    ensures forall i :: 0 <= i < |s| ==> IsDigit(s[i])
    ensures |s| > 1 ==> s[0] != '0'
    decreases n
  {
    if n < 10 then [DigitChar(n)] else Decimal(n / 10) + [DigitChar(n % 10)]
  }

  /** Reads a non-empty string of decimal digits; None on anything else. */
  function ParseDigits(s: string): Option<nat>
    decreases |s|
  {
    if |s| == 0 || !IsDigit(s[|s| - 1]) then None
    else
      var d := s[|s| - 1] as int - '0' as int;
      if |s| == 1 then Some(d)
      else match ParseDigits(s[..|s| - 1])
        case None => None
        case Some(m) => Some(m * 10 + d)
  }

  lemma {:induction false} DecimalRoundTrip(n: nat)
    ensures ParseDigits(Decimal(n)) == Some(n)
    decreases n
  {
    if n >= 10 {
      DecimalRoundTrip(n / 10);
      var s := Decimal(n);
      assert s[..|s| - 1] == Decimal(n / 10);
    }
  }

  /**
   * The score text shown while the counter holds n: the singular initial text
   * at 0, afterwards the plural label followed by digits that read back as n.
   */
  function ScoreLabel(n: nat): (r: string)
    ensures n == 0 ==> r == InitialText
    ensures n > 0 ==> && |r| > |CollectedPrefix| && r[..|CollectedPrefix|] == CollectedPrefix
                      && ParseDigits(r[|CollectedPrefix|..]) == Some(n)
  {
    if n == 0 then InitialText
    else
      DecimalRoundTrip(n);
      assert (CollectedPrefix + Decimal(n))[|CollectedPrefix|..] == Decimal(n);
      CollectedPrefix + Decimal(n)
  }

  /** Recovers the counter from a score text; None when the text is not one. */
  function ScoreCount(t: string): Option<nat> {
    if t == InitialText then Some(0)
    else if |t| > |CollectedPrefix| && t[..|CollectedPrefix|] == CollectedPrefix then
      ParseDigits(t[|CollectedPrefix|..])
    else None
  }

  /** The displayed text (and so the final score handed to the game-over scene) determines the counter. */
  lemma {:induction false} ScoreLabelRoundTrip(n: nat)
    ensures ScoreCount(ScoreLabel(n)) == Some(n)
  {
  }

  /** Distinct counters are shown as distinct texts. */
  lemma ScoreLabelInjective(m: nat, n: nat)
    requires ScoreLabel(m) == ScoreLabel(n)
    ensures m == n
  {
    ScoreLabelRoundTrip(m);
    ScoreLabelRoundTrip(n);
  }
}
