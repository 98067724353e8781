/**
 * The score panel (gui-score-board.ts): an integer score, its text (the
 * decimal of the score left-padded with '0' to ten characters) and the star
 * texture shown for 0..3 stars.
 */
module ScoreBoard {
  import opened Seqs

  /** The width the score text is padded to. */
  const ScoreWidth: nat := 10

  predicate IsDigit(c: char)
  {
    '0' <= c <= '9'
  }

  function DigitChar(d: nat): (c: char)
    requires d < 10
    ensures IsDigit(c) && DigitValue(c) == d
  {
    ('0' as int + d) as char
  }

  function DigitValue(c: char): nat
    requires IsDigit(c)
  {
    c as int - '0' as int
  }

  /** The decimal digits of n, most significant first, with no leading zero. */
  function NatToDecimal(n: nat): (s: string)
    ensures |s| >= 1 && forall i :: 0 <= i < |s| ==> IsDigit(s[i])
    ensures |s| > 1 ==> s[0] != '0'
    decreases n
  {
    if n < 10 then [DigitChar(n)] else NatToDecimal(n / 10) + [DigitChar(n % 10)]
  }

  /** The number a string of digits denotes. */
  function DecimalValue(s: string): nat
    requires forall i :: 0 <= i < |s| ==> IsDigit(s[i])
    decreases |s|
  {
    if |s| == 0 then 0
    else 10 * DecimalValue(s[..|s| - 1]) + DigitValue(s[|s| - 1])
  }

  /** Reading the decimal back gives the number. */
  lemma {:induction false} DecimalRoundTrip(n: nat)
    ensures DecimalValue(NatToDecimal(n)) == n
    decreases n
  {
    if n >= 10 {
      DecimalRoundTrip(n / 10);
      var s := NatToDecimal(n);
      assert s[..|s| - 1] == NatToDecimal(n / 10);
    }
  }

  function Pow10(k: nat): (r: nat)
    ensures r >= 1
  {
    if k == 0 then 1 else 10 * Pow10(k - 1)
  }

  /** The decimal of n has at most k digits exactly when n < 10^k (for k >= 1). */
  lemma {:induction false} DecimalLength(n: nat, k: nat)
    requires k >= 1
    ensures |NatToDecimal(n)| <= k <==> n < Pow10(k)
    decreases n
  {
    if n >= 10 {
      if k == 1 {
        assert |NatToDecimal(n)| >= 2;
      } else {
        DecimalLength(n / 10, k - 1);
      }
    } else if k > 1 {
      PowMonotone(1, k);
    }
  }

  lemma {:induction false} PowMonotone(j: nat, k: nat)
    requires j <= k
    ensures Pow10(j) <= Pow10(k)
    decreases k
  {
    if j < k {
      PowMonotone(j, k - 1);
    }
  }

  /**
   * Number.prototype.toString on an integer: a '-' before the digits of a
   * negative one, and the digits denote the magnitude.
   */
  function IntToString(n: int): (r: string)
    ensures |r| >= 1 && (r[0] == '-' <==> n < 0)
    ensures forall i :: (if n < 0 then 1 else 0) <= i < |r| ==> IsDigit(r[i])
    ensures var digits := r[(if n < 0 then 1 else 0)..];
            && (forall i :: 0 <= i < |digits| ==> IsDigit(digits[i]))
            && DecimalValue(digits) == (if n < 0 then -n else n)
  {
    if n < 0 then
      DecimalRoundTrip(-n);
      assert ("-" + NatToDecimal(-n))[1..] == NatToDecimal(-n);
      "-" + NatToDecimal(-n)
    else
      DecimalRoundTrip(n);
      NatToDecimal(n)
  }

  /**
   * String.prototype.padStart: s itself when it is at least `width` long,
   * otherwise s after enough copies of c to reach `width`.
   */
  function PadStart(s: string, width: nat, c: char): (r: string)
    ensures |s| >= width ==> r == s
    ensures |s| < width ==> |r| == width
    ensures |r| >= |s| && r[|r| - |s|..] == s
    ensures forall i :: 0 <= i < |r| - |s| ==> r[i] == c
  {
    if |s| >= width then s else Repeat(c, width - |s|) + s
  }

  /** this.score.toString().padStart(10, '0') */
  function ScoreText(score: int): (r: string)
    ensures |r| >= ScoreWidth
    ensures var t := IntToString(score);
            && |r| >= |t| && r[|r| - |t|..] == t
            && forall i :: 0 <= i < |r| - |t| ==> r[i] == '0'
  {
    PadStart(IntToString(score), ScoreWidth, '0')
  }

  /** Leading zeros do not change the number a string of digits denotes. */
  lemma {:induction false} LeadingZeros(z: nat, s: string)
    requires forall i :: 0 <= i < |s| ==> IsDigit(s[i])
    ensures forall i :: 0 <= i < |Repeat('0', z) + s| ==> IsDigit((Repeat('0', z) + s)[i])
    ensures DecimalValue(Repeat('0', z) + s) == DecimalValue(s)
    decreases |s|
  {
    var t := Repeat('0', z) + s;
    if |s| == 0 {
      assert t == Repeat('0', z);
      ZerosAreZero(z);
    } else {
      LeadingZeros(z, s[..|s| - 1]);
      assert t[..|t| - 1] == Repeat('0', z) + s[..|s| - 1];
    }
  }

  lemma {:induction false} ZerosAreZero(z: nat)
    ensures DecimalValue(Repeat('0', z)) == 0
    decreases z
  {
    if z > 0 {
      var t := Repeat('0', z);
      assert t[..z - 1] == Repeat('0', z - 1);
      ZerosAreZero(z - 1);
    }
  }

  /**
   * For 0 <= score < 10^10 the text is exactly ten digits and reads back as
   * the score.
   */
  lemma ScoreTextInRange(score: int)
    requires 0 <= score < Pow10(ScoreWidth)
    ensures |ScoreText(score)| == ScoreWidth
    ensures forall i :: 0 <= i < ScoreWidth ==> IsDigit(ScoreText(score)[i])
    ensures DecimalValue(ScoreText(score)) == score
  {
    var s := NatToDecimal(score);
    DecimalLength(score, ScoreWidth);
    DecimalRoundTrip(score);
    if |s| < ScoreWidth {
      assert ScoreText(score) == Repeat('0', ScoreWidth - |s|) + s;
      LeadingZeros(ScoreWidth - |s|, s);
    }
  }

  /** A score whose decimal already has ten or more characters is shown unpadded. */
  lemma LongScoreUnpadded(score: int)
    requires |IntToString(score)| >= ScoreWidth
    ensures ScoreText(score) == IntToString(score)
  {
  }

  /** The sign is padded after, not before: -5 shows as "00000000-5". */
  lemma NegativeScoreText()
    ensures ScoreText(-5) == "00000000-5"
  {
    assert NatToDecimal(5) == "5";
    assert IntToString(-5) == "-5";
    assert Repeat('0', 8) == "00000000";
  }

  /** The texture of the star panel. */
  datatype StarTexture = NoStars | OneStar | TwoStars | ThreeStars

  type StarLevel = s: int | 0 <= s <= 3

  /** setStarScore's choice of texture. */
  function StarTextureFor(stars: StarLevel): (r: StarTexture)
    ensures StarCount(r) == stars
  {
    if stars == 0 then NoStars
    else if stars == 1 then OneStar
    else if stars == 2 then TwoStars
    else ThreeStars
  }

  /** The star count a texture shows. */
  function StarCount(t: StarTexture): StarLevel
  {
    match t
    case NoStars => 0
    case OneStar => 1
    case TwoStars => 2
    case ThreeStars => 3
  }

  /** Each star level has its own texture and every texture is some level's. */
  lemma StarTextureBijective(s: StarLevel, t: StarTexture)
    ensures StarCount(StarTextureFor(s)) == s
    ensures StarTextureFor(StarCount(t)) == t
    ensures forall s' : StarLevel :: StarTextureFor(s') == StarTextureFor(s) ==> s' == s
  {
  }

  lemma ZeroScoreText()
    ensures ScoreText(0) == "0000000000"
  {
    assert NatToDecimal(0) == "0";
    assert Repeat('0', 9) == "000000000";
  }

  class GuiScoreBoard {
    var score: int
    var scoreText: string
    var stars: StarTexture

    constructor ()
      ensures score == 0 && scoreText == "0000000000" && stars == NoStars
    {
      score := 0;
      scoreText := "0000000000";
      stars := NoStars;
    }

    /** adjustScore: the score moves by exactly delta and the text follows it. */
    method AdjustScore(delta: int)
      modifies this`score, this`scoreText
      ensures score == old(score) + delta && scoreText == ScoreText(score)
    {
      score := score + delta;
      scoreText := ScoreText(score);
    }

    /** setStarScore: only the star texture changes. */
    method SetStarScore(s: StarLevel)
      modifies this`stars
      ensures stars == StarTextureFor(s)
    {
      stars := StarTextureFor(s);
    }

    /** resetScore */
    method ResetScore()
      modifies this`score, this`scoreText, this`stars
      ensures score == 0 && scoreText == "0000000000" && stars == NoStars
    {
      score := 0;
      ZeroScoreText();
      scoreText := ScoreText(score);
      SetStarScore(0);
    }
  }

  /** A reset followed by adjustScore(d) leaves the score at d, shown as ScoreText(d). */
  method ResetThenAdjust(board: GuiScoreBoard, d: int)
    modifies board
    ensures board.score == d && board.scoreText == ScoreText(d) && board.stars == NoStars
  {
    board.ResetScore();
    board.AdjustScore(d);
  }
}
