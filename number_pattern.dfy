/** `re.findall(r'\d+(?:\.\d+)?%?', text)`: the numbers and percentages the
    experience analysis counts as quantifiable achievements. */
module NumberPattern {
  import opened Text

  /** Length of the longest run of digits that starts at position `i`. */
  function DigitRun(s: string, i: nat): (n: nat)
    requires i <= |s|
    ensures i + n <= |s|
    ensures forall k :: i <= k < i + n ==> IsDigit(s[k])
    ensures i + n == |s| || !IsDigit(s[i + n])
    decreases |s| - i
  {
    if i < |s| && IsDigit(s[i]) then 1 + DigitRun(s, i + 1) else 0
  }

  /** Length of the match that the pattern finds at position `i`, 0 when none
      starts there. The pattern has no way to fail after its first digit, so
      the greedy choice is the match: every digit, then a fraction when a dot
      is followed by a digit, then a percent sign when one follows. */
  function MatchLength(s: string, i: nat): (n: nat)
    requires i <= |s|
    ensures i + n <= |s|
    ensures n > 0 <==> i < |s| && IsDigit(s[i])
  {
    var d := DigitRun(s, i);
    if d == 0 then 0
    else
      var j := i + d;
      var f := if j + 1 < |s| && s[j] == '.' && IsDigit(s[j + 1]) then 1 + DigitRun(s, j + 1) else 0;
      var p := if j + f < |s| && s[j + f] == '%' then 1 else 0;
      d + f + p
  }

  predicate StartsWithDigit(t: string) {
    |t| > 0 && IsDigit(t[0])
  }

  /** The non-overlapping matches from position `i` on, scanning left to right. */
  function MatchesFrom(s: string, i: nat): (matches: seq<string>)
    requires i <= |s|
    ensures |matches| <= |s| - i
    ensures forall m :: m in matches ==> StartsWithDigit(m)
    decreases |s| - i
  {
    if i == |s| then []
    else
      var n := MatchLength(s, i);
      if n == 0 then MatchesFrom(s, i + 1) else [s[i..i + n]] + MatchesFrom(s, i + n)
  }

  /** `re.findall` over the whole text: at most one match per character, each
      starting with a digit. */
  function NumberMatches(s: string): (matches: seq<string>)
    ensures |matches| <= |s|
    ensures forall m :: m in matches ==> StartsWithDigit(m)
  {
    MatchesFrom(s, 0)
  }

  predicate AllDigits(t: string) {
    forall k | 0 <= k < |t| :: IsDigit(t[k])
  }

  /** `t` is a word of the language `\d+(?:\.\d+)?%?`: digits `t[..w]`, an
      optional fraction `t[w..f]` made of a dot and digits, an optional `%`. */
  ghost predicate IsNumberToken(t: string) {
    exists w, f :: TokenShape(t, w, f)
  }

  /** `t` splits as `t[..w]`, `t[w..f]`, `t[f..]` into the three parts of the pattern. */
  predicate TokenShape(t: string, w: int, f: int) {
    && 0 < w <= f <= |t|
    && AllDigits(t[..w])
    && (f == w || (f >= w + 2 && t[w..f][0] == '.' && AllDigits(t[w..f][1..])))
    && (f == |t| || (f + 1 == |t| && t[f] == '%'))
  }

  /** The text matched at a position is a word of the pattern's language. */
  lemma MatchIsNumberToken(s: string, i: nat)
    requires i < |s| && MatchLength(s, i) > 0
    ensures IsNumberToken(s[i..i + MatchLength(s, i)])
  {
    var n := MatchLength(s, i);
    var t := s[i..i + n];
    var d := DigitRun(s, i);
    var j := i + d;
    var f := if j + 1 < |s| && s[j] == '.' && IsDigit(s[j + 1]) then 1 + DigitRun(s, j + 1) else 0;
    assert n == d + f + (if j + f < |s| && s[j + f] == '%' then 1 else 0);
    assert AllDigits(t[..d]) by {
      forall k | 0 <= k < d ensures IsDigit(t[..d][k]) {
        assert t[..d][k] == s[i + k];
      }
    }
    if f > 0 {
      var frac := t[d..d + f];
      assert frac[0] == t[d] == s[j] == '.';
      assert AllDigits(frac[1..]) by {
        forall k | 0 <= k < f - 1 ensures IsDigit(frac[1..][k]) {
          assert frac[1..][k] == t[d + 1 + k] == s[j + 1 + k];
        }
      }
    }
    if d + f < n {
      assert t[d + f] == s[j + f] == '%';
    }
    assert TokenShape(t, d, d + f);
  }

  /** Digits that start at `a` all lie within the digit run there. */
  lemma {:induction false} DigitsWithinRun(s: string, a: nat, m: nat)
    requires a + m <= |s|
    requires forall k :: a <= k < a + m ==> IsDigit(s[k])
    ensures m <= DigitRun(s, a)
    decreases m
  {
    if m > 0 {
      assert IsDigit(s[a]);
      DigitsWithinRun(s, a + 1, m - 1);
    }
  }

  /** A token whose integer part is longer or shorter than the digit run at
      its position does not start the text there. */
  lemma IntegerPartIsRun(s: string, i: nat, k: nat, w: nat, f: nat)
    requires i + k <= |s| && DigitRun(s, i) <= k && TokenShape(s[i..i + k], w, f)
    ensures w == DigitRun(s, i)
  {
    var t := s[i..i + k];
    var d := DigitRun(s, i);
    // the integer part is digits, so it does not pass the end of the run ...
    assert forall q :: 0 <= q < w ==> t[..w][q] == t[q] && IsDigit(t[q]);
    assert d < |t| ==> t[d] == s[i + d];
    // ... and what follows it is a dot or a percent sign, so the run does not go on
    assert w < |t| ==> t[w] == s[i + w];
    assert w < f ==> t[w..f][0] == t[w];
  }

  /** A token's fraction, after the digit run, is the fraction the match takes. */
  lemma FractionIsMatchFraction(s: string, i: nat, k: nat, f: nat)
    requires i < |s| && MatchLength(s, i) < k && i + k <= |s|
    requires DigitRun(s, i) < f && TokenShape(s[i..i + k], DigitRun(s, i), f)
    ensures var j := i + DigitRun(s, i);
      && j + 1 < |s| && s[j] == '.' && IsDigit(s[j + 1])
      && f == DigitRun(s, i) + 1 + DigitRun(s, j + 1)
  {
    var t := s[i..i + k];
    var d := DigitRun(s, i);
    var j := i + d;
    assert t[d..f][0] == t[d] == s[j];
    assert t[d..f][1..][0] == s[j + 1] && IsDigit(t[d..f][1..][0]);
    var e := DigitRun(s, j + 1);
    assert MatchLength(s, i) >= d + 1 + e;
    // the fraction's digits are exactly the run after the dot
    var digits := t[d..f][1..];
    forall k | j + 1 <= k < i + f
      ensures IsDigit(s[k])
    {
      assert digits[k - j - 1] == t[k - i] == s[k];
    }
    DigitsWithinRun(s, j + 1, f - d - 1);
    assert f < |t| ==> t[f] == s[i + f];
  }

  /** The match is the longest number token at its position: no longer text
      starting there is a word of the pattern's language, so the greedy
      choice is the one `re.findall` reports. */
  lemma MatchIsLongest(s: string, i: nat, k: nat)
    requires i < |s| && MatchLength(s, i) > 0 && MatchLength(s, i) < k <= |s| - i
    ensures !IsNumberToken(s[i..i + k])
  {
    var t := s[i..i + k];
    var d := DigitRun(s, i);
    var j := i + d;
    var fr := if j + 1 < |s| && s[j] == '.' && IsDigit(s[j + 1]) then 1 + DigitRun(s, j + 1) else 0;
    assert MatchLength(s, i) == d + fr + (if j + fr < |s| && s[j + fr] == '%' then 1 else 0);
    if IsNumberToken(t) {
      var w, f :| TokenShape(t, w, f);
      IntegerPartIsRun(s, i, k, w, f);
      if f > w {
        FractionIsMatchFraction(s, i, k, f);
      }
    }
  }

  lemma {:induction false} MatchesFromAreNumberTokens(s: string, i: nat)
    requires i <= |s|
    ensures forall m :: m in MatchesFrom(s, i) ==> IsNumberToken(m)
    decreases |s| - i
  {
    if i < |s| {
      var n := MatchLength(s, i);
      if n == 0 {
        MatchesFromAreNumberTokens(s, i + 1);
      } else {
        MatchIsNumberToken(s, i);
        MatchesFromAreNumberTokens(s, i + n);
      }
    }
  }

  /** Every string `re.findall` returns for this pattern is a number token. */
  lemma NumberMatchesAreNumberTokens(s: string)
    ensures forall m :: m in NumberMatches(s) ==> IsNumberToken(m)
  {
    MatchesFromAreNumberTokens(s, 0);
  }

  lemma {:induction false} NoMatchesFromIffNoDigits(s: string, i: nat)
    requires i <= |s|
    ensures MatchesFrom(s, i) == [] <==> forall k :: i <= k < |s| ==> !IsDigit(s[k])
    decreases |s| - i
  {
    if i < |s| {
      if MatchLength(s, i) == 0 {
        NoMatchesFromIffNoDigits(s, i + 1);
      }
    }
  }

  /** The pattern finds nothing exactly when the text holds no digit. */
  lemma NoMatchesIffNoDigits(s: string)
    ensures NumberMatches(s) == [] <==> forall k :: 0 <= k < |s| ==> !IsDigit(s[k])
  {
    NoMatchesFromIffNoDigits(s, 0);
  }
}
