/**
 * The name under which a generated image is saved (main.py:96): the URL's last
 * `/`-separated segment, cut before its first `?`, then a random number below
 * 1000 in decimal, then ".png".
 */
module ImageFile {

  /** The value `np.random.randint(1000)` can take. */
  type Suffix = n: int | 0 <= n < 1000

  /** Index just after the last `/` in `s[..k]`, or 0 when there is none. */
  function SegmentStart(s: string, k: nat): (i: nat)
    requires k <= |s|
    ensures i <= k
    ensures i == 0 || s[i - 1] == '/'
    ensures forall m :: i <= m < k ==> s[m] != '/'
    decreases k
  {
    if k == 0 || s[k - 1] == '/' then k else SegmentStart(s, k - 1)
  }

  /** Index of the first `?` in `s` at or after `from`, or `|s|` when there is none. */
  function QueryStart(s: string, from: nat): (j: nat)
    requires from <= |s|
    ensures from <= j <= |s|
    ensures forall m :: from <= m < j ==> s[m] != '?'
    ensures j == |s| || s[j] == '?'
    decreases |s| - from
  {
    if from == |s| || s[from] == '?' then from else QueryStart(s, from + 1)
  }

  /** Python's `s.split("/")[-1]`: everything after the last `/`, or all of `s`. */
  function AfterLastSlash(s: string): (r: string)
    ensures |r| <= |s| && r == s[|s| - |r|..]
    ensures forall m :: 0 <= m < |r| ==> r[m] != '/'
    ensures |r| < |s| ==> s[|s| - |r| - 1] == '/'
  {
    s[SegmentStart(s, |s|)..]
  }

  /** Any suffix without `/` that is all of `s` or follows a `/` is the last segment. */
  lemma AfterLastSlashUnique(s: string, r: string)
    requires |r| <= |s| && r == s[|s| - |r|..]
    requires forall m :: 0 <= m < |r| ==> r[m] != '/'
    requires |r| < |s| ==> s[|s| - |r| - 1] == '/'
    ensures r == AfterLastSlash(s)
  {
  }

  /** Python's `s.split("?")[0]`: everything before the first `?`, or all of `s`. */
  function BeforeFirstQuery(s: string): (r: string)
    ensures |r| <= |s| && r == s[..|r|]
    ensures forall m :: 0 <= m < |r| ==> r[m] != '?'
    ensures |r| < |s| ==> s[|r|] == '?'
  {
    s[..QueryStart(s, 0)]
  }

  /** Any prefix without `?` that is all of `s` or is followed by a `?` is the first piece. */
  lemma BeforeFirstQueryUnique(s: string, r: string)
    requires |r| <= |s| && r == s[..|r|]
    requires forall m :: 0 <= m < |r| ==> r[m] != '?'
    requires |r| < |s| ==> s[|r|] == '?'
    ensures r == BeforeFirstQuery(s)
  {
  }

  predicate IsDigit(c: char)
  {
    '0' <= c <= '9'
  }

  function DigitChar(d: int): (c: char)
    requires 0 <= d < 10
    ensures IsDigit(c)
  {
    (48 + d) as char
  }

  function DigitValue(c: char): (d: int)
    requires IsDigit(c)
    ensures 0 <= d < 10
  {
    c as int - 48
  }

  /** Python's `str(n)` for a non-negative integer. */
  function DecimalString(n: nat): (r: string)
    ensures 1 <= |r|
    ensures forall i :: 0 <= i < |r| ==> IsDigit(r[i])
    ensures |r| > 1 ==> r[0] != '0'
    ensures n < 10 ==> |r| == 1
    ensures n < 100 ==> |r| <= 2
    ensures n < 1000 ==> |r| <= 3
  {
    if n < 10 then [DigitChar(n)]
    else
      var high := DecimalString(n / 10);
      assert n < 100 ==> n / 10 < 10;
      assert n < 1000 ==> n / 10 < 100;
      var r := high + [DigitChar(n % 10)];
      assert forall i :: 0 <= i < |high| ==> r[i] == high[i];
      r
  }

  /** The value of a string of decimal digits. */
  function ParseDecimal(s: string): nat
    requires forall i :: 0 <= i < |s| ==> IsDigit(s[i])
  {
    if |s| == 0 then 0 else ParseDecimal(s[..|s| - 1]) * 10 + DigitValue(s[|s| - 1])
  }

  /** Reading the decimal form back gives the number it was made from. */
  lemma {:induction false} DecimalRoundTrip(n: nat)
    ensures ParseDecimal(DecimalString(n)) == n
  {
    var r := DecimalString(n);
    if n >= 10 {
      DecimalRoundTrip(n / 10);
      assert r[..|r| - 1] == DecimalString(n / 10);
    }
  }

  /** The URL's file segment occupies `url[i..j]`: after the last `/`, up to the first `?` after that. */
  predicate SegmentAt(url: string, i: int, j: int)
  {
    && 0 <= i <= j <= |url|
    && (i == 0 || url[i - 1] == '/')
    && (forall m :: i <= m < |url| ==> url[m] != '/')
    && (forall m :: i <= m < j ==> url[m] != '?')
    && (j == |url| || url[j] == '?')
  }

  /** The filename of main.py:96 for an image at `url` and a random draw `n`. */
  function ImageFilename(url: string, n: Suffix): string
  {
    BeforeFirstQuery(AfterLastSlash(url)) + DecimalString(n) + ".png"
  }

  /**
   * The saved name is the URL's last segment cut before its first `?`, then the
   * draw's digits, then ".png"; it has no `/`, so it names a file in the working
   * directory, and no `?`.
   */
  lemma ImageFilenameShape(url: string, n: Suffix)
    ensures exists i, j :: SegmentAt(url, i, j) && ImageFilename(url, n) == url[i..j] + DecimalString(n) + ".png"
    ensures forall k :: 0 <= k < |ImageFilename(url, n)| ==> ImageFilename(url, n)[k] != '/' && ImageFilename(url, n)[k] != '?'
  {
    var tail := AfterLastSlash(url);
    var stem := BeforeFirstQuery(tail);
    var digits := DecimalString(n);
    var i := |url| - |tail|;
    var j := i + |stem|;
    assert url[i..j] == stem by {
      assert url[i..] == tail;
    }
    assert SegmentAt(url, i, j) by {
      assert forall m :: i <= m < |url| ==> url[m] == tail[m - i];
    }
    var r := stem + digits + ".png";
    forall k | 0 <= k < |r|
      ensures r[k] != '/' && r[k] != '?'
    {
      if k < |stem| {
        assert r[k] == stem[k] == tail[k];
      } else if k < |stem| + |digits| {
        assert r[k] == digits[k - |stem|];
      }
    }
  }
}
