/** String helpers with the meaning JavaScript gives them: `trim`, `includes`,
    `split` and `join` with a string separator, `toLowerCase` (on the letters
    the model covers), `Number.prototype.toString` on naturals and `padStart`.
    Strings are sequences of characters; see README.md for how this differs
    from JavaScript's UTF-16 code units. */
module Text {

  // ---------------------------------------------------------------------------
  // Whitespace and trimming
  // ---------------------------------------------------------------------------

  /** The characters `String.prototype.trim` removes: ECMAScript's WhiteSpace
      (tab, vertical tab, form feed, space, no-break space, byte-order mark
      and the space separators) and LineTerminator (LF, CR, U+2028, U+2029). */
  predicate IsWhitespace(c: char) {
    || c == '\t' || c == '\n' || c == '\U{000B}' || c == '\U{000C}' || c == '\r'
    || c == ' ' || c == '\U{00A0}' || c == '\U{1680}'
    || ('\U{2000}' <= c <= '\U{200A}')
    || c == '\U{2028}' || c == '\U{2029}' || c == '\U{202F}' || c == '\U{205F}'
    || c == '\U{3000}' || c == '\U{FEFF}'
  }

  predicate AllWhitespace(s: string) {
    forall i :: 0 <= i < |s| ==> IsWhitespace(s[i])
  }

  /** Every character of `s` from index `lo` up to `hi` is whitespace. */
  predicate WhitespaceBetween(s: string, lo: int, hi: int)
    requires 0 <= lo && hi <= |s|
  {
    forall j :: lo <= j < hi ==> IsWhitespace(s[j])
  }

  lemma SliceWhitespace(s: string, lo: int, hi: int)
    requires 0 <= lo <= hi <= |s|
    ensures AllWhitespace(s[lo..hi]) <==> WhitespaceBetween(s, lo, hi)
  {
    var u := s[lo..hi];
    assert forall j :: lo <= j < hi ==> s[j] == u[j - lo];
  }

  /** Where the whitespace that starts at `i` ends: the first index at or
      after `i` that does not hold whitespace, or the length of `s`. */
  function LeadEnd(s: string, i: nat): (r: nat)
    requires i <= |s|
    ensures i <= r <= |s| && WhitespaceBetween(s, i, r)
    ensures r < |s| ==> !IsWhitespace(s[r])
    decreases |s| - i
  {
    if i < |s| && IsWhitespace(s[i]) then LeadEnd(s, i + 1) else i
  }

  /** Where the whitespace that ends at `j` starts, looking no further back
      than `lo`. */
  function TrailStart(s: string, lo: nat, j: nat): (r: nat)
    requires lo <= j <= |s|
    ensures lo <= r <= j && WhitespaceBetween(s, r, j)
    ensures r > lo ==> !IsWhitespace(s[r - 1])
    decreases j
  {
    if j > lo && IsWhitespace(s[j - 1]) then TrailStart(s, lo, j - 1) else j
  }

  /** `String.prototype.trim`: drops the leading whitespace, then the
      trailing whitespace. The result is empty exactly when the input is all
      whitespace. */
  function Trim(s: string): (r: string)
    ensures |r| <= |s|
    ensures |r| > 0 ==> !IsWhitespace(r[0]) && !IsWhitespace(r[|r| - 1])
    ensures r == "" <==> AllWhitespace(s)
  {
    var a := LeadEnd(s, 0);
    var b := TrailStart(s, a, |s|);
    assert AllWhitespace(s) ==> a == |s|;
    assert a == b ==> AllWhitespace(s);
    s[a..b]
  }

  /** `r` is the piece of `s` that starts at `i` and has only whitespace
      before and after it in `s`. */
  predicate IsTrimCut(s: string, r: string, i: int) {
    && 0 <= i <= |s| - |r| && r == s[i..i + |r|]
    && AllWhitespace(s[..i]) && AllWhitespace(s[i + |r|..])
  }

  /** What `trim` keeps is a contiguous piece of the input with only
      whitespace before and after it, and it neither starts nor ends with
      whitespace: the input with its whitespace ends cut off. */
  lemma TrimKeepsMiddle(s: string)
    ensures exists i :: IsTrimCut(s, Trim(s), i)
    ensures |Trim(s)| > 0 ==> !IsWhitespace(Trim(s)[0]) && !IsWhitespace(Trim(s)[|Trim(s)| - 1])
  {
    TrimCutAt(s);
  }

  /** The cut `trim` makes is where the leading whitespace ends. */
  lemma TrimCutAt(s: string)
    ensures IsTrimCut(s, Trim(s), LeadEnd(s, 0))
  {
    var a := LeadEnd(s, 0);
    var b := TrailStart(s, a, |s|);
    assert Trim(s) == s[a..b];
    SliceWhitespace(s, 0, a);
    SliceWhitespace(s, b, |s|);
    assert s[..a] == s[0..a] && s[b..] == s[b..|s|];
  }

  /** The converse: a piece with whitespace around it and none at its own
      ends is what `trim` keeps. Together with TrimKeepsMiddle this pins
      `trim` down completely. */
  lemma TrimUnique(s: string, r: string, i: int)
    requires IsTrimCut(s, r, i)
    requires |r| > 0 ==> !IsWhitespace(r[0]) && !IsWhitespace(r[|r| - 1])
    ensures Trim(s) == r
  {
    var e := i + |r|;
    assert s[..i] == s[0..i] && s[e..] == s[e..|s|];
    SliceWhitespace(s, 0, i);
    SliceWhitespace(s, e, |s|);
    if |r| == 0 {
      assert AllWhitespace(s);
    } else {
      assert s[i] == r[0] && s[e - 1] == r[|r| - 1];
      var a := LeadEnd(s, 0);
      assert a == i;
      var b := TrailStart(s, a, |s|);
      assert b == e;
    }
  }

  /** The source's `!x.trim()` / `x.trim() === ''` test. */
  predicate IsBlank(s: string) {
    Trim(s) == ""
  }

  /** Whitespace padding on either side does not change the trimmed text. */
  lemma TrimIgnoresPadding(w: string, p: string, v: string)
    requires AllWhitespace(w) && AllWhitespace(v)
    ensures Trim(w + p + v) == Trim(p)
  {
    var r, k := Trim(p), LeadEnd(p, 0);
    TrimCutAt(p);
    PaddedCut(w, p, v, r, k);
    TrimUnique(w + p + v, r, |w| + k);
  }

  /** A cut of `p` moves, with its whitespace, into a whitespace-padded `p`. */
  lemma PaddedCut(w: string, p: string, v: string, r: string, k: int)
    requires AllWhitespace(w) && AllWhitespace(v) && IsTrimCut(p, r, k)
    ensures IsTrimCut(w + p + v, r, |w| + k)
  {
    var s := w + p + v;
    var e := k + |r|;
    assert p[..k] == p[0..k] && p[e..] == p[e..|p|];
    SliceWhitespace(p, 0, k);
    SliceWhitespace(p, e, |p|);
    assert forall j :: 0 <= j < |w| ==> s[j] == w[j];
    assert forall j :: 0 <= j < |p| ==> s[|w| + j] == p[j];
    assert forall j :: 0 <= j < |v| ==> s[|w| + |p| + j] == v[j];
    assert WhitespaceBetween(s, 0, |w| + k) by {
      forall j | 0 <= j < |w| + k ensures IsWhitespace(s[j]) {
        if j >= |w| {
          assert s[j] == p[j - |w|];
        }
      }
    }
    assert WhitespaceBetween(s, |w| + e, |s|) by {
      forall j | |w| + e <= j < |s| ensures IsWhitespace(s[j]) {
        if j < |w| + |p| {
          assert s[j] == p[j - |w|];
        } else {
          assert s[j] == v[j - |w| - |p|];
        }
      }
    }
    assert r == s[|w| + k..|w| + e] by {
      forall j | 0 <= j < |r| ensures r[j] == s[|w| + k + j] {
        assert r[j] == p[k + j];
      }
    }
    SliceWhitespace(s, 0, |w| + k);
    SliceWhitespace(s, |w| + e, |s|);
    assert s[..|w| + k] == s[0..|w| + k] && s[|w| + e..] == s[|w| + e..|s|];
  }

  lemma Associative<T>(a: seq<T>, b: seq<T>, c: seq<T>)
    ensures a + b + c == a + (b + c)
  {
  }

  // ---------------------------------------------------------------------------
  // Substring search
  // ---------------------------------------------------------------------------

  /** `pat` occurs in `s` starting at index `i`. */
  predicate OccursAt(s: string, pat: string, i: int) {
    0 <= i <= |s| - |pat| && s[i..i + |pat|] == pat
  }

  /** `String.prototype.includes`. */
  predicate Contains(s: string, pat: string)
    decreases |s|
  {
    pat <= s || (|s| > 0 && Contains(s[1..], pat))
  }

  /** `Contains` holds exactly when the pattern occurs at some index. */
  lemma {:induction false} ContainsIff(s: string, pat: string)
    ensures Contains(s, pat) <==> exists i :: OccursAt(s, pat, i)
    decreases |s|
  {
    if pat <= s {
      assert OccursAt(s, pat, 0);
    } else if |s| > 0 {
      ContainsIff(s[1..], pat);
      if Contains(s[1..], pat) {
        var i :| OccursAt(s[1..], pat, i);
        OccursShift(s, pat, i);
      } else {
        assert !OccursAt(s, pat, 0);
        forall i | 0 < i <= |s| - |pat| ensures !OccursAt(s, pat, i) {
          OccursShift(s, pat, i - 1);
        }
      }
    }
  }

  /** An occurrence in the tail is an occurrence one place further on. */
  lemma OccursShift(s: string, pat: string, i: int)
    requires |s| > 0 && 0 <= i
    ensures OccursAt(s[1..], pat, i) <==> OccursAt(s, pat, i + 1)
  {
    if 0 <= i <= |s| - 1 - |pat| {
      DropSlice(s, i, |pat|);
    }
  }

  lemma DropSlice<T>(s: seq<T>, i: nat, n: nat)
    requires 1 + i + n <= |s|
    ensures s[1..][i..i + n] == s[i + 1..i + 1 + n]
  {
  }

  /** A text that lacks the pattern's first character cannot contain it. */
  lemma MissingFirstChar(s: string, pat: string)
    requires |pat| > 0 && pat[0] !in s
    ensures !Contains(s, pat)
  {
    ContainsIff(s, pat);
    forall i | 0 <= i <= |s| - |pat| ensures !OccursAt(s, pat, i) {
      assert s[i..i + |pat|][0] == s[i];
    }
  }

  /** Any text occurs inside a concatenation that has it as the middle piece. */
  lemma ContainsMiddle(a: string, b: string, c: string)
    ensures Contains(a + b + c, b)
  {
    assert (a + b + c)[|a|..|a| + |b|] == b;
    assert OccursAt(a + b + c, b, |a|);
    ContainsIff(a + b + c, b);
  }

  /** The leftmost occurrence of `pat` at or after `from`, or -1 (the
      `indexOf` search that `split` performs). */
  function IndexFrom(s: string, pat: string, from: nat): (r: int)
    requires from <= |s|
    ensures r == -1 || (from <= r && OccursAt(s, pat, r))
    ensures forall j :: from <= j && (r == -1 || j < r) ==> !OccursAt(s, pat, j)
    decreases |s| - from
  {
    if from + |pat| > |s| then -1
    else if s[from..from + |pat|] == pat then from
    else IndexFrom(s, pat, from + 1)
  }

  /** A prefix that ends before the first occurrence would be complete does
      not contain the pattern: with no occurrence starting before `k`, the
      first `m < k + |pat|` characters hold none. */
  lemma PrefixBeforeFirstOccurrence(s: string, pat: string, k: nat, m: nat)
    requires |pat| > 0 && m <= |s| && m < k + |pat|
    requires forall j :: 0 <= j < k ==> !OccursAt(s, pat, j)
    ensures !Contains(s[..m], pat)
  {
    ContainsIff(s[..m], pat);
    forall j | 0 <= j <= m - |pat| ensures !OccursAt(s[..m], pat, j) {
      assert s[..m][j..j + |pat|] == s[j..j + |pat|];
      assert !OccursAt(s, pat, j);
    }
  }

  // ---------------------------------------------------------------------------
  // split / join
  // ---------------------------------------------------------------------------

  /** `Array.prototype.join(sep)`: the pieces with `sep` between neighbours. */
  function Join(parts: seq<string>, sep: string): string
    decreases |parts|
  {
    if |parts| == 0 then ""
    else if |parts| == 1 then parts[0]
    else parts[0] + sep + Join(parts[1..], sep)
  }

  /** `String.prototype.split(sep)` for a non-empty string separator: cut at
      every leftmost, non-overlapping occurrence. Joining the pieces back gives
      the input, and no piece contains the separator. Each cut is at the
      leftmost occurrence: no occurrence starts inside a piece and runs into
      the separator that follows it. */
  function Split(s: string, sep: string): (r: seq<string>)
    requires |sep| > 0
    ensures |r| >= 1
    ensures Join(r, sep) == s
    ensures forall i :: 0 <= i < |r| ==> !Contains(r[i], sep)
    ensures forall i :: 0 <= i < |r| - 1 ==> !Contains(r[i] + sep[..|sep| - 1], sep)
    decreases |s|
  {
    var k := IndexFrom(s, sep, 0);
    if k < 0 then
      PrefixBeforeFirstOccurrence(s, sep, |s|, |s|);
      assert s[..|s|] == s;
      [s]
    else
      SplitStep(s, sep, k);
      var rest := Split(s[k + |sep|..], sep);
      var r := [s[..k]] + rest;
      assert r[1..] == rest;
      r
  }

  /** The facts about one cut at the first occurrence `k` that `Split` needs. */
  lemma SplitStep(s: string, sep: string, k: nat)
    requires |sep| > 0 && OccursAt(s, sep, k)
    requires forall j :: 0 <= j < k ==> !OccursAt(s, sep, j)
    ensures s == s[..k] + sep + s[k + |sep|..]
    ensures !Contains(s[..k], sep)
    ensures !Contains(s[..k] + sep[..|sep| - 1], sep)
  {
    PrefixBeforeFirstOccurrence(s, sep, k, k);
    CutIsLeftmost(s, sep, k);
    ThreePieces(s, k, k + |sep|);
  }

  lemma ThreePieces<T>(s: seq<T>, a: nat, b: nat)
    requires a <= b <= |s|
    ensures s == s[..a] + s[a..b] + s[b..]
  {
  }

  lemma CutIsLeftmost(s: string, sep: string, k: nat)
    requires |sep| > 0 && OccursAt(s, sep, k)
    requires forall j :: 0 <= j < k ==> !OccursAt(s, sep, j)
    ensures !Contains(s[..k] + sep[..|sep| - 1], sep)
  {
    var m := k + |sep| - 1;
    PrefixBeforeFirstOccurrence(s, sep, k, m);
    assert s[..m] == s[..k] + s[k..m];
    assert s[k..m] == s[k..k + |sep|][..|sep| - 1];
  }

  /** With no separator in the text, `split` returns the whole text as one piece. */
  lemma SplitWithoutSeparator(s: string, sep: string)
    requires |sep| > 0 && !Contains(s, sep)
    ensures Split(s, sep) == [s]
  {
    ContainsIff(s, sep);
  }

  /** `split` stops at the first separator: text before it becomes the first
      piece. The last character of `x` must not occur in the separator, so that
      no occurrence can start inside `x` and run into the separator after it. */
  lemma SplitAtFirst(x: string, sep: string, y: string)
    requires |sep| > 0 && !Contains(x, sep)
    requires |x| == 0 || x[|x| - 1] !in sep
    ensures Split(x + sep + y, sep) == [x] + Split(y, sep)
  {
    var s := x + sep + y;
    ContainsIff(x, sep);
    assert s[|x|..|x| + |sep|] == sep;
    assert OccursAt(s, sep, |x|);
    forall j | 0 <= j < |x| ensures !OccursAt(s, sep, j) {
      if j + |sep| <= |x| {
        assert s[j..j + |sep|] == x[j..j + |sep|];
        assert !OccursAt(x, sep, j);
      } else {
        var window := s[j..j + |sep|];
        assert window[|x| - 1 - j] == x[|x| - 1];
        assert x[|x| - 1] in window;
      }
    }
    var k := IndexFrom(s, sep, 0);
    assert k == |x|;
    assert s[..k] == x;
    assert s[k + |sep|..] == y;
  }

  /** Padding made of characters the separator never uses cannot complete an
      occurrence of it: only an occurrence inside `p` could exist. */
  lemma NoSeparatorAcrossPadding(w: string, p: string, v: string, sep: string)
    requires |sep| > 0 && !Contains(p, sep)
    requires forall i :: 0 <= i < |w| ==> w[i] !in sep
    requires forall i :: 0 <= i < |v| ==> v[i] !in sep
    ensures !Contains(w + p + v, sep)
  {
    var s := w + p + v;
    forall i | 0 <= i <= |s| - |sep| ensures !OccursAt(s, sep, i) {
      if i < |w| {
        NoOccurrenceAt(s, sep, i, 0);
      } else if i + |sep| > |w| + |p| {
        NoOccurrenceAt(s, sep, i, |sep| - 1);
      } else {
        NoOccurrenceInMiddle(w, p, v, sep, i);
      }
    }
    ContainsIff(s, sep);
  }

  /** An occurrence lying inside `p` would be one in `p` itself. */
  lemma NoOccurrenceInMiddle(w: string, p: string, v: string, sep: string, i: int)
    requires !Contains(p, sep) && |w| <= i && i + |sep| <= |w| + |p|
    ensures !OccursAt(w + p + v, sep, i)
  {
    ContainsIff(p, sep);
    MiddleSlice(w, p, v, i - |w|, i - |w| + |sep|);
    assert !OccursAt(p, sep, i - |w|);
  }

  /** An occurrence cannot start at `i` when its `k`-th character would be one
      the pattern does not use. */
  lemma NoOccurrenceAt(s: string, pat: string, i: int, k: int)
    requires 0 <= i && 0 <= k < |pat| && i + k < |s| && s[i + k] !in pat
    ensures !OccursAt(s, pat, i)
  {
    if OccursAt(s, pat, i) {
      OccurrenceChar(s, pat, i, k);
    }
  }

  lemma MiddleSlice<T>(w: seq<T>, p: seq<T>, v: seq<T>, a: nat, b: nat)
    requires a <= b <= |p|
    ensures (w + p + v)[|w| + a..|w| + b] == p[a..b]
  {
  }

  /** Every character of an occurrence is a character of the pattern. */
  lemma OccurrenceChar(s: string, pat: string, i: int, k: int)
    requires OccursAt(s, pat, i) && 0 <= k < |pat|
    ensures s[i + k] in pat
  {
    assert s[i..i + |pat|][k] == s[i + k];
  }

  // ---------------------------------------------------------------------------
  // Case, decimal digits and padding
  // ---------------------------------------------------------------------------

  /** The capitals the model lower-cases: ASCII `A`..`Z` and the Latin-1
      capitals U+00C0..U+00DE except U+00D7, the multiplication sign. */
  predicate IsCapital(c: char) {
    'A' <= c <= 'Z' || ('\U{00C0}' <= c <= '\U{00DE}' && c != '\U{00D7}')
  }

  /** `toLowerCase` on one character: a capital becomes its small letter, 32
      code points further on; other characters are kept. */
  function LowerChar(c: char): char {
    if IsCapital(c) then (c as int + 32) as char else c
  }

  /** `String.prototype.toLowerCase`: no capital is left, every capital is
      replaced by its small letter in place, and everything else is kept. */
  function ToLower(s: string): (r: string)
    ensures |r| == |s|
    ensures forall i :: 0 <= i < |r| ==> !IsCapital(r[i])
    ensures forall i :: 0 <= i < |s| && !IsCapital(s[i]) ==> r[i] == s[i]
    ensures forall i :: 0 <= i < |s| && IsCapital(s[i]) ==> r[i] as int == s[i] as int + 32
  {
    seq(|s|, i requires 0 <= i < |s| => LowerChar(s[i]))
  }

  /** Lower-casing works character by character, so it distributes over
      concatenation. */
  lemma ToLowerConcat(a: string, w: string, c: string)
    ensures ToLower(a + w + c) == ToLower(a) + ToLower(w) + ToLower(c)
  {
    var x, y := ToLower(a + w + c), ToLower(a) + ToLower(w) + ToLower(c);
    assert |x| == |y|;
    forall i | 0 <= i < |x|
      ensures x[i] == y[i]
    {
      if i < |a| {
        assert (a + w + c)[i] == a[i];
      } else if i < |a| + |w| {
        assert (a + w + c)[i] == w[i - |a|];
      } else {
        assert (a + w + c)[i] == c[i - |a| - |w|];
      }
    }
  }

  /** Lower-casing twice is lower-casing once. */
  lemma ToLowerIdempotent(s: string)
    ensures ToLower(ToLower(s)) == ToLower(s)
  {
  }

  function DigitChar(d: nat): char
    requires d < 10
  {
    "0123456789"[d]
  }

  /** `Number.prototype.toString()` for a natural number: its decimal digits,
      no leading zeros. */
  function NatToString(n: nat): (r: string)
    ensures 1 <= |r|
    ensures forall i :: 0 <= i < |r| ==> '0' <= r[i] <= '9'
    ensures |r| == 1 <==> n < 10
    ensures |r| == 2 <==> 10 <= n < 100
    decreases n
  {
    if n < 10 then [DigitChar(n)] else NatToString(n / 10) + [DigitChar(n % 10)]
  }

  /** Reads back a string of decimal digits. */
  function DecimalValue(s: string): nat
    requires forall i :: 0 <= i < |s| ==> '0' <= s[i] <= '9'
  {
    if |s| == 0 then 0
    else 10 * DecimalValue(s[..|s| - 1]) + (s[|s| - 1] as int - '0' as int)
  }

  /** `NatToString` loses nothing: reading its digits back gives the number. */
  lemma {:induction false} NatToStringRoundTrip(n: nat)
    ensures DecimalValue(NatToString(n)) == n
    decreases n
  {
    var r := NatToString(n);
    if n >= 10 {
      NatToStringRoundTrip(n / 10);
      assert r[..|r| - 1] == NatToString(n / 10);
    }
  }

  /** Leading zeros do not change the value of a digit string. */
  lemma {:induction false} DecimalLeadingZeros(k: nat, s: string)
    requires forall i :: 0 <= i < |s| ==> '0' <= s[i] <= '9'
    ensures forall i :: 0 <= i < |Repeat('0', k) + s| ==> '0' <= (Repeat('0', k) + s)[i] <= '9'
    ensures DecimalValue(Repeat('0', k) + s) == DecimalValue(s)
    decreases |s|
  {
    var z := Repeat('0', k);
    if |s| == 0 {
      assert z + s == z;
      ZerosValue(k);
    } else {
      var init := s[..|s| - 1];
      assert (z + s)[..|z + s| - 1] == z + init;
      DecimalLeadingZeros(k, init);
    }
  }

  lemma {:induction false} ZerosValue(k: nat)
    ensures DecimalValue(Repeat('0', k)) == 0
    decreases k
  {
    if k > 0 {
      assert Repeat('0', k)[..k - 1] == Repeat('0', k - 1);
      ZerosValue(k - 1);
    }
  }

  function Repeat(c: char, n: nat): (r: string)
    ensures |r| == n
    ensures forall i :: 0 <= i < n ==> r[i] == c
  {
    seq(n, _ => c)
  }

  /** `String.prototype.padStart(width, fill)` with a one-character fill. */
  function PadStart(s: string, width: nat, fill: char): (r: string)
    ensures |s| >= width ==> r == s
    ensures |s| < width ==> |r| == width
    ensures r[|r| - |s|..] == s
    ensures forall i :: 0 <= i < |r| - |s| ==> r[i] == fill
  {
    if |s| >= width then s else Repeat(fill, width - |s|) + s
  }

  /** Padding a digit string with zeros keeps it a digit string of the same
      value. */
  lemma PadStartZerosValue(s: string, width: nat)
    requires forall i :: 0 <= i < |s| ==> '0' <= s[i] <= '9'
    ensures forall i :: 0 <= i < |PadStart(s, width, '0')| ==> '0' <= PadStart(s, width, '0')[i] <= '9'
    ensures DecimalValue(PadStart(s, width, '0')) == DecimalValue(s)
  {
    if |s| < width {
      DecimalLeadingZeros(width - |s|, s);
    }
  }
}
