/**
 * Text helpers shared by the model: decimal rendering and parsing (Python's
 * `str(int)`, `:07d` and the numeric `strftime` fields), and the string
 * operations the source uses (`str.split`, `str.join`, `in`, `endswith`,
 * `replace`, `upper`, `capitalize`).
 */
module Text {
  import opened Common

  function Pow10(k: nat): (r: nat)
    ensures r >= 1
  {
    if k == 0 then 1 else 10 * Pow10(k - 1)
  }

  predicate IsDigit(c: char) {
    '0' <= c <= '9'
  }

  predicate AllDigits(s: string) {
    forall i :: 0 <= i < |s| ==> IsDigit(s[i])
  }

  function DigitValue(c: char): nat
    requires IsDigit(c)
  {
    c as int - '0' as int
  }

  function DigitChar(d: nat): (c: char)
    requires d < 10
    ensures IsDigit(c) && DigitValue(c) == d
  {
    ('0' as int + d) as char
  }

  /** The number a run of decimal digits denotes (most significant first). */
  function ParseDigits(s: string): nat
    requires AllDigits(s)
  {
    if s == [] then 0 else 10 * ParseDigits(s[..|s| - 1]) + DigitValue(s[|s| - 1])
  }

  /** Python's `str(n)` for a natural number: no leading zeros. */
  function Decimal(n: nat): (s: string)
    ensures 1 <= |s| && AllDigits(s)
    ensures ParseDigits(s) == n
  {
    if n < 10 then [DigitChar(n)]
    else
      var front := Decimal(n / 10);
      var s := front + [DigitChar(n % 10)];
      assert s[..|s| - 1] == front;
      s
  }

  /** Two runs of digits of the same length that denote the same number are the same text. */
  lemma {:induction false} DigitsDetermined(s: string, t: string)
    requires AllDigits(s) && AllDigits(t) && |s| == |t| && ParseDigits(s) == ParseDigits(t)
    ensures s == t
  {
    if s != [] {
      var n := |s| - 1;
      var ps, pt := s[..n], t[..n];
      assert AllDigits(ps) && AllDigits(pt);
      assert DigitValue(s[n]) < 10 && DigitValue(t[n]) < 10;
      assert 10 * ParseDigits(ps) + DigitValue(s[n]) == 10 * ParseDigits(pt) + DigitValue(t[n]);
      DigitsDetermined(ps, pt);
      assert s[n] == t[n];
      assert s == ps + [s[n]] && t == pt + [t[n]];
    }
  }

  /** Python's `str(i)` for any integer. */
  function IntText(i: int): (s: string)
    ensures |s| >= 1
    ensures i >= 0 ==> AllDigits(s)
    ensures i < 0 ==> s[0] == '-' && AllDigits(s[1..])
  {
    if i >= 0 then Decimal(i) else "-" + Decimal(-i)
  }

  /**
   * `n` written with exactly `w` digits, zero-padded on the left: Python's
   * `f"{n:0wd}"` and the `%d`/`%m`/`%H`/`%M`/`%S` fields of `strftime`, for a
   * value that fits in `w` digits.
   */
  function ZeroPadded(n: nat, w: nat): (s: string)
    requires 1 <= w && n < Pow10(w)
    ensures |s| == w && AllDigits(s)
    ensures ParseDigits(s) == n
  {
    if w == 1 then [DigitChar(n)]
    else
      var front := ZeroPadded(n / 10, w - 1);
      var s := front + [DigitChar(n % 10)];
      assert s[..|s| - 1] == front;
      s
  }

  lemma {:induction false} DecimalLength(n: nat, k: nat)
    requires 1 <= k && Pow10(k - 1) <= n < Pow10(k)
    ensures |Decimal(n)| == k
    decreases k
  {
    if k > 1 {
      assert n >= 10;
      DecimalLength(n / 10, k - 1);
    }
  }

  // ---------------------------------------------------------------------
  // Substrings, split and join
  // ---------------------------------------------------------------------

  predicate OccursAt(s: string, t: string, i: nat) {
    i + |t| <= |s| && s[i..i + |t|] == t
  }

  /** The leftmost occurrence of `t` in `s`, as `str.find` reports it. */
  function Find(s: string, t: string): (r: Option<nat>)
    requires |t| > 0
    ensures r.Some? ==> OccursAt(s, t, r.value)
    ensures r.Some? ==> forall j: nat :: j < r.value ==> !OccursAt(s, t, j)
    ensures r.None? ==> forall j: nat :: !OccursAt(s, t, j)
    decreases |s|
  {
    if |s| < |t| then None
    else if s[..|t|] == t then Some(0)
    else
      var rest := Find(s[1..], t);
      assert !OccursAt(s, t, 0) by { assert s[0..|t|] == s[..|t|]; }
      assert forall j: nat :: 0 < j ==> OccursAt(s, t, j) == OccursAt(s[1..], t, j - 1) by {
        forall j: nat | 0 < j ensures OccursAt(s, t, j) == OccursAt(s[1..], t, j - 1) {
          OccursShift(s, t, j - 1);
        }
      }
      match rest
      case None => None
      case Some(i) => Some(i + 1)
  }

  /** Dropping the first character moves every occurrence one place left. */
  lemma OccursShift(s: string, t: string, j: nat)
    requires |s| >= 1
    ensures OccursAt(s, t, j + 1) == OccursAt(s[1..], t, j)
  {
    if j + 1 + |t| <= |s| {
      assert s[1..][j..j + |t|] == s[j + 1..j + 1 + |t|];
    }
  }

  /** Python's `t in s` for a non-empty `t`. */
  predicate Contains(s: string, t: string)
    requires |t| > 0
  {
    Find(s, t).Some?
  }

  lemma ContainsIffOccurs(s: string, t: string)
    requires |t| > 0
    ensures Contains(s, t) <==> exists i: nat :: OccursAt(s, t, i)
  {
  }

  /** Python's `s.split(sep)`: cut at each leftmost, non-overlapping `sep`. */
  function Split(s: string, sep: string): (parts: seq<string>)
    requires |sep| > 0
    ensures |parts| >= 1
    decreases |s|
  {
    match Find(s, sep)
    case None => [s]
    case Some(i) => [s[..i]] + Split(s[i + |sep|..], sep)
  }

  /** Python's `s.split(sep)[-1]`. */
  function LastPiece(s: string, sep: string): string
    requires |sep| > 0
  {
    var parts := Split(s, sep);
    parts[|parts| - 1]
  }

  /** `s.split(sep)[-1]` holds no `sep`: every occurrence was cut. */
  lemma {:induction false} LastPieceHasNoSeparator(s: string, sep: string)
    requires |sep| > 0
    ensures Find(LastPiece(s, sep), sep).None?
    decreases |s|
  {
    match Find(s, sep)
    case None =>
    case Some(i) =>
      LastPieceSkip(s, sep, i);
      LastPieceHasNoSeparator(s[i + |sep|..], sep);
  }

  /**
   * `s.split(sep)[-1]` is the tail of `s` after its last cut: the whole of
   * `s` when nothing was cut, otherwise what follows an occurrence of `sep`.
   */
  lemma {:induction false} LastPieceIsTail(s: string, sep: string)
    requires |sep| > 0
    ensures var r := LastPiece(s, sep);
      && EndsWith(s, r)
      && (|r| == |s| || (|r| + |sep| <= |s| && OccursAt(s, sep, |s| - |r| - |sep|)))
    decreases |s|
  {
    match Find(s, sep)
    case None =>
    case Some(i) =>
      var rest := s[i + |sep|..];
      LastPieceSkip(s, sep, i);
      LastPieceIsTail(rest, sep);
      TailAfterOccurrence(s, sep, i, LastPiece(rest, sep));
  }

  /** A tail of what follows an occurrence of `sep` is a tail of `s` that follows an occurrence. */
  lemma TailAfterOccurrence(s: string, sep: string, i: nat, r: string)
    requires OccursAt(s, sep, i)
    requires var rest := s[i + |sep|..];
      && EndsWith(rest, r)
      && (|r| == |rest| || (|r| + |sep| <= |rest| && OccursAt(rest, sep, |rest| - |r| - |sep|)))
    ensures EndsWith(s, r) && |r| + |sep| <= |s| && OccursAt(s, sep, |s| - |r| - |sep|)
  {
    var rest := s[i + |sep|..];
    assert s[|s| - |r|..] == rest[|rest| - |r|..];
    if |r| < |rest| {
      var j := |rest| - |r| - |sep|;
      assert s[i + |sep| + j..i + |sep| + j + |sep|] == rest[j..j + |sep|];
    }
  }

  /** Python's `sep.join(parts)`. */
  function Join(sep: string, parts: seq<string>): string {
    if |parts| == 0 then ""
    else if |parts| == 1 then parts[0]
    else parts[0] + sep + Join(sep, parts[1..])
  }

  /** Splitting and joining back with the same separator gives the original. */
  lemma {:induction false} JoinSplit(s: string, sep: string)
    requires |sep| > 0
    ensures Join(sep, Split(s, sep)) == s
    decreases |s|
  {
    match Find(s, sep)
    case None =>
    case Some(i) =>
      var rest := s[i + |sep|..];
      JoinSplit(rest, sep);
      JoinCons(sep, s[..i], Split(rest, sep));
      SliceAround(s, i, |sep|);
  }

  lemma JoinCons(sep: string, head: string, tail: seq<string>)
    requires |tail| >= 1
    ensures Join(sep, [head] + tail) == head + sep + Join(sep, tail)
  {
    assert ([head] + tail)[1..] == tail;
  }

  lemma SliceAround(s: string, i: nat, k: nat)
    requires i + k <= |s|
    ensures s == s[..i] + s[i..i + k] + s[i + k..]
  {
  }

  /** A single-character separator occurs in `s` exactly when the character does. */
  lemma FindSingleChar(s: string, c: char)
    ensures Find(s, [c]).None? <==> forall i :: 0 <= i < |s| ==> s[i] != c
  {
    if Find(s, [c]).None? {
      forall i | 0 <= i < |s| ensures s[i] != c {
        assert !OccursAt(s, [c], i);
        assert s[i..i + 1] == [s[i]];
      }
    } else {
      var k := Find(s, [c]).value;
      assert s[k..k + 1] == [s[k]];
    }
  }

  /** An occurrence with none to its left is the one `Find` reports. */
  lemma FindIs(s: string, t: string, k: nat)
    requires |t| > 0 && OccursAt(s, t, k)
    requires forall j: nat :: j < k ==> !OccursAt(s, t, j)
    ensures Find(s, t) == Some(k)
  {
  }

  /** The leftmost occurrence inside `p` stays the leftmost after appending. */
  lemma FindExtend(p: string, x: string, t: string)
    requires |t| > 0 && Find(p, t).Some?
    ensures Find(p + x, t) == Find(p, t)
  {
    var i := Find(p, t).value;
    var s := p + x;
    assert s[i..i + |t|] == p[i..i + |t|];
    forall j: nat | j < i ensures !OccursAt(s, t, j) {
      assert !OccursAt(p, t, j);
      assert s[j..j + |t|] == p[j..j + |t|];
    }
    FindIs(s, t, i);
  }

  /**
   * `"__"` right after a text that has none and does not end in `'_'` is the
   * leftmost `"__"`.
   */
  lemma FindDoubleUnderscoreAfter(p: string, f: string)
    requires p == [] || p[|p| - 1] != '_'
    requires Find(p, "__").None?
    ensures Find(p + "__" + f, "__") == Some(|p|)
  {
    var s := p + "__" + f;
    assert s[|p|..|p| + 2] == "__";
    forall j: nat | j < |p| ensures !OccursAt(s, "__", j) {
      if j + 2 <= |p| {
        assert !OccursAt(p, "__", j);
        assert s[j..j + 2] == p[j..j + 2];
      } else {
        assert s[j..j + 2][0] == s[j] == p[|p| - 1];
      }
    }
    FindIs(s, "__", |p|);
  }

  /**
   * Whatever comes before the last `"__"`, `split('__')[-1]` recovers a tail
   * that has no `"__"` of its own, provided the head does not end in `'_'`.
   */
  lemma {:induction false} LastPieceAfterDoubleUnderscore(p: string, f: string)
    requires p == [] || p[|p| - 1] != '_'
    requires Find(f, "__").None?
    ensures LastPiece(p + "__" + f, "__") == f
    decreases |p|
  {
    var s := p + "__" + f;
    match Find(p, "__")
    case None =>
      FindDoubleUnderscoreAfter(p, f);
      LastPieceSkip(s, "__", |p|);
      assert s[|p| + 2..] == f;
    case Some(i) =>
      var q := p[i + 2..];
      AppendAround(p, i + 2, "__", f);
      FindExtend(p, "__" + f, "__");
      LastPieceSkip(s, "__", i);
      LastPieceAfterDoubleUnderscore(q, f);
  }

  /** Appending to `p` and then dropping its first `k` elements appends to the rest of `p`. */
  lemma AppendAround(p: string, k: nat, x: string, y: string)
    requires k <= |p|
    ensures p + x + y == p + (x + y)
    ensures (p + x + y)[k..] == p[k..] + x + y
    ensures k < |p| ==> p[k..][|p| - k - 1] == p[|p| - 1]
  {
  }

  /** The last piece lies after the first separator. */
  lemma LastPieceSkip(s: string, sep: string, i: nat)
    requires |sep| > 0 && Find(s, sep) == Some(i)
    ensures LastPiece(s, sep) == LastPiece(s[i + |sep|..], sep)
  {
    var tail := Split(s[i + |sep|..], sep);
    var parts := Split(s, sep);
    assert parts == [s[..i]] + tail;
    assert parts[|parts| - 1] == tail[|tail| - 1];
  }

  // ---------------------------------------------------------------------
  // Character-level helpers
  // ---------------------------------------------------------------------

  /** Python's `s.endswith(suffix)`. */
  predicate EndsWith(s: string, suffix: string) {
    |suffix| <= |s| && s[|s| - |suffix|..] == suffix
  }

  /** Python's `s.replace(a, b)` for single characters. */
  function ReplaceChar(s: string, a: char, b: char): (r: string)
    ensures |r| == |s|
    ensures forall i :: 0 <= i < |s| ==> r[i] == (if s[i] == a then b else s[i])
  {
    if s == [] then [] else [if s[0] == a then b else s[0]] + ReplaceChar(s[1..], a, b)
  }

  /** Replacing `a` by `b` loses nothing when `b` did not occur before. */
  lemma ReplaceCharInjective(s: string, t: string, a: char, b: char)
    requires forall i :: 0 <= i < |s| ==> s[i] != b
    requires forall i :: 0 <= i < |t| ==> t[i] != b
    requires ReplaceChar(s, a, b) == ReplaceChar(t, a, b)
    ensures s == t
  {
    var rs, rt := ReplaceChar(s, a, b), ReplaceChar(t, a, b);
    forall i | 0 <= i < |s| ensures s[i] == t[i] {
      assert rs[i] == rt[i];
    }
  }

  /** `str.upper()` on one character (ASCII letters only). */
  function UpperChar(c: char): char {
    if 'a' <= c <= 'z' then (c as int - 32) as char else c
  }

  /** `str.lower()` on one character (ASCII letters only). */
  function LowerChar(c: char): char {
    if 'A' <= c <= 'Z' then (c as int + 32) as char else c
  }

  function Upper(s: string): (r: string)
    ensures |r| == |s|
    ensures forall i :: 0 <= i < |s| ==> r[i] == UpperChar(s[i])
  {
    if s == [] then [] else [UpperChar(s[0])] + Upper(s[1..])
  }

  function Lower(s: string): (r: string)
    ensures |r| == |s|
    ensures forall i :: 0 <= i < |s| ==> r[i] == LowerChar(s[i])
  {
    if s == [] then [] else [LowerChar(s[0])] + Lower(s[1..])
  }

  /** Python's `str.capitalize()`: first character upper, the rest lower. */
  function Capitalize(s: string): string {
    if s == [] then [] else [UpperChar(s[0])] + Lower(s[1..])
  }
}
