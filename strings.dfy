/**
 * The string primitives the scanners are built from, over `seq<char>` with character
 * indices: Rust `str::find`, `str::contains`, `str::replace`, `starts_with`/`ends_with`,
 * ASCII case folding, `u64::to_string` and `u64::from_str`.
 */
module Strings {
  import opened Wrappers

  /** `p` occurs in `s` starting at index `i`. */
  predicate At(s: string, p: string, i: int) {
    0 <= i && i + |p| <= |s| && s[i..i + |p|] == p
  }

  predicate StartsWith(s: string, p: string) {
    At(s, p, 0)
  }

  predicate EndsWith(s: string, p: string) {
    |p| <= |s| && s[|s| - |p|..] == p
  }

  /** The first index at or after `from` where `p` occurs. */
  function FindFrom(s: string, p: string, from: nat): (r: Option<nat>)
    ensures r.Some? ==> from <= r.value && At(s, p, r.value)
    ensures r.Some? ==> forall j :: from <= j < r.value ==> !At(s, p, j)
    ensures r.None? ==> forall j :: from <= j ==> !At(s, p, j)
    decreases |s| - from
  {
    if from + |p| > |s| then None
    else if At(s, p, from) then Some(from)
    else FindFrom(s, p, from + 1)
  }

  /** Rust `str::find` with a string pattern (an empty pattern is found at 0). */
  function Find(s: string, p: string): (r: Option<nat>)
    ensures r.Some? ==> At(s, p, r.value) && forall j :: 0 <= j < r.value ==> !At(s, p, j)
    ensures r.None? <==> forall j :: !At(s, p, j)
  {
    FindFrom(s, p, 0)
  }

  /** The first occurrence of `p` in `s` starts at `i`. */
  predicate FirstAt(s: string, p: string, i: nat) {
    At(s, p, i) && forall j :: 0 <= j < i ==> !At(s, p, j)
  }

  /** `Find` returns exactly the first occurrence. */
  lemma FindFirstAt(s: string, p: string, i: nat)
    ensures Find(s, p) == Some(i) <==> FirstAt(s, p, i)
  {
    if FirstAt(s, p, i) {
      FindIsFirst(s, p, Some(i));
    }
  }

  /** `p` occurs at `i` exactly when it starts the suffix from `i`. */
  lemma AtSuffix(t: string, p: string, i: nat)
    requires i <= |t|
    ensures At(t, p, i) <==> |p| <= |t[i..]| && t[i..][..|p|] == p
  {
    if |p| <= |t[i..]| {
      assert t[i..][..|p|] == t[i..i + |p|];
    }
  }

  /** `key` then the character `q` occur at `i`. */
  lemma AtThenChar(t: string, i: nat, key: string, q: char)
    ensures At(t, key + [q], i) <==> At(t, key, i) && i + |key| < |t| && t[i + |key|] == q
  {
    if At(t, key, i) && i + |key| < |t| && t[i + |key|] == q {
      assert t[i..i + |key| + 1] == t[i..i + |key|] + [t[i + |key|]];
    }
    if At(t, key + [q], i) {
      assert t[i..i + |key|] == t[i..i + |key| + 1][..|key|];
    }
  }

  /** `key`, then `w`, then the character `q` occur at `i`. */
  lemma AtThenQuoted(t: string, i: nat, key: string, w: string, q: char)
    ensures At(t, key + w + [q], i) <==>
      At(t, key, i) && i + |key| + |w| < |t| && t[i + |key|..i + |key| + |w|] == w && t[i + |key| + |w|] == q
  {
    var n := |key| + |w| + 1;
    if At(t, key, i) && i + |key| + |w| < |t| && t[i + |key|..i + |key| + |w|] == w && t[i + |key| + |w|] == q {
      assert t[i..i + n] == t[i..i + |key|] + t[i + |key|..i + |key| + |w|] + [t[i + |key| + |w|]];
    }
    if At(t, key + w + [q], i) {
      var m := t[i..i + n];
      assert m == key + w + [q];
      forall idx | i <= idx < i + |key| ensures t[idx] == key[idx - i] {
        assert t[idx] == m[idx - i];
      }
      forall idx | i + |key| <= idx < i + |key| + |w| ensures t[idx] == w[idx - i - |key|] {
        assert t[idx] == m[idx - i];
      }
      assert t[i + |key| + |w|] == m[n - 1];
    }
  }

  /** The first `q` in `u` closes a run free of `q`. */
  lemma CharFound(u: string, q: char)
    requires Find(u, [q]).Some?
    ensures var e := Find(u, [q]).value; e < |u| && u[e] == q && q !in u[..e]
  {
    var e := Find(u, [q]).value;
    assert u[e..e + 1] == [q];
    forall k | 0 <= k < e ensures u[k] != q {
      assert !At(u, [q], k);
      assert u[k..k + 1] == [u[k]];
    }
  }

  /** The first `q` from `start` on closes a run free of `q`. */
  lemma QuoteFound(t: string, start: nat, q: char)
    requires start <= |t| && Find(t[start..], [q]).Some?
    ensures var e := Find(t[start..], [q]).value;
      start + e < |t| && t[start + e] == q && q !in t[start..start + e]
  {
    var e := Find(t[start..], [q]).value;
    CharFound(t[start..], q);
    assert t[start..start + e] == t[start..][..e];
  }

  /** A run `w` free of `q` and closed by `q` is where the search for `q` from `start` stops. */
  lemma QuoteRead(t: string, start: nat, q: char, w: string)
    requires start + |w| < |t| && t[start..start + |w|] == w && t[start + |w|] == q && q !in w
    ensures Find(t[start..], [q]) == Some(|w|)
  {
    assert t[start..][|w|..|w| + 1] == [q];
    forall j | 0 <= j < |w| ensures !At(t[start..], [q], j) {
      assert t[start..][j] == w[j];
    }
    FindFirstAt(t[start..], [q], |w|);
  }

  /** Rust `str::contains`. */
  predicate Contains(s: string, p: string) {
    Find(s, p).Some?
  }

  /**
   * Rust `str::replace`: scans left to right and replaces every non-overlapping
   * occurrence of `p` by `r`; an empty pattern puts `r` before every character and at the end.
   */
  function ReplaceAll(s: string, p: string, r: string): string
    decreases |s|
  {
    if |p| == 0 then
      if s == [] then r else r + [s[0]] + ReplaceAll(s[1..], p, r)
    else if |s| < |p| then s
    else if At(s, p, 0) then r + ReplaceAll(s[|p|..], p, r)
    else [s[0]] + ReplaceAll(s[1..], p, r)
  }

  lemma AtTail(s: string, p: string, j: nat)
    requires |s| > 0
    ensures At(s[1..], p, j) <==> At(s, p, j + 1)
  {
    if j + 1 + |p| <= |s| {
      assert s[1..][j..j + |p|] == s[j + 1..j + 1 + |p|];
    }
  }

  lemma AtDrop(s: string, p: string, k: nat, j: nat)
    requires k <= |s|
    ensures At(s[k..], p, j) <==> At(s, p, j + k)
  {
    if j + k + |p| <= |s| {
      assert s[k..][j..j + |p|] == s[j + k..j + k + |p|];
    }
  }

  /** An occurrence begins with the pattern's first character. */
  lemma AtHead(s: string, p: string, j: nat)
    requires |p| > 0 && j < |s| && s[j] != p[0]
    ensures !At(s, p, j)
  {
    if j + |p| <= |s| {
      assert s[j..j + |p|][0] == s[j];
    }
  }

  /** A string without the pattern's first character cannot contain the pattern. */
  lemma AbsentFirstChar(s: string, p: string)
    requires |p| > 0 && p[0] !in s
    ensures !Contains(s, p)
  {
    forall j: nat | j < |s| ensures !At(s, p, j) {
      AtHead(s, p, j);
    }
  }

  /** Replacing a pattern that does not occur changes nothing. */
  lemma {:induction false} ReplaceNotFound(s: string, p: string, r: string)
    requires |p| > 0 && !Contains(s, p)
    ensures ReplaceAll(s, p, r) == s
    decreases |s|
  {
    if |s| >= |p| {
      assert !At(s, p, 0);
      forall j: nat ensures !At(s[1..], p, j) {
        AtTail(s, p, j);
      }
      ReplaceNotFound(s[1..], p, r);
      assert s == [s[0]] + s[1..];
    }
  }

  /** Replacing a pattern by something no longer never lengthens the string. */
  lemma {:induction false} ReplaceShrinks(s: string, p: string, r: string)
    requires |p| > 0 && |r| <= |p|
    ensures |ReplaceAll(s, p, r)| <= |s|
    decreases |s|
  {
    if |s| >= |p| {
      if At(s, p, 0) {
        ReplaceShrinks(s[|p|..], p, r);
      } else {
        ReplaceShrinks(s[1..], p, r);
      }
    }
  }

  /** A prefix free of the pattern's first character passes through a replacement untouched. */
  lemma {:induction false} ReplaceSkipsPrefix(x: string, y: string, p: string, r: string)
    requires |p| > 0 && p[0] !in x
    ensures ReplaceAll(x + y, p, r) == x + ReplaceAll(y, p, r)
    decreases |x|
  {
    if x != [] {
      var s := x + y;
      assert s[0] == x[0] && x[0] != p[0];
      AtHead(s, p, 0);
      ReplaceHead(s, p, r);
      assert ReplaceAll(s, p, r) == [x[0]] + ReplaceAll(s[1..], p, r);
      assert s[1..] == x[1..] + y;
      assert p[0] !in x[1..] by {
        forall i | 0 <= i < |x[1..]| ensures x[1..][i] != p[0] {
          assert x[1..][i] == x[i + 1];
        }
      }
      ReplaceSkipsPrefix(x[1..], y, p, r);
      assert x == [x[0]] + x[1..];
    } else {
      assert x + y == y;
    }
  }

  /** An occurrence at the very start is replaced first. */
  lemma ReplaceAtStart(y: string, p: string, r: string)
    requires |p| > 0
    ensures ReplaceAll(p + y, p, r) == r + ReplaceAll(y, p, r)
  {
    var s := p + y;
    assert s[..|p|] == p;
    assert s[|p|..] == y;
  }

  /** How the output of a replacement begins: with the replacement text or with the input's first character. */
  lemma ReplaceHead(t: string, p: string, r: string)
    requires |p| > 0 && |t| > 0
    ensures At(t, p, 0) ==> ReplaceAll(t, p, r) == r + ReplaceAll(t[|p|..], p, r)
    ensures !At(t, p, 0) ==> ReplaceAll(t, p, r) == [t[0]] + ReplaceAll(t[1..], p, r)
  {
    if |t| < |p| {
      assert ReplaceAll(t[1..], p, r) == t[1..];
      assert t == [t[0]] + t[1..];
    }
  }

  /**
   * When the replacement text is non-empty and shares no character with `q`, an output
   * that starts with `q` comes from an input that starts with `q`.
   */
  lemma {:induction false} ReplacePrefixBack(t: string, p: string, r: string, q: string)
    requires |p| > 0 && |r| > 0
    requires forall c :: c in q ==> c !in r
    ensures StartsWith(ReplaceAll(t, p, r), q) ==> StartsWith(t, q)
    decreases |t|
  {
    var out := ReplaceAll(t, p, r);
    if |q| > 0 && |t| > 0 && StartsWith(out, q) {
      var rest := ReplaceAll(t[1..], p, r);
      HeadKept(t, p, r, q);
      assert rest[..|q| - 1] == out[1..|q|] == q[1..];
      ReplacePrefixBack(t[1..], p, r, q[1..]);
      assert t[..|q|] == [t[0]] + t[1..][..|q| - 1];
    }
  }

  /** An output starting with a character outside the replacement text starts with the input's own first character. */
  lemma HeadKept(t: string, p: string, r: string, q: string)
    requires |p| > 0 && |r| > 0 && |q| > 0 && |t| > 0
    requires q[0] !in r && StartsWith(ReplaceAll(t, p, r), q)
    ensures ReplaceAll(t, p, r) == [t[0]] + ReplaceAll(t[1..], p, r) && t[0] == q[0]
  {
    var out := ReplaceAll(t, p, r);
    ReplaceHead(t, p, r);
    assert q[0] == out[..|q|][0] == out[0];
  }

  /**
   * A replacement whose non-empty text shares no character with `q` never creates an
   * occurrence of `q`.
   */
  lemma {:induction false} ReplaceKeepsAbsent(s: string, p: string, r: string, q: string)
    requires |p| > 0 && |r| > 0 && |q| > 0
    requires forall c :: c in q ==> c !in r
    requires !Contains(s, q)
    ensures !Contains(ReplaceAll(s, p, r), q)
    decreases |s|
  {
    var out := ReplaceAll(s, p, r);
    if |s| > 0 {
      ReplaceHead(s, p, r);
      assert q[0] in q;
      if At(s, p, 0) {
        var rest := ReplaceAll(s[|p|..], p, r);
        forall j: nat ensures !At(s[|p|..], q, j) {
          AtDrop(s, q, |p|, j);
        }
        ReplaceKeepsAbsent(s[|p|..], p, r, q);
        assert out[|r|..] == rest;
        forall j: nat ensures !At(out, q, j) {
          if j < |r| {
            assert out[j] == r[j];
            AtHead(out, q, j);
          } else {
            AtDrop(out, q, |r|, j - |r|);
          }
        }
      } else {
        var rest := ReplaceAll(s[1..], p, r);
        forall j: nat ensures !At(s[1..], q, j) {
          AtTail(s, q, j);
        }
        ReplaceKeepsAbsent(s[1..], p, r, q);
        assert out[1..] == rest;
        ReplacePrefixBack(s, p, r, q);
        forall j: nat ensures !At(out, q, j) {
          if j > 0 {
            AtTail(out, q, j - 1);
          }
        }
      }
    }
  }

  /**
   * After a replacement whose non-empty text shares no character with the pattern, the
   * pattern occurs nowhere.
   */
  lemma {:induction false} ReplaceEliminates(s: string, p: string, r: string)
    requires |p| > 0 && |r| > 0
    requires forall c :: c in p ==> c !in r
    ensures !Contains(ReplaceAll(s, p, r), p)
    decreases |s|
  {
    var out := ReplaceAll(s, p, r);
    if |s| > 0 {
      ReplaceHead(s, p, r);
      assert p[0] in p;
      if At(s, p, 0) {
        var rest := ReplaceAll(s[|p|..], p, r);
        ReplaceEliminates(s[|p|..], p, r);
        assert out[|r|..] == rest;
        forall j: nat ensures !At(out, p, j) {
          if j < |r| {
            assert out[j] == r[j];
            AtHead(out, p, j);
          } else {
            AtDrop(out, p, |r|, j - |r|);
          }
        }
      } else {
        var rest := ReplaceAll(s[1..], p, r);
        ReplaceEliminates(s[1..], p, r);
        assert out[1..] == rest;
        ReplacePrefixBack(s, p, r, p);
        forall j: nat ensures !At(out, p, j) {
          if j > 0 {
            AtTail(out, p, j - 1);
          }
        }
      }
    }
  }

  /** `Find` returns the first occurrence, and only when there is one. */
  lemma FindIsFirst(s: string, p: string, r: Option<nat>)
    requires r.Some? ==> At(s, p, r.value) && forall j: nat :: j < r.value ==> !At(s, p, j)
    requires r.None? ==> forall j: nat :: !At(s, p, j)
    ensures Find(s, p) == r
  {
  }

  /** Finding a pattern after a prefix that lacks its first character. */
  lemma FindAfterPrefix(x: string, y: string, p: string)
    requires |p| > 0 && p[0] !in x
    ensures Find(x + y, p) == (match Find(y, p) case Some(k) => Some(|x| + k) case None => None)
  {
    var s := x + y;
    forall j: nat | j < |x| ensures !At(s, p, j) {
      assert s[j] == x[j];
      AtHead(s, p, j);
    }
    assert s[|x|..] == y;
    forall j: nat ensures At(s, p, |x| + j) <==> At(y, p, j) {
      AtDrop(s, p, |x|, j);
    }
    match Find(y, p)
    case Some(k) =>
      forall j: nat | |x| <= j < |x| + k ensures !At(s, p, j) {
        assert !At(y, p, j - |x|);
      }
      FindIsFirst(s, p, Some(|x| + k));
    case None =>
      forall j: nat | |x| <= j ensures !At(s, p, j) {
        assert !At(y, p, j - |x|);
      }
      FindIsFirst(s, p, None);
  }

  /** A pattern at the very start is found at 0. */
  lemma FindAtStart(p: string, y: string)
    ensures Find(p + y, p) == Some(0)
  {
    assert (p + y)[0..|p|] == p;
  }

  // ASCII case folding (Rust `to_ascii_lowercase`, `eq_ignore_ascii_case`).

  function AsciiLower(c: char): char {
    if 'A' <= c <= 'Z' then (c as int - 'A' as int + 'a' as int) as char else c
  }

  function Lower(s: string): (r: string)
    ensures |r| == |s| && forall i :: 0 <= i < |s| ==> r[i] == AsciiLower(s[i])
  {
    seq(|s|, i requires 0 <= i < |s| => AsciiLower(s[i]))
  }

  predicate EqIgnoreAsciiCase(a: string, b: string) {
    |a| == |b| && forall i :: 0 <= i < |a| ==> AsciiLower(a[i]) == AsciiLower(b[i])
  }

  // Decimal numbers: `u64::to_string` and `u64::from_str`.

  const U64_LIMIT: nat := 0x1_0000_0000_0000_0000
  const U32_LIMIT: nat := 0x1_0000_0000

  type u64 = n: nat | n < U64_LIMIT
  type u32 = n: nat | n < U32_LIMIT

  predicate IsDigit(c: char) {
    '0' <= c <= '9'
  }

  predicate AllDigits(s: string) {
    forall i :: 0 <= i < |s| ==> IsDigit(s[i])
  }

  function DigitChar(d: nat): (c: char)
    requires d < 10
    ensures IsDigit(c)
  {
    ('0' as int + d) as char
  }

  function DigitValue(c: char): (d: nat)
    requires IsDigit(c)
    ensures d < 10
  {
    c as int - '0' as int
  }

  /** Rust `to_string` of an unsigned integer: its shortest decimal spelling. */
  function Decimal(n: nat): (s: string)
    ensures |s| >= 1 && AllDigits(s)
    decreases n
  {
    if n < 10 then [DigitChar(n)] else Decimal(n / 10) + [DigitChar(n % 10)]
  }

  /** The value of a run of decimal digits. */
  function DigitsValue(s: string): nat
    requires AllDigits(s)
    decreases |s|
  {
    if s == [] then 0 else DigitsValue(s[..|s| - 1]) * 10 + DigitValue(s[|s| - 1])
  }

  lemma {:induction false} DecimalValue(n: nat)
    ensures DigitsValue(Decimal(n)) == n
    decreases n
  {
    if n >= 10 {
      var s := Decimal(n);
      assert s[..|s| - 1] == Decimal(n / 10);
      DecimalValue(n / 10);
    }
  }

  /** Distinct numbers have distinct decimal spellings. */
  lemma DecimalInjective(a: nat, b: nat)
    requires Decimal(a) == Decimal(b)
    ensures a == b
  {
    DecimalValue(a);
    DecimalValue(b);
  }

  /**
   * Rust `u64::from_str`: an optional '+', then one or more ASCII digits whose value is
   * below 2^64; anything else is an error.
   */
  function ParseU64(s: string): (r: Option<u64>)
  {
    var digits := if |s| > 0 && s[0] == '+' then s[1..] else s;
    if |digits| == 0 || !AllDigits(digits) then None
    else if DigitsValue(digits) < U64_LIMIT then Some(DigitsValue(digits))
    else None
  }

  /** `n.to_string().parse::<u64>()` gives back `n`. */
  lemma ParseDecimal(n: u64)
    ensures ParseU64(Decimal(n)) == Some(n)
  {
    DecimalValue(n);
  }
}
