/**
 * The string operations the journaling app relies on, over `seq<char>`:
 * substring search (`in` / `includes`), Python's `str.split(sep)`,
 * `str.strip()`, ASCII case folding, and decimal rendering of integers
 * (JavaScript template interpolation of a number).
 */
module Text {
  import opened Wrappers

  /** `p` occurs in `s` starting at index `j`. */
  predicate OccursAt(s: string, p: string, j: int) {
    0 <= j && j + |p| <= |s| && s[j..j + |p|] == p
  }

  /** An occurrence past the first character is an occurrence in the tail. */
  lemma OccursInTail(s: string, p: string, j: int)
    requires s != [] && j >= 0
    ensures OccursAt(s, p, j + 1) <==> OccursAt(s[1..], p, j)
  {
    if j + 1 + |p| <= |s| {
      assert s[1..][j..j + |p|] == s[j + 1..j + 1 + |p|];
    }
  }

  /** Index of the leftmost occurrence of `p` in `s` (Python `str.find`). */
  function IndexOf(s: string, p: string): (r: Option<nat>)
    ensures r.Some? ==> OccursAt(s, p, r.value)
    ensures r.Some? ==> forall j :: 0 <= j < r.value ==> !OccursAt(s, p, j)
    ensures r.None? ==> forall j :: !OccursAt(s, p, j)
    decreases |s|
  {
    if |p| > |s| then None
    else if s[..|p|] == p then Some(0)
    else
      var tail := IndexOf(s[1..], p);
      assert forall j :: j >= 0 ==> (OccursAt(s, p, j + 1) <==> OccursAt(s[1..], p, j)) by {
        forall j | j >= 0 ensures OccursAt(s, p, j + 1) <==> OccursAt(s[1..], p, j) {
          OccursInTail(s, p, j);
        }
      }
      assert !OccursAt(s, p, 0);
      match tail
      case None =>
        assert forall j :: OccursAt(s, p, j) ==> OccursAt(s[1..], p, j - 1);
        None
      case Some(i) =>
        assert forall j :: 0 < j < i + 1 && OccursAt(s, p, j) ==> OccursAt(s[1..], p, j - 1);
        Some(i + 1)
  }

  /** Substring test: Python `p in s`, JavaScript `s.includes(p)`. */
  predicate Contains(s: string, p: string) {
    IndexOf(s, p).Some?
  }

  /** `Contains` holds exactly when some occurrence exists. */
  lemma ContainsIff(s: string, p: string)
    ensures Contains(s, p) <==> exists j :: OccursAt(s, p, j)
  {
    if Contains(s, p) {
      assert OccursAt(s, p, IndexOf(s, p).value);
    }
  }

  /** An occurrence at a known index makes `Contains` true. */
  lemma {:induction false} ContainsAt(s: string, p: string, j: int)
    requires OccursAt(s, p, j)
    ensures Contains(s, p)
  {
    ContainsIff(s, p);
  }

  /** The substring relation is transitive. */
  lemma ContainsTrans(s: string, q: string, p: string)
    requires Contains(s, q) && Contains(q, p)
    ensures Contains(s, p)
  {
    var i := IndexOf(s, q).value;
    var j := IndexOf(q, p).value;
    assert s[i..i + |q|] == q && q[j..j + |p|] == p;
    forall t | 0 <= t < |p|
      ensures s[i + j..i + j + |p|][t] == p[t]
    {
      assert p[t] == q[j + t] == s[i + j + t];
    }
    assert s[i + j..i + j + |p|] == p;
    ContainsAt(s, p, i + j);
  }

  /** A string contains every contiguous piece of it. */
  lemma ContainsSlice(s: string, i: nat, j: nat)
    requires i <= j <= |s|
    ensures Contains(s, s[i..j])
  {
    ContainsAt(s, s[i..j], i);
  }

  /** What a string does not contain, none of its pieces contains either. */
  lemma SliceAvoids(s: string, i: nat, j: nat, p: string)
    requires i <= j <= |s| && !Contains(s, p)
    ensures !Contains(s[i..j], p)
  {
    if Contains(s[i..j], p) {
      ContainsSlice(s, i, j);
      ContainsTrans(s, s[i..j], p);
    }
  }

  /** A string interpolated between two literals: `f"{a}{x}{b}"`. */
  function Embed(a: string, x: string, b: string): (r: string)
    ensures Contains(r, x)

  {
    var r := a + x + b;
    assert r[|a|..|a| + |x|] == x;
    ContainsAt(r, x, |a|);
    r
  }

  /** Appending text keeps every substring. */
  lemma ContainsAppend(s: string, t: string, p: string)
    requires Contains(s, p)
    ensures Contains(s + t, p) && Contains(t + s, p)
  {
    var j := IndexOf(s, p).value;
    assert (s + t)[j..j + |p|] == s[j..j + |p|];
    assert (t + s)[|t| + j..|t| + j + |p|] == s[j..j + |p|];
    ContainsAt(s + t, p, j);
    ContainsAt(t + s, p, |t| + j);
  }

  // ---------------------------------------------------------------------
  // Python str.split(sep) with a non-empty separator

  /**
   * The pieces between the leftmost non-overlapping occurrences of `sep`,
   * scanning left to right, as Python's `s.split(sep)` returns them.
   */
  function Split(s: string, sep: string): (parts: seq<string>)
    requires sep != []
    ensures |parts| >= 1
    decreases |s|
  {
    match IndexOf(s, sep)
    case None => [s]
    case Some(i) => [s[..i]] + Split(s[i + |sep|..], sep)
  }

  /** `sep.join(parts)`. */
  function Join(parts: seq<string>, sep: string): string
    requires |parts| >= 1
  {
    if |parts| == 1 then parts[0] else parts[0] + sep + Join(parts[1..], sep)
  }

  /** Joining the pieces back with the separator restores the string. */
  lemma {:induction false} JoinSplit(s: string, sep: string)
    requires sep != []
    ensures Join(Split(s, sep), sep) == s
    decreases |s|
  {
    match IndexOf(s, sep)
    case None =>
    case Some(i) =>
      var rest := s[i + |sep|..];
      var parts := Split(s, sep);
      assert parts == [s[..i]] + Split(rest, sep);
      assert parts[1..] == Split(rest, sep);
      JoinSplit(rest, sep);
      calc {
        Join(parts, sep);
        parts[0] + sep + Join(parts[1..], sep);
        s[..i] + sep + rest;
        { assert s[i..i + |sep|] == sep; }
        s;
      }
  }

  /** No piece of a split contains the separator. */
  lemma {:induction false} SplitPartsAvoid(s: string, sep: string, k: nat)
    requires sep != [] && k < |Split(s, sep)|
    ensures !Contains(Split(s, sep)[k], sep)
    decreases |s|
  {
    match IndexOf(s, sep)
    case None =>
    case Some(i) =>
      if k == 0 {
        if Contains(s[..i], sep) {
          var j := IndexOf(s[..i], sep).value;
          assert OccursAt(s[..i], sep, j) && j + |sep| <= i;
          assert s[..i][j..j + |sep|] == s[j..j + |sep|];
          assert OccursAt(s, sep, j);
        }
      } else {
        SplitPartsAvoid(s[i + |sep|..], sep, k - 1);
      }
  }

  /** A split yields more than one piece exactly when the separator occurs. */
  lemma SplitMoreThanOne(s: string, sep: string)
    requires sep != []
    ensures |Split(s, sep)| > 1 <==> Contains(s, sep)
  {
  }

  /** The first piece is the text before the first separator (all of `s` if none). */
  lemma SplitHead(s: string, sep: string)
    requires sep != []
    ensures Split(s, sep)[0] == match IndexOf(s, sep) case None => s case Some(i) => s[..i]
  {
  }

  // ---------------------------------------------------------------------
  // Python str.strip() and str.lower(), on ASCII

  /** The ASCII characters for which Python's `str.isspace()` is true. */
  predicate IsSpace(c: char) {
    c == ' ' || c == '\t' || c == '\n' || c == '\r' || c == '\U{000B}' || c == '\U{000C}'
    || ('\U{001C}' <= c <= '\U{001F}')
  }

  /** Drop leading white space. */
  function TrimStart(s: string): (r: string)
    ensures |r| <= |s| && r == s[|s| - |r|..]
    ensures forall k :: 0 <= k < |s| - |r| ==> IsSpace(s[k])
    ensures r != [] ==> !IsSpace(r[0])
  {
    if s != [] && IsSpace(s[0]) then TrimStart(s[1..]) else s
  }

  /** Drop trailing white space. */
  function TrimEnd(s: string): (r: string)
    ensures |r| <= |s| && r == s[..|r|]
    ensures forall k :: |r| <= k < |s| ==> IsSpace(s[k])
    ensures r != [] ==> !IsSpace(r[|r| - 1])
  {
    if s != [] && IsSpace(s[|s| - 1]) then TrimEnd(s[..|s| - 1]) else s
  }

  /** `r` is `s` with white space dropped from both ends, the kept piece starting at `i`. */
  predicate IsStripAt(s: string, r: string, i: int) {
    0 <= i <= |s| - |r| && r == s[i..i + |r|]
    && (forall k :: 0 <= k < i ==> IsSpace(s[k]))
    && (forall k :: i + |r| <= k < |s| ==> IsSpace(s[k]))
    && (r != [] ==> !IsSpace(r[0]) && !IsSpace(r[|r| - 1]))
  }

  /** Python `s.strip()`: the middle piece that neither starts nor ends with white space. */
  function Strip(s: string): (r: string)
    ensures exists i :: IsStripAt(s, r, i)
  {
    var t := TrimStart(s);
    var r := TrimEnd(t);
    var i := |s| - |t|;
    assert r == s[i..i + |r|];
    assert IsStripAt(s, r, i);
    r
  }

  /** Stripping twice is the same as stripping once. */
  lemma StripIdempotent(s: string)
    ensures Strip(Strip(s)) == Strip(s)
  {
    var r := Strip(s);
    assert TrimStart(r) == r;
    assert TrimEnd(r) == r;
  }

  /** What a string does not contain, its stripped form does not contain either. */
  lemma StripAvoids(s: string, p: string)
    requires !Contains(s, p)
    ensures !Contains(Strip(s), p)
  {
    var r := Strip(s);
    var i :| IsStripAt(s, r, i);
    SliceAvoids(s, i, i + |r|, p);
  }

  predicate IsUpper(c: char) { 'A' <= c <= 'Z' }

  function LowerChar(c: char): char {
    if IsUpper(c) then (c as int + 32) as char else c
  }

  /** Python `s.lower()` / JavaScript `s.toLowerCase()`, for ASCII letters. */
  function Lower(s: string): (r: string)
    ensures |r| == |s|
    ensures forall k :: 0 <= k < |s| ==> !IsUpper(r[k])
    ensures forall k :: 0 <= k < |s| && !IsUpper(s[k]) ==> r[k] == s[k]
    ensures forall k :: 0 <= k < |s| && IsUpper(s[k]) ==> r[k] == (s[k] as int + 32) as char
  {
    seq(|s|, k requires 0 <= k < |s| => LowerChar(s[k]))
  }

  /** Lowering is idempotent. */
  lemma LowerIdempotent(s: string)
    ensures Lower(Lower(s)) == Lower(s)
  {
  }

  // ---------------------------------------------------------------------
  // Decimal rendering of an integer, as JavaScript prints a whole number

  function DigitChar(d: nat): char
    requires d < 10
  {
    "0123456789"[d]
  }

  function DigitValue(c: char): nat {
    if '0' <= c <= '9' then c as int - '0' as int else 0
  }

  predicate IsDigit(c: char) { '0' <= c <= '9' }

  /** Decimal digits of `n`, most significant first, no leading zeros. */
  function NatToString(n: nat): (r: string)
    ensures r != []
    ensures forall k :: 0 <= k < |r| ==> IsDigit(r[k])
    ensures |r| > 1 ==> r[0] != '0'
  {
    if n < 10 then [DigitChar(n)] else NatToString(n / 10) + [DigitChar(n % 10)]
  }

  /** The number a string of decimal digits denotes. */
  function DecimalValue(s: string): nat {
    if s == [] then 0 else 10 * DecimalValue(s[..|s| - 1]) + DigitValue(s[|s| - 1])
  }

  /** Reading the digits back gives the number. */
  lemma {:induction false} NatToStringRoundTrip(n: nat)
    ensures DecimalValue(NatToString(n)) == n
  {
    var r := NatToString(n);
    if n >= 10 {
      NatToStringRoundTrip(n / 10);
      assert r[..|r| - 1] == NatToString(n / 10);
    }
  }

  /** `${n}` for an integer `n`. */
  function IntToString(n: int): (r: string)
    ensures r != []
    ensures n >= 0 ==> DecimalValue(r) == n
    ensures n >= 0 ==> (forall k :: 0 <= k < |r| ==> IsDigit(r[k])) && (|r| > 1 ==> r[0] != '0')
    ensures n < 0 ==> r[0] == '-' && DecimalValue(r[1..]) == -n
    ensures n < 0 ==> |r| > 1 && (forall k :: 1 <= k < |r| ==> IsDigit(r[k])) && (|r| > 2 ==> r[1] != '0')
  {
    NatToStringRoundTrip(if n >= 0 then n else -n);
    if n >= 0 then NatToString(n) else "-" + NatToString(-n)
  }
}
