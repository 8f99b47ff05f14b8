/** The string operations the core uses: String.prototype.trim, ASCII
    lower-casing, includes/startsWith, decimal printing and parsing of
    integers, padStart, split on one character and replace of the first
    occurrence of one character. */
module Text {

  /** The characters String.prototype.trim removes: ECMAScript WhiteSpace and
      LineTerminator. */
  predicate IsJsWhitespace(c: char)
  {
    var k := c as int;
    k == 0x09 || k == 0x0A || k == 0x0B || k == 0x0C || k == 0x0D || k == 0x20 ||
    k == 0xA0 || k == 0x1680 || (0x2000 <= k <= 0x200A) || k == 0x2028 || k == 0x2029 ||
    k == 0x202F || k == 0x205F || k == 0x3000 || k == 0xFEFF
  }

  function TrimStart(s: string): (r: string)
    ensures |r| <= |s| && r == s[|s| - |r|..]
    ensures r == "" || !IsJsWhitespace(r[0])
    ensures forall i :: 0 <= i < |s| - |r| ==> IsJsWhitespace(s[i])
  {
    if |s| > 0 && IsJsWhitespace(s[0]) then TrimStart(s[1..]) else s
  }

  function TrimEnd(s: string): (r: string)
    ensures |r| <= |s| && r == s[..|r|]
    ensures r == "" || !IsJsWhitespace(r[|r| - 1])
    ensures forall i :: |r| <= i < |s| ==> IsJsWhitespace(s[i])
  {
    if |s| > 0 && IsJsWhitespace(s[|s| - 1]) then TrimEnd(s[..|s| - 1]) else s
  }

  /** String.prototype.trim: the result is a slice of `s` that neither starts
      nor ends with white space, and everything cut off is white space. */
  function Trim(s: string): (r: string)
    ensures exists i :: TrimmedAt(s, r, i)
    ensures r == "" || (!IsJsWhitespace(r[0]) && !IsJsWhitespace(r[|r| - 1]))
  {
    var a := TrimStart(s);
    var b := TrimEnd(a);
    assert b == s[|s| - |a|..][..|b|];
    assert b == s[|s| - |a|..|s| - |a| + |b|];
    assert b != "" ==> b[0] == a[0];
    assert TrimmedAt(s, b, |s| - |a|);
    b
  }

  /** `r` is the slice of `s` at `i` and only white space lies around it. */
  predicate TrimmedAt(s: string, r: string, i: int)
  {
    0 <= i <= |s| - |r| && r == s[i..i + |r|]
    && (forall k :: 0 <= k < i ==> IsJsWhitespace(s[k]))
    && (forall k :: i + |r| <= k < |s| ==> IsJsWhitespace(s[k]))
  }

  /** Trimming a string that has no white space at either end changes nothing. */
  lemma TrimIdentity(s: string)
    requires s == "" || (!IsJsWhitespace(s[0]) && !IsJsWhitespace(s[|s| - 1]))
    ensures Trim(s) == s
  {
  }

  /** Trimming twice is trimming once. */
  lemma TrimIdempotent(s: string)
    ensures Trim(Trim(s)) == Trim(s)
  {
    TrimIdentity(Trim(s));
  }

  /** Lower-casing of the ASCII letters A-Z. */
  function LowerChar(c: char): (r: char)
    ensures 'A' <= c <= 'Z' ==> r as int == c as int + 32
    ensures !('A' <= c <= 'Z') ==> r == c
    ensures !('A' <= r <= 'Z') && (IsJsWhitespace(r) <==> IsJsWhitespace(c))
  {
    if 'A' <= c <= 'Z' then (c as int + 32) as char else c
  }

  function Lower(s: string): (r: string)
    ensures |r| == |s| && forall i :: 0 <= i < |s| ==> r[i] == LowerChar(s[i])
  {
    seq(|s|, i requires 0 <= i < |s| => LowerChar(s[i]))
  }

  /** Lower-casing keeps a trimmed string trimmed and leaves no capital. */
  lemma LowerOfTrimmed(t: string)
    requires t == "" || (!IsJsWhitespace(t[0]) && !IsJsWhitespace(t[|t| - 1]))
    ensures var e := Lower(t); e == "" || (!IsJsWhitespace(e[0]) && !IsJsWhitespace(e[|e| - 1]))
    ensures var e := Lower(t); forall k :: 0 <= k < |e| ==> !('A' <= e[k] <= 'Z')
  {
    var e := Lower(t);
    if e != "" {
      assert e[0] == LowerChar(t[0]) && e[|e| - 1] == LowerChar(t[|t| - 1]);
    }
  }

  /** s.includes(sub). */
  predicate Includes(s: string, sub: string)
  {
    exists i | 0 <= i <= |s| - |sub| :: OccursAt(s, sub, i)
  }

  predicate OccursAt(s: string, sub: string, i: int)
  {
    0 <= i <= |s| - |sub| && s[i..i + |sub|] == sub
  }

  lemma IncludesEmpty(s: string)
    ensures Includes(s, "")
  {
    assert OccursAt(s, "", 0);
  }

  /** s.includes(c) for one character. */
  predicate HasChar(s: string, c: char) { exists i :: 0 <= i < |s| && s[i] == c }

  predicate IsDigitChar(c: char) { '0' <= c <= '9' }

  predicate IsDigitString(s: string)
  {
    |s| > 0 && forall i :: 0 <= i < |s| ==> IsDigitChar(s[i])
  }

  function DigitChar(d: nat): (c: char)
    requires d < 10
    ensures IsDigitChar(c) && c as int - '0' as int == d
  {
    ('0' as int + d) as char
  }

  /** The decimal value of a digit string (Number(s) for such a string). */
  function DigitsValue(s: string): nat
    requires forall i :: 0 <= i < |s| ==> IsDigitChar(s[i])
  {
    if |s| == 0 then 0
    else
      assert IsDigitChar(s[|s| - 1]);
      10 * DigitsValue(s[..|s| - 1]) + (s[|s| - 1] as int - '0' as int)
  }

  /** The decimal representation of a natural number, without leading zeros. */
  function NatToString(n: nat): (s: string)
    ensures IsDigitString(s)
    ensures |s| > 1 ==> s[0] != '0'
  {
    if n < 10 then [DigitChar(n)] else NatToString(n / 10) + [DigitChar(n % 10)]
  }

  /** String(n) for an integer. */
  function IntToString(n: int): string
  {
    if n < 0 then "-" + NatToString(-n) else NatToString(n)
  }

  /** Printing and then reading a natural number gives it back. */
  lemma {:induction false} NatToStringRoundTrip(n: nat)
    ensures DigitsValue(NatToString(n)) == n
  {
    if n >= 10 {
      NatToStringRoundTrip(n / 10);
      var s := NatToString(n);
      assert s[..|s| - 1] == NatToString(n / 10);
    }
  }

  /** The number of decimal digits of n. */
  lemma {:induction false} NatToStringLength(n: nat)
    ensures n < 10 ==> |NatToString(n)| == 1
    ensures 10 <= n < 100 ==> |NatToString(n)| == 2
    ensures 100 <= n < 1000 ==> |NatToString(n)| == 3
    ensures 1000 <= n < 10000 ==> |NatToString(n)| == 4
  {
    if n >= 10 {
      NatToStringLength(n / 10);
    }
  }

  /** String(s).padStart(width, c). */
  function PadStart(s: string, width: nat, c: char): (r: string)
    ensures |r| == if |s| >= width then |s| else width
    ensures r[|r| - |s|..] == s
    ensures forall i :: 0 <= i < |r| - |s| ==> r[i] == c
  {
    if |s| >= width then s else seq(width - |s|, _ => c) + s
  }

  /** s.split(sep) for a one-character separator. */
  function Split(s: string, sep: char): (parts: seq<string>)
    ensures |parts| >= 1
    ensures !HasChar(s, sep) ==> parts == [s]
    decreases |s|
  {
    if exists i :: 0 <= i < |s| && s[i] == sep then
      var i := FirstIndex(s, sep);
      [s[..i]] + Split(s[i + 1..], sep)
    else [s]
  }

  /** The index of the first occurrence of c in s. */
  function FirstIndex(s: string, c: char): (i: nat)
    requires HasChar(s, c)
    ensures i < |s| && s[i] == c && forall k :: 0 <= k < i ==> s[k] != c
  {
    if s[0] == c then 0 else 1 + FirstIndex(s[1..], c)
  }

  /** Splitting at a first separator gives the part before it followed by
      the split of the rest. */
  lemma SplitFirst(a: string, sep: char, b: string)
    requires !HasChar(a, sep)
    ensures Split(a + [sep] + b, sep) == [a] + Split(b, sep)
  {
    var s := a + [sep] + b;
    assert s[|a|] == sep;
    forall k | 0 <= k < |a|
      ensures s[k] != sep
    {
      assert s[k] == a[k];
    }
    var i := FirstIndex(s, sep);
    assert i == |a|;
    assert s[..i] == a;
    assert s[i + 1..] == b;
  }

  /** Splitting a string in which the separator occurs once gives the two
      sides. */
  lemma SplitOnce(a: string, sep: char, b: string)
    requires !HasChar(a, sep) && !HasChar(b, sep)
    ensures Split(a + [sep] + b, sep) == [a, b]
  {
    SplitFirst(a, sep, b);
  }

  /** s.split(sep) for a separator string of one or more characters. */
  function SplitOn(s: string, sep: string): (parts: seq<string>)
    requires |sep| > 0
    ensures |parts| >= 1
    ensures !Includes(s, sep) ==> parts == [s]
    decreases |s|
  {
    if Includes(s, sep) then
      var i := FirstOccurrence(s, sep);
      [s[..i]] + SplitOn(s[i + |sep|..], sep)
    else [s]
  }

  /** The index of the first occurrence of sep in s. */
  function FirstOccurrence(s: string, sep: string): (i: nat)
    requires |sep| > 0 && Includes(s, sep)
    ensures OccursAt(s, sep, i) && forall k :: 0 <= k < i ==> !OccursAt(s, sep, k)
    decreases |s|
  {
    if OccursAt(s, sep, 0) then 0
    else
      assert Includes(s[1..], sep) by {
        var j :| 0 <= j <= |s| - |sep| && OccursAt(s, sep, j);
        OccursShift(s, sep, j);
      }
      var i := FirstOccurrence(s[1..], sep);
      OccursShift(s, sep, i + 1);
      assert forall k :: 1 <= k < i + 1 ==> !OccursAt(s, sep, k) by {
        forall k | 1 <= k < i + 1
          ensures !OccursAt(s, sep, k)
        {
          OccursShift(s, sep, k);
        }
      }
      1 + i
  }

  /** An occurrence at k >= 1 is an occurrence at k - 1 of the tail. */
  lemma OccursShift(s: string, sep: string, k: int)
    requires 1 <= k && |s| > 0
    ensures OccursAt(s, sep, k) <==> OccursAt(s[1..], sep, k - 1)
  {
    if k <= |s| - |sep| {
      assert s[1..][k - 1..k - 1 + |sep|] == s[k..k + |sep|];
    }
  }

  /** No occurrence of sep in a string without sep's first character. */
  lemma NotIncludes(s: string, sep: string)
    requires |sep| > 0 && !HasChar(s, sep[0])
    ensures !Includes(s, sep)
  {
    forall i | 0 <= i <= |s| - |sep|
      ensures !OccursAt(s, sep, i)
    {
      assert s[i] == s[i..i + |sep|][0];
    }
  }

  /** Splitting `a + sep + b`, where neither side holds sep's first
      character, gives the two sides. */
  lemma SplitOnOnce(a: string, sep: string, b: string)
    requires |sep| > 0 && !HasChar(a, sep[0]) && !HasChar(b, sep[0])
    ensures SplitOn(a + sep + b, sep) == [a, b]
  {
    var s := a + sep + b;
    assert s[|a|..|a| + |sep|] == sep;
    assert OccursAt(s, sep, |a|);
    forall k | 0 <= k < |a|
      ensures !OccursAt(s, sep, k)
    {
      assert s[k] == s[k..k + |sep|][0] == a[k];
    }
    var i := FirstOccurrence(s, sep);
    assert i == |a|;
    assert s[..i] == a;
    assert s[i + |sep|..] == b;
    NotIncludes(b, sep);
  }

  /** s.replace(c, d) for one character: only the first occurrence. */
  function ReplaceFirst(s: string, c: char, d: string): (r: string)
  {
    if HasChar(s, c) then
      var i := FirstIndex(s, c);
      s[..i] + d + s[i + 1..]
    else s
  }

  /** parts.join(sep). */
  function Join(parts: seq<string>, sep: string): (r: string)
    ensures |parts| == 1 ==> r == parts[0]
  {
    if |parts| == 0 then ""
    else if |parts| == 1 then parts[0]
    else parts[0] + sep + Join(parts[1..], sep)
  }

  /** `a < b` on strings: code-unit lexicographic order, a proper prefix
      coming first (the order of Array.prototype.sort without a
      comparator). */
  predicate StringLess(a: string, b: string)
  {
    |b| > 0 && (|a| == 0 || a[0] < b[0] || (a[0] == b[0] && StringLess(a[1..], b[1..])))
  }

  lemma StringLessIrreflexive(a: string)
    ensures !StringLess(a, a)
  {
  }

  lemma {:induction false} StringLessTransitive(a: string, b: string, c: string)
    requires StringLess(a, b) && StringLess(b, c)
    ensures StringLess(a, c)
  {
    if |a| > 0 && a[0] == b[0] && b[0] == c[0] {
      StringLessTransitive(a[1..], b[1..], c[1..]);
    }
  }

  lemma {:induction false} StringLessTotal(a: string, b: string)
    requires a != b
    ensures StringLess(a, b) || StringLess(b, a)
  {
    if |a| > 0 && |b| > 0 && a[0] == b[0] {
      assert a == [a[0]] + a[1..] && b == [b[0]] + b[1..];
      StringLessTotal(a[1..], b[1..]);
    }
  }
}
