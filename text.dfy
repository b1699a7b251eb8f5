/** String helpers that stand for JavaScript's template literals, `join` and `trim`. */
module Text {

  function DigitChar(d: nat): (c: char)
    requires d < 10
    ensures '0' <= c <= '9'
  {
    "0123456789"[d]
  }

  predicate IsDigits(s: string) {
    forall i :: 0 <= i < |s| ==> '0' <= s[i] <= '9'
  }

  /** `${n}` for a non-negative integer: its decimal digits, no leading zero. */
  function NatToString(n: nat): (s: string)
    ensures |s| >= 1 && IsDigits(s)
    ensures |s| > 1 ==> s[0] != '0'
  {
    if n < 10 then [DigitChar(n)] else NatToString(n / 10) + [DigitChar(n % 10)]
  }

  /** The value of a string of decimal digits. */
  function ParseDigits(s: string): nat
    requires IsDigits(s)
  {
    if s == [] then 0 else 10 * ParseDigits(s[..|s| - 1]) + (s[|s| - 1] as int - '0' as int)
  }

  /** The decimal rendering reads back as the number it renders. */
  lemma {:induction false} ParseNatToString(n: nat)
    ensures ParseDigits(NatToString(n)) == n
  {
    var s := NatToString(n);
    if n >= 10 {
      ParseNatToString(n / 10);
      assert s[..|s| - 1] == NatToString(n / 10);
    }
  }

  /** `parts.join(sep)` */
  function Join(parts: seq<string>, sep: string): (r: string)
    ensures parts == [] ==> r == ""
    ensures |parts| == 1 ==> r == parts[0]
  {
    if parts == [] then ""
    else if |parts| == 1 then parts[0]
    else parts[0] + sep + Join(parts[1..], sep)
  }

  /** Joining one more part appends the separator and that part. */
  lemma {:induction false} JoinSnoc(parts: seq<string>, part: string, sep: string)
    requires parts != []
    ensures Join(parts + [part], sep) == Join(parts, sep) + sep + part
    decreases |parts|
  {
    if |parts| > 1 {
      assert (parts + [part])[1..] == parts[1..] + [part];
      JoinSnoc(parts[1..], part, sep);
    }
  }

  /** The joined string is the parts with one separator between each neighbouring pair. */
  lemma {:induction false} JoinLength(parts: seq<string>, sep: string)
    requires parts != []
    ensures |Join(parts, sep)| == TotalLength(parts) + (|parts| - 1) * |sep|
    decreases |parts|
  {
    if |parts| > 1 {
      JoinLength(parts[1..], sep);
    }
  }

  /** The summed lengths of the parts. */
  function TotalLength(parts: seq<string>): nat {
    if parts == [] then 0 else |parts[0]| + TotalLength(parts[1..])
  }

  /** The characters ECMAScript's `trim` removes: WhiteSpace and LineTerminator. */
  predicate IsJsWhitespace(c: char) {
    c == ' ' || c == '\t' || c == '\n' || c == '\r' || c == '\U{000B}' || c == '\U{000C}'
    || c == '\U{00A0}' || c == '\U{FEFF}' || c == '\U{1680}'
    || ('\U{2000}' <= c <= '\U{200A}') || c == '\U{2028}' || c == '\U{2029}'
    || c == '\U{202F}' || c == '\U{205F}' || c == '\U{3000}'
  }

  /** `s.replace(/^\s+/, "")`: drops the leading whitespace only. */
  function TrimStart(s: string): (r: string)
    ensures |r| <= |s| && r == s[|s| - |r|..]
    ensures r == [] || !IsJsWhitespace(r[0])
    ensures forall i :: 0 <= i < |s| - |r| ==> IsJsWhitespace(s[i])
  {
    if s != [] && IsJsWhitespace(s[0]) then TrimStart(s[1..]) else s
  }

  /** Drops the trailing whitespace only. */
  function TrimEnd(s: string): (r: string)
    ensures |r| <= |s| && r == s[..|r|]
    ensures r == [] || !IsJsWhitespace(r[|r| - 1])
    ensures forall i :: |r| <= i < |s| ==> IsJsWhitespace(s[i])
  {
    if s != [] && IsJsWhitespace(s[|s| - 1]) then TrimEnd(s[..|s| - 1]) else s
  }

  /** `s.trim()` */
  function Trim(s: string): (r: string)
    ensures r == [] || (!IsJsWhitespace(r[0]) && !IsJsWhitespace(r[|r| - 1]))
    ensures exists a :: Trimmed(s, a, r)
  {
    var t := TrimStart(s);
    var r := TrimEnd(t);
    TrimmedComposes(s, t, r);
    r
  }

  /** Cutting leading whitespace and then trailing whitespace leaves a trimmed slice of s. */
  lemma TrimmedComposes(s: string, t: string, r: string)
    requires |t| <= |s| && t == s[|s| - |t|..]
    requires forall i :: 0 <= i < |s| - |t| ==> IsJsWhitespace(s[i])
    requires |r| <= |t| && r == t[..|r|]
    requires forall i :: |r| <= i < |t| ==> IsJsWhitespace(t[i])
    ensures Trimmed(s, |s| - |t|, r)
  {
    var a := |s| - |t|;
    assert r == s[a..a + |r|];
    assert forall i :: a + |r| <= i < |s| ==> s[i] == t[i - a];
  }

  /** r is s with a whitespace-only prefix of length a and a whitespace-only suffix cut off. */
  predicate Trimmed(s: string, a: int, r: string) {
    0 <= a <= a + |r| <= |s| && r == s[a..a + |r|]
    && (forall i :: 0 <= i < a ==> IsJsWhitespace(s[i]))
    && (forall i :: a + |r| <= i < |s| ==> IsJsWhitespace(s[i]))
  }

  /** `s.indexOf(c)`: the index of the first occurrence of c, or -1. */
  function IndexOf(s: string, c: char): (i: int)
    ensures -1 <= i < |s|
    ensures i < 0 <==> c !in s
    ensures i >= 0 ==> s[i] == c && c !in s[..i]
  {
    if s == [] then -1
    else if s[0] == c then 0
    else
      var j := IndexOf(s[1..], c);
      assert j >= 0 ==> s[..j + 1] == [s[0]] + s[1..][..j];
      if j < 0 then -1 else j + 1
  }

  /** `s.replace(from, to)` with a one-character string pattern: the first occurrence only. */
  function ReplaceFirst(s: string, from: char, to: char): (r: string)
    ensures from !in s ==> r == s
    ensures var i := IndexOf(s, from); i >= 0 ==> r == s[i := to]
  {
    if s == [] then []
    else if s[0] == from then [to] + s[1..]
    else
      var rest := ReplaceFirst(s[1..], from, to);
      assert IndexOf(s, from) >= 0 ==> [s[0]] + rest == s[IndexOf(s, from) := to];
      [s[0]] + rest
  }

  /** The pattern occurs in s starting at index i. */
  predicate OccursAt(s: string, pattern: string, i: int) {
    0 <= i <= |s| - |pattern| && s[i..i + |pattern|] == pattern
  }

  /** The first occurrence of the pattern in s starts at index i. */
  predicate FirstOccursAt(s: string, pattern: string, i: int) {
    OccursAt(s, pattern, i) && forall j :: 0 <= j < i ==> !OccursAt(s, pattern, j)
  }

  /** There is at most one first occurrence. */
  lemma FirstOccurrenceUnique(s: string, pattern: string, i: int, k: int)
    requires FirstOccursAt(s, pattern, i) && FirstOccursAt(s, pattern, k)
    ensures i == k
  {
  }

  /** `s.indexOf(pattern)` for a string pattern: where it first occurs, or -1. */
  function IndexOfString(s: string, pattern: string): (i: int)
    ensures -1 <= i <= |s|
    ensures i < 0 <==> forall j :: 0 <= j <= |s| ==> !OccursAt(s, pattern, j)
    ensures i >= 0 ==> FirstOccursAt(s, pattern, i)
    decreases |s|
  {
    if |s| < |pattern| then -1
    else if s[..|pattern|] == pattern then
      assert OccursAt(s, pattern, 0);
      0
    else
      var j := IndexOfString(s[1..], pattern);
      assert !OccursAt(s, pattern, 0);
      assert forall k :: 1 <= k <= |s| ==> (OccursAt(s, pattern, k) <==> OccursAt(s[1..], pattern, k - 1)) by {
        forall k | 1 <= k <= |s| ensures OccursAt(s, pattern, k) <==> OccursAt(s[1..], pattern, k - 1) {
          OccursAtTail(s, pattern, k);
        }
      }
      assert j >= 0 ==> OccursAt(s, pattern, j + 1);
      if j < 0 then -1 else j + 1
  }

  /** An occurrence at k >= 1 is an occurrence at k - 1 in the tail. */
  lemma OccursAtTail(s: string, pattern: string, k: int)
    requires 1 <= k <= |s|
    ensures OccursAt(s, pattern, k) <==> OccursAt(s[1..], pattern, k - 1)
  {
    if k <= |s| - |pattern| {
      var here, there := s[k..k + |pattern|], s[1..][k - 1..k - 1 + |pattern|];
      assert forall m :: 0 <= m < |pattern| ==> here[m] == there[m];
      assert here == there;
    }
  }

  /**
   * `s.replace(pattern, "")` with a string pattern: s unchanged when the
   * pattern does not occur, otherwise its first occurrence cut out.
   */
  function RemoveFirst(s: string, pattern: string): (r: string)
    ensures (forall j :: 0 <= j <= |s| ==> !OccursAt(s, pattern, j)) ==> r == s
    ensures forall i :: FirstOccursAt(s, pattern, i) ==> r == s[..i] + s[i + |pattern|..]
    ensures pattern <= s ==> r == s[|pattern|..]
  {
    var i := IndexOfString(s, pattern);
    assert forall k :: FirstOccursAt(s, pattern, k) ==> k == i by {
      forall k | FirstOccursAt(s, pattern, k) ensures k == i {
        if i < 0 {
          assert false;
        }
        FirstOccurrenceUnique(s, pattern, i, k);
      }
    }
    assert pattern <= s ==> FirstOccursAt(s, pattern, 0) && s[..0] + s[|pattern|..] == s[|pattern|..];
    if i < 0 then s else s[..i] + s[i + |pattern|..]
  }

  /** The middle part of a three-part concatenation reads back at its offset. */
  lemma ConcatParts(a: string, b: string, c: string)
    ensures |a + b + c| == |a| + |b| + |c|
    ensures (a + b + c)[..|a|] == a && (a + b + c)[|a|..|a| + |b|] == b
  {
  }
}
