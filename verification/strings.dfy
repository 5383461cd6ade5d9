/** String helpers shared by the planner, the stage chain and the server handlers:
    JavaScript's `join`, `split` on one character, `trim`, `padStart` and the
    decimal rendering of numbers inside template literals. */
module Strings {

  /** ASCII whitespace as matched by `\s` and removed by `trim`. */
  predicate IsSpace(c: char) {
    c == ' ' || c == '\t' || c == '\n' || c == '\r' || c == '\U{B}' || c == '\U{C}'
  }

  /** `parts.join(sep)`. */
  function Join(parts: seq<string>, sep: string): string {
    if |parts| == 0 then ""
    else if |parts| == 1 then parts[0]
    else parts[0] + sep + Join(parts[1..], sep)
  }

  /** `s.split(c)` for a one-character separator: always at least one piece. */
  function Split(s: string, c: char): (r: seq<string>)
    ensures |r| >= 1
    ensures forall k :: 0 <= k < |r| ==> c !in r[k]
    decreases |s|
  {
    SplitAt(s, c, 0)
  }

  // Pieces of s, where s[..i] is already known to hold no separator.
  function SplitAt(s: string, c: char, i: nat): (r: seq<string>)
    requires i <= |s| && c !in s[..i]
    ensures |r| >= 1
    ensures forall k :: 0 <= k < |r| ==> c !in r[k]
    decreases |s|, |s| - i
  {
    if i == |s| then assert s[..i] == s; [s]
    else if s[i] == c then [s[..i]] + SplitAt(s[i + 1..], c, 0)
    else
      assert s[..i + 1] == s[..i] + [s[i]];
      SplitAt(s, c, i + 1)
  }

  /** Joining pieces and splitting on the separator gives the pieces back,
      provided no piece contains the separator. */
  lemma {:induction false} SplitJoin(parts: seq<string>, c: char)
    requires |parts| >= 1
    requires forall k :: 0 <= k < |parts| ==> c !in parts[k]
    ensures Split(Join(parts, [c]), c) == parts
  {
    SplitJoinAt(parts, c);
  }

  lemma {:induction false} SplitJoinAt(parts: seq<string>, c: char)
    requires |parts| >= 1
    requires forall k :: 0 <= k < |parts| ==> c !in parts[k]
    ensures SplitAt(Join(parts, [c]), c, 0) == parts
    decreases |parts|
  {
    var p := parts[0];
    if |parts| == 1 {
      NoSeparatorSplit(p, c, 0);
    } else {
      var tail := Join(parts[1..], [c]);
      var s := p + [c] + tail;
      assert Join(parts, [c]) == s;
      SkipPiece(s, c, p, 0);
      assert s[|p| + 1..] == tail;
      SplitJoinAt(parts[1..], c);
      assert s[..|p|] == p;
    }
  }

  lemma {:induction false} NoSeparatorSplit(s: string, c: char, i: nat)
    requires i <= |s|
    requires c !in s
    ensures SplitAt(s, c, i) == [s]
    decreases |s| - i
  {
    if i < |s| {
      assert s[i] in s;
      NoSeparatorSplit(s, c, i + 1);
    }
  }

  lemma {:induction false} SkipPiece(s: string, c: char, p: string, i: nat)
    requires i <= |p| < |s| && s[..|p|] == p && s[|p|] == c && c !in p
    ensures SplitAt(s, c, i) == [p] + SplitAt(s[|p| + 1..], c, 0)
    decreases |p| - i
  {
    if i < |p| {
      assert s[i] == p[i] && p[i] in p;
      SkipPiece(s, c, p, i + 1);
    }
  }

  /** Removes leading whitespace. */
  function TrimStart(s: string): (r: string)
    ensures |r| <= |s| && r == s[|s| - |r|..]
    ensures r == [] || !IsSpace(r[0])
    ensures forall k :: 0 <= k < |s| - |r| ==> IsSpace(s[k])
  {
    if |s| > 0 && IsSpace(s[0]) then TrimStart(s[1..]) else s
  }

  /** Removes trailing whitespace. */
  function TrimEnd(s: string): (r: string)
    ensures |r| <= |s| && r == s[..|r|]
    ensures r == [] || !IsSpace(r[|r| - 1])
    ensures forall k :: |r| <= k < |s| ==> IsSpace(s[k])
  {
    if |s| > 0 && IsSpace(s[|s| - 1]) then TrimEnd(s[..|s| - 1]) else s
  }

  /** `s.trim()`: s with its whitespace ends cut off. The result is the
      factor s[i..i + |r|] where everything before i and everything after it
      is whitespace, and it neither starts nor ends with whitespace. */
  function Trim(s: string): (r: string)
    ensures var i := |s| - |TrimStart(s)|;
      && i + |r| <= |s| && r == s[i..i + |r|]
      && (forall k :: 0 <= k < i ==> IsSpace(s[k]))
      && (forall k :: i + |r| <= k < |s| ==> IsSpace(s[k]))
    ensures r == [] || (!IsSpace(r[0]) && !IsSpace(r[|r| - 1]))
    ensures forall c :: c in r ==> c in s
  {
    var t := TrimStart(s);
    var r := TrimEnd(t);
    var i := |s| - |t|;
    assert forall k :: 0 <= k < i ==> IsSpace(s[k]);
    assert r == [] || !IsSpace(r[|r| - 1]);
    assert r != [] ==> r[0] == t[0];
    assert r == [] || !IsSpace(r[0]);
    TrimFactor(s, i, t, r);
    r
  }

  /** Cutting a whitespace tail off a suffix of s leaves a factor of s. */
  lemma TrimFactor(s: string, i: nat, t: string, r: string)
    requires i <= |s| && t == s[i..]
    requires |r| <= |t| && r == t[..|r|]
    requires forall k :: |r| <= k < |t| ==> IsSpace(t[k])
    ensures i + |r| <= |s| && r == s[i..i + |r|]
    ensures forall k :: i + |r| <= k < |s| ==> IsSpace(s[k])
    ensures forall c :: c in r ==> c in s
  {
    assert s[i..][..|r|] == s[i..i + |r|];
    forall k | i + |r| <= k < |s| ensures IsSpace(s[k]) {
      assert t[k - i] == s[k];
    }
    forall c | c in r ensures c in s {
      var m :| 0 <= m < |r| && r[m] == c;
      assert s[i + m] == c;
    }
  }

  /** A string with no whitespace at either end is its own trim. */
  lemma TrimmedFixed(s: string)
    requires s == [] || (!IsSpace(s[0]) && !IsSpace(s[|s| - 1]))
    ensures Trim(s) == s
  {
  }

  /** Decimal rendering of a natural number, as a template literal prints it. */
  function NatToString(n: nat): (r: string)
    ensures |r| >= 1
    ensures forall k :: 0 <= k < |r| ==> '0' <= r[k] <= '9'
  {
    if n < 10 then [Digit(n)] else NatToString(n / 10) + [Digit(n % 10)]
  }

  function Digit(d: nat): (c: char)
    requires d < 10
    ensures '0' <= c <= '9'
  {
    (('0' as int) + d) as char
  }

  /** Decimal rendering of an integer (a leading '-' for negatives). */
  function IntToString(i: int): string {
    if i < 0 then "-" + NatToString(-i) else NatToString(i)
  }

  /** Value of a string of decimal digits; the inverse of NatToString. */
  function ParseDigits(s: string): nat
    requires forall k :: 0 <= k < |s| ==> '0' <= s[k] <= '9'
  {
    if |s| == 0 then 0 else 10 * ParseDigits(s[..|s| - 1]) + ((s[|s| - 1] as int) - ('0' as int))
  }

  lemma {:induction false} ParseNatToString(n: nat)
    ensures ParseDigits(NatToString(n)) == n
  {
    var r := NatToString(n);
    if n >= 10 {
      var q, d := n / 10, n % 10;
      ParseNatToString(q);
      assert r == NatToString(q) + [Digit(d)];
      assert r[..|r| - 1] == NatToString(q);
      assert ParseDigits(r) == 10 * q + d;
    }
  }

  /** `s.padStart(width, [c])`. */
  function PadStart(s: string, width: nat, c: char): (r: string)
    ensures |r| == if |s| >= width then |s| else width
    ensures r[|r| - |s|..] == s
    ensures forall k :: 0 <= k < |r| - |s| ==> r[k] == c
  {
    if |s| >= width then s else seq(width - |s|, _ => c) + s
  }

  /** `s.replace(/\\/g, "/")`. */
  function SlashesForward(s: string): (r: string)
    ensures |r| == |s|
    ensures forall k :: 0 <= k < |s| ==> r[k] == (if s[k] == '\\' then '/' else s[k])
    ensures '\\' !in r
  {
    seq(|s|, k requires 0 <= k < |s| => if s[k] == '\\' then '/' else s[k])
  }
}
