/** The JavaScript `String.prototype` operations the script relies on, on `seq<char>`.
    Upper-casing is restricted to ASCII so that it keeps the length. */
module JsString {

  /** `c.toUpperCase()` for one character, restricted to the ASCII letters. */
  function UpperAscii(c: char): (u: char)
    ensures 'a' <= c <= 'z' ==> 'A' <= u <= 'Z' && u as int == c as int - 32
    ensures !('a' <= c <= 'z') ==> u == c
  {
    if 'a' <= c <= 'z' then (c as int - 32) as char else c
  }

  /** `s.toUpperCase()`: every character upper-cased in place, the length kept. */
  function ToUpperCase(s: string): (r: string)
    ensures |r| == |s|
    ensures forall i :: 0 <= i < |s| ==> r[i] == UpperAscii(s[i])
  {
    if s == [] then [] else [UpperAscii(s[0])] + ToUpperCase(s[1..])
  }

  /** Upper-casing twice is upper-casing once. */
  lemma ToUpperCaseIdempotent(s: string)
    ensures ToUpperCase(ToUpperCase(s)) == ToUpperCase(s)
  {
    var u := ToUpperCase(s);
    assert forall i :: 0 <= i < |u| ==> ToUpperCase(u)[i] == u[i];
  }

  /** The first position holding `c`, or -1: the search `replace` makes for its
      pattern (the script does not call `indexOf` itself). */
  function IndexOf(s: string, c: char): (r: int)
    ensures -1 <= r < |s|
    ensures 0 <= r ==> s[r] == c
    ensures forall j :: 0 <= j < |s| && (r == -1 || j < r) ==> s[j] != c
  {
    if s == [] then -1
    else if s[0] == c then 0
    else var k := IndexOf(s[1..], c); if k == -1 then -1 else k + 1
  }

  /** `s.lastIndexOf(c)`: the last position holding `c`, or -1. */
  function LastIndexOf(s: string, c: char): (r: int)
    ensures -1 <= r < |s|
    ensures 0 <= r ==> s[r] == c
    ensures forall j :: r < j < |s| ==> s[j] != c
  {
    if s == [] then -1
    else if s[|s| - 1] == c then |s| - 1
    else LastIndexOf(s[..|s| - 1], c)
  }

  /** `s.substr(start)` with the length omitted: a negative start counts back from
      the end and is clamped at 0; a start past the end gives "". */
  function SubstrFrom(s: string, start: int): (r: string)
    ensures |r| <= |s| && r == s[|s| - |r|..]
    ensures 0 <= start <= |s| ==> |r| == |s| - start
    ensures start < 0 ==> |r| == if -start < |s| then -start else |s|
  {
    var b := if start < 0 then (if |s| + start < 0 then 0 else |s| + start)
             else if start < |s| then start else |s|;
    s[b..]
  }

  /** `s.substr(start, length)`: the clamped start as above, and a length clamped to
      the range from 0 to what is left of `s`. */
  function Substr(s: string, start: int, length: int): (r: string)
    ensures |r| <= |s|
    ensures 0 <= start <= |s| ==>
              |r| == (if length < 0 then 0 else if length < |s| - start then length else |s| - start) &&
              r == s[start..start + |r|]
  {
    var b := if start < 0 then (if |s| + start < 0 then 0 else |s| + start)
             else if start < |s| then start else |s|;
    var n := if length < 0 then 0 else if length < |s| - b then length else |s| - b;
    s[b..b + n]
  }

  /** `s.replace(c, rep)` with a one-character string pattern: only the FIRST
      occurrence of `c` is replaced; without one, `s` is returned unchanged. The
      `$` substitution patterns a replacement string may hold are not modelled:
      the replacements the script passes contain none. */
  function ReplaceFirst(s: string, c: char, rep: string): (r: string)
    ensures (forall j :: 0 <= j < |s| ==> s[j] != c) ==> r == s
    ensures (exists j :: 0 <= j < |s| && s[j] == c) ==> |r| == |s| - 1 + |rep|
  {
    var i := IndexOf(s, c);
    if i < 0 then s else s[..i] + rep + s[i + 1..]
  }

  /** Where the first occurrence of `c` is at `i`, `ReplaceFirst` splices `rep` in
      place of exactly that character. */
  lemma ReplaceFirstAt(s: string, c: char, rep: string, i: nat)
    requires i < |s| && s[i] == c
    requires forall j :: 0 <= j < i ==> s[j] != c
    ensures ReplaceFirst(s, c, rep) == s[..i] + rep + s[i + 1..]
  {
    var k := IndexOf(s, c);
    assert k != -1 by { assert s[i] == c; }
    assert k == i;
  }

  /** The characters `String.prototype.trim` removes: the ECMAScript white space
      and line terminators. */
  predicate IsWhiteSpace(c: char)
  {
    var n := c as int;
    n == 0x09 || n == 0x0A || n == 0x0B || n == 0x0C || n == 0x0D || n == 0x20 ||
    n == 0xA0 || n == 0x1680 || (0x2000 <= n <= 0x200A) || n == 0x2028 || n == 0x2029 ||
    n == 0x202F || n == 0x205F || n == 0x3000 || n == 0xFEFF
  }

  /** Drops the white space at the end: what is left is a prefix of `s` that does
      not end in white space, and everything dropped was white space. */
  function TrimEnd(s: string): (r: string)
    ensures |r| <= |s| && r == s[..|r|]
    ensures forall j :: |r| <= j < |s| ==> IsWhiteSpace(s[j])
    ensures r == [] || !IsWhiteSpace(r[|r| - 1])
  {
    if s == [] || !IsWhiteSpace(s[|s| - 1]) then s else TrimEnd(s[..|s| - 1])
  }

  /** Drops the white space at the start: what is left is a suffix of `s` that does
      not start with white space, and everything dropped was white space. */
  function TrimStart(s: string): (r: string)
    ensures |r| <= |s| && r == s[|s| - |r|..]
    ensures forall j :: 0 <= j < |s| - |r| ==> IsWhiteSpace(s[j])
    ensures r == [] || !IsWhiteSpace(r[0])
  {
    if s == [] || !IsWhiteSpace(s[0]) then s else TrimStart(s[1..])
  }

  /** `r` is the slice of `s` at `a`, and everything of `s` outside it is white
      space. */
  predicate TrimmedAt(s: string, a: int, r: string)
  {
    0 <= a && a + |r| <= |s| && r == s[a..a + |r|] &&
    forall j :: 0 <= j < |s| && (j < a || a + |r| <= j) ==> IsWhiteSpace(s[j])
  }

  /** `s.trim()`: the slice of `s` left once the white space at both ends is
      removed. */
  function Trim(s: string): (r: string)
    ensures r == [] || (!IsWhiteSpace(r[0]) && !IsWhiteSpace(r[|r| - 1]))
    ensures |r| <= |s|
    ensures exists a :: TrimmedAt(s, a, r)
  {
    var e := TrimEnd(s);
    var r := TrimStart(e);
    var a := |e| - |r|;
    assert r == s[a..a + |r|];
    assert forall j :: 0 <= j < a || a + |r| <= j < |s| ==> IsWhiteSpace(s[j]) by {
      forall j | 0 <= j < a || a + |r| <= j < |s| ensures IsWhiteSpace(s[j]) {
        if j < a { assert s[j] == e[j]; }
      }
    }
    assert TrimmedAt(s, a, r);
    r
  }

  /** A string that neither starts nor ends with white space is its own trim. */
  lemma TrimNoOp(s: string)
    requires s != [] && !IsWhiteSpace(s[0]) && !IsWhiteSpace(s[|s| - 1])
    ensures Trim(s) == s
  {
    var e := TrimEnd(s);
    assert |e| == |s|;
    var t := TrimStart(e);
    assert |t| == |e|;
  }
}
