/**
 * The few Python built-ins whose exact behaviour the audio and service code relies on:
 * slicing with possibly negative bounds, `str.strip()`, `str.lower()` on ASCII letters and
 * `pathlib.PurePath.suffix`.
 */
module PyBuiltins {

  function Min(a: int, b: int): int { if a <= b then a else b }
  function Max(a: int, b: int): int { if a >= b then a else b }

  /** How Python resolves one bound of `s[i:j]` against a sequence of length `n`. */
  function SliceBound(i: int, n: nat): (b: nat)
    ensures b <= n
  {
    if i < 0 then (if i + n < 0 then 0 else i + n)
    else if i > n then n
    else i
  }

  /** Python's `s[i:j]`: negative bounds count from the end, bounds are clamped, an inverted range is empty. */
  function Slice<T>(s: seq<T>, i: int, j: int): (r: seq<T>)
    ensures 0 <= i <= j <= |s| ==> r == s[i..j]
    ensures 0 <= j <= i ==> r == []
    ensures i < 0 && j >= |s| ==> r == s[Max(0, |s| + i)..]
    ensures 0 <= i && j < 0 ==> r == (if i <= |s| + j then s[i..|s| + j] else [])
    ensures i < 0 && j < 0 ==> r == (if Max(0, |s| + i) <= |s| + j then s[Max(0, |s| + i)..|s| + j] else [])
    ensures |r| <= |s|
  {
    var a, b := SliceBound(i, |s|), SliceBound(j, |s|);
    if a < b then s[a..b] else []
  }

  /** The characters Python's `str.isspace()` accepts, which `str.strip()` removes. */
  const Whitespace: set<char> := {
    '\t', '\n', '\U{B}', '\U{C}', '\r', '\U{1C}', '\U{1D}', '\U{1E}', '\U{1F}', ' ', '\U{85}', '\U{A0}',
    '\U{1680}', '\U{2000}', '\U{2001}', '\U{2002}', '\U{2003}', '\U{2004}', '\U{2005}', '\U{2006}',
    '\U{2007}', '\U{2008}', '\U{2009}', '\U{200A}', '\U{2028}', '\U{2029}', '\U{202F}', '\U{205F}', '\U{3000}'
  }

  predicate IsSpace(c: char) {
    c in Whitespace
  }

  /** The number of whitespace characters `s` starts with. */
  function LeadingSpace(s: string): (n: nat)
    ensures n <= |s|
    ensures forall i | 0 <= i < n :: IsSpace(s[i])
    ensures n < |s| ==> !IsSpace(s[n])
  {
    if s != [] && IsSpace(s[0]) then 1 + LeadingSpace(s[1..]) else 0
  }

  /** The number of whitespace characters `s` ends with. */
  function TrailingSpace(s: string): (n: nat)
    ensures n <= |s|
    ensures forall i | |s| - n <= i < |s| :: IsSpace(s[i])
    ensures n < |s| ==> !IsSpace(s[|s| - n - 1])
  {
    if s != [] && IsSpace(s[|s| - 1]) then 1 + TrailingSpace(s[..|s| - 1]) else 0
  }

  /** `str.lstrip()`: drops the leading whitespace. */
  function TrimStart(s: string): string {
    s[LeadingSpace(s)..]
  }

  /** `str.rstrip()`: drops the trailing whitespace. */
  function TrimEnd(s: string): string {
    s[..|s| - TrailingSpace(s)]
  }

  /** `str.strip()`: the text between the leading and the trailing whitespace. */
  function Strip(s: string): (r: string)
    ensures r == [] <==> forall i | 0 <= i < |s| :: IsSpace(s[i])
    ensures r != [] ==> !IsSpace(r[0]) && !IsSpace(r[|r| - 1])
    ensures |r| <= |s|
  {
    TrimEnd(TrimStart(s))
  }

  /** What `str.strip()` keeps is a contiguous piece of the input, and everything it drops is whitespace. */
  lemma StripIsTrimmedSlice(s: string)
    ensures var r, k := Strip(s), |s| - |TrimStart(s)|;
            && k + |r| <= |s| && r == s[k..k + |r|]
            && (forall i | 0 <= i < k :: IsSpace(s[i]))
            && (forall i | k + |r| <= i < |s| :: IsSpace(s[i]))
  {
    var k := LeadingSpace(s);
    var t := s[k..];
    assert t[..|t| - TrailingSpace(t)] == s[k..k + |t| - TrailingSpace(t)];
    forall i | k + |t| - TrailingSpace(t) <= i < |s| ensures IsSpace(s[i]) {
      assert s[i] == t[i - k];
    }
  }

  /** Stripping twice is stripping once. */
  lemma StripIdempotent(s: string)
    ensures Strip(Strip(s)) == Strip(s)
  {
    var r := Strip(s);
    if r != [] {
      assert TrimStart(r) == r;
      assert TrimEnd(r) == r;
    }
  }

  /** `not s or not s.strip()`: the text is empty or whitespace only. */
  predicate IsBlank(s: string)
    ensures IsBlank(s) <==> forall i | 0 <= i < |s| :: IsSpace(s[i])
  {
    Strip(s) == []
  }

  /** `str.lower()` restricted to ASCII: 'A'..'Z' become 'a'..'z', every other character is kept. */
  function LowerChar(c: char): (l: char)
    ensures 'A' <= c <= 'Z' ==> 'a' <= l <= 'z' && l as int - c as int == 32
    ensures !('A' <= c <= 'Z') ==> l == c
  {
    if 'A' <= c <= 'Z' then (c as int + 32) as char else c
  }

  function Lower(s: string): (r: string)
    ensures |r| == |s| && forall i | 0 <= i < |s| :: r[i] == LowerChar(s[i])
  {
    seq(|s|, i requires 0 <= i < |s| => LowerChar(s[i]))
  }

  /** `str.rfind(c)`: the last index holding `c`, or -1. */
  function RFind(s: string, c: char): (i: int)
    ensures -1 <= i < |s|
    ensures i >= 0 ==> s[i] == c
    ensures forall j | i < j < |s| :: s[j] != c
  {
    if s == [] then -1
    else if s[|s| - 1] == c then |s| - 1
    else RFind(s[..|s| - 1], c)
  }

  /**
   * `PurePath.suffix` of a file name: from the last dot to the end, provided the dot is neither
   * the first nor the last character of the name; otherwise the empty string.
   */
  function Suffix(name: string): (r: string)
    ensures r == [] || (|r| >= 2 && r[0] == '.' && |r| < |name| && r == name[|name| - |r|..])
    ensures r != [] ==> forall j | 1 <= j < |r| :: r[j] != '.'
    ensures r != [] <==> exists i | 0 < i < |name| - 1 :: name[i] == '.' && forall j | i < j < |name| :: name[j] != '.'
  {
    var i := RFind(name, '.');
    if 0 < i < |name| - 1 then name[i..]
    else
      assert forall k | 0 < k < |name| - 1 && name[k] == '.' :: k <= i;
      ""
  }
}
