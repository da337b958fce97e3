/**
 * The string operations the generator uses: `split`, `trim`,
 * `toUpperCase`, `includes`, `startsWith`, `replace` and the regular
 * expressions it tests identifiers against.
 */
module Text {

  /** `s.split(c)`: the pieces between the occurrences of `c`. */
  function Split(s: string, c: char): (parts: seq<string>)
    ensures |parts| >= 1
    ensures forall p :: p in parts ==> c !in p
    decreases |s|
  {
    if c !in s then [s]
    else
      var i := IndexOf(s, c);
      [s[..i]] + Split(s[i + 1..], c)
  }

  /** The position of the first `c` in `s`. */
  function IndexOf(s: string, c: char): (i: nat)
    requires c in s
    ensures i < |s| && s[i] == c && c !in s[..i]
  {
    if s[0] == c then 0 else 1 + IndexOf(s[1..], c)
  }

  /** Joining the pieces of a split with the separator gives the string back. */
  lemma {:induction false} SplitJoin(s: string, c: char)
    ensures JoinWith(Split(s, c), c) == s
    decreases |s|
  {
    if c in s {
      var i := IndexOf(s, c);
      SplitJoin(s[i + 1..], c);
      assert s == s[..i] + [c] + s[i + 1..];
    }
  }

  function JoinWith(parts: seq<string>, c: char): string
  {
    if parts == [] then ""
    else if |parts| == 1 then parts[0]
    else parts[0] + [c] + JoinWith(parts[1..], c)
  }

  /** `s.split(c)[0]`: everything before the first `c`. */
  function BeforeFirst(s: string, c: char): (r: string)
    ensures c !in r
    ensures r <= s
    ensures c !in s ==> r == s
    ensures c in s ==> s[|r|] == c
  {
    if c in s then s[..IndexOf(s, c)] else s
  }

  /** `s.split(c).pop()`: everything after the last `c`. */
  function AfterLast(s: string, c: char): (r: string)
    ensures c !in r
    ensures |r| <= |s| && r == s[|s| - |r|..]
    ensures c !in s ==> r == s
    ensures c in s ==> s[|s| - |r| - 1] == c
    decreases |s|
  {
    if c !in s then s
    else
      var i := IndexOf(s, c);
      var rest := AfterLast(s[i + 1..], c);
      assert s[i + 1..][|s[i + 1..]| - |rest|..] == s[|s| - |rest|..];
      rest
  }

  /** `s.includes(sub)` */
  predicate Contains(s: string, sub: string)
  {
    exists i | 0 <= i <= |s| - |sub| :: OccursAt(s, sub, i)
  }

  predicate OccursAt(s: string, sub: string, i: int)
  {
    0 <= i <= |s| - |sub| && s[i..i + |sub|] == sub
  }

  /** `s.startsWith(p)` */
  predicate StartsWith(s: string, p: string)
  {
    p <= s
  }

  // ---------------------------------------------------------------------------
  // Whitespace and case
  // ---------------------------------------------------------------------------

  /** The characters `String.prototype.trim` removes that this model knows. */
  predicate IsSpace(c: char)
  {
    c == ' ' || c == '\t' || c == '\n' || c == '\r' || c == '\U{000B}' || c == '\U{000C}' || c == '\U{00A0}' || c == '\U{FEFF}'
  }

  function TrimStart(s: string): (r: string)
    ensures |r| <= |s| && r == s[|s| - |r|..]
    ensures r == [] || !IsSpace(r[0])
    ensures forall i :: 0 <= i < |s| - |r| ==> IsSpace(s[i])
  {
    if s != [] && IsSpace(s[0]) then TrimStart(s[1..]) else s
  }

  function TrimEnd(s: string): (r: string)
    ensures |r| <= |s| && r == s[..|r|]
    ensures r == [] || !IsSpace(r[|r| - 1])
    ensures forall i :: |r| <= i < |s| ==> IsSpace(s[i])
  {
    if s != [] && IsSpace(s[|s| - 1]) then TrimEnd(s[..|s| - 1]) else s
  }

  /** `s.trim()`: the string without leading and trailing white space. */
  function Trim(s: string): (r: string)
    ensures r == [] || (!IsSpace(r[0]) && !IsSpace(r[|r| - 1]))
  {
    TrimEnd(TrimStart(s))
  }

  /** What `trim` removes is white space at either end, and nothing else. */
  lemma TrimIsSlice(s: string)
    ensures exists i :: SlicedAt(s, Trim(s), i)
  {
    var t := TrimStart(s);
    var r := TrimEnd(t);
    var i := |s| - |t|;
    assert SlicedAt(s, r, i) by {
      assert t == s[i..];
      assert r == s[i..i + |r|];
      forall k | i + |r| <= k < |s| ensures IsSpace(s[k]) {
        assert t[k - i] == s[k];
      }
    }
    assert Trim(s) == r;
  }

  /** `r` is the slice of `s` at `i`, with only white space before and after it. */
  predicate SlicedAt(s: string, r: string, i: int)
  {
    0 <= i <= i + |r| <= |s| && r == s[i..i + |r|] &&
    (forall k :: 0 <= k < i ==> IsSpace(s[k])) &&
    (forall k :: i + |r| <= k < |s| ==> IsSpace(s[k]))
  }

  function UpperChar(c: char): char
  {
    if 'a' <= c <= 'z' then (c as int - 'a' as int + 'A' as int) as char else c
  }

  /** `s.toUpperCase()` on the ASCII letters. */
  function ToUpper(s: string): (r: string)
    ensures |r| == |s|
    ensures forall i :: 0 <= i < |s| ==> r[i] == UpperChar(s[i])
  {
    seq(|s|, i requires 0 <= i < |s| => UpperChar(s[i]))
  }

  // ---------------------------------------------------------------------------
  // Regular expressions
  // ---------------------------------------------------------------------------

  predicate IsDigit(c: char)
  {
    '0' <= c <= '9'
  }

  /** `/^\d+$/` */
  predicate IsDigits(s: string)
  {
    |s| > 0 && forall i :: 0 <= i < |s| ==> IsDigit(s[i])
  }

  /** `/^\d+\.\d+\.\d+$/`: three non-empty runs of digits separated by dots. */
  predicate IsSemVer(s: string)
  {
    var parts := Split(s, '.');
    |parts| == 3 && IsDigits(parts[0]) && IsDigits(parts[1]) && IsDigits(parts[2])
  }

  /** Three pieces joined with dots. */
  function Dotted(a: string, b: string, c: string): string
  {
    a + "." + b + "." + c
  }

  /** Splitting at a first separator peels off the piece before it. */
  lemma SplitPeel(a: string, c: char, b: string)
    requires c !in a
    ensures Split(a + [c] + b, c) == [a] + Split(b, c)
  {
    var s := a + [c] + b;
    assert s[|a|] == c;
    assert s[..|a|] == a;
    var i := IndexOf(s, c);
    assert i == |a|;
    assert s[i + 1..] == b;
  }

  /**
   * `/^\d+\.\d+\.\d+$/` matches exactly the strings made of three runs of
   * digits joined with dots.
   */
  lemma SemVerShape(s: string)
    ensures IsSemVer(s) <==> exists a, b, c :: IsDigits(a) && IsDigits(b) && IsDigits(c) && s == Dotted(a, b, c)
  {
    if IsSemVer(s) {
      var p := Split(s, '.');
      SplitJoin(s, '.');
      assert JoinWith(p[2..], '.') == p[2];
      assert JoinWith(p[1..], '.') == p[1] + ['.'] + p[2];
      assert JoinWith(p, '.') == p[0] + ['.'] + (p[1] + ['.'] + p[2]);
      assert s == Dotted(p[0], p[1], p[2]);
    }
    forall a, b, c | IsDigits(a) && IsDigits(b) && IsDigits(c) && s == Dotted(a, b, c)
      ensures IsSemVer(s)
    {
      DottedSplits(a, b, c);
    }
  }

  lemma DottedSplits(a: string, b: string, c: string)
    requires IsDigits(a) && IsDigits(b) && IsDigits(c)
    ensures Split(Dotted(a, b, c), '.') == [a, b, c]
  {
    assert '.' !in a && '.' !in b && '.' !in c;
    assert Dotted(a, b, c) == a + ['.'] + (b + ['.'] + c);
    SplitPeel(a, '.', b + ['.'] + c);
    SplitPeel(b, '.', c);
  }

  /** `/^[a-zA-Z0-9_.]+$/` */
  predicate IsDpdName(s: string)
  {
    |s| > 0 && forall i :: 0 <= i < |s| ==> ('a' <= s[i] <= 'z' || 'A' <= s[i] <= 'Z' || IsDigit(s[i]) || s[i] == '_' || s[i] == '.')
  }

  /** `/^[A-Z]{2}$/` */
  predicate IsCountryCode(s: string)
  {
    |s| == 2 && 'A' <= s[0] <= 'Z' && 'A' <= s[1] <= 'Z'
  }

  /** The number of digits at the end of `s`. */
  function TrailingDigits(s: string): (n: nat)
    ensures n <= |s|
    ensures forall i :: |s| - n <= i < |s| ==> IsDigit(s[i])
    ensures n < |s| ==> !IsDigit(s[|s| - n - 1])
  {
    if s != [] && IsDigit(s[|s| - 1]) then 1 + TrailingDigits(s[..|s| - 1]) else 0
  }

  /** Where `/v\d+$/` matches `s`: a `v` followed by one or more digits up to the end. */
  predicate VersionSuffixAt(s: string, i: int)
  {
    0 <= i < |s| - 1 && s[i] == 'v' && IsDigits(s[i + 1..])
  }

  /**
   * `s.replace(/v\d+$/, rep)`: the trailing `v<digits>` is replaced; a
   * string without one is returned unchanged.
   */
  function ReplaceVersionSuffix(s: string, rep: string): (r: string)
    ensures forall i :: VersionSuffixAt(s, i) ==> r == s[..i] + rep
    ensures (forall i :: !VersionSuffixAt(s, i)) ==> r == s
  {
    var n := TrailingDigits(s);
    if n > 0 && n < |s| && s[|s| - n - 1] == 'v' then
      var i := |s| - n - 1;
      assert VersionSuffixAt(s, i);
      forall j ensures VersionSuffixAt(s, j) ==> j == i {
        OnlyTrailingSuffix(s, j);
      }
      s[..i] + rep
    else
      forall j ensures !VersionSuffixAt(s, j) {
        OnlyTrailingSuffix(s, j);
      }
      s
  }

  /** A `v<digits>` suffix can only start right before the trailing digits. */
  lemma OnlyTrailingSuffix(s: string, j: int)
    ensures VersionSuffixAt(s, j) ==> var n := TrailingDigits(s); n == |s| - j - 1 && s[|s| - n - 1] == 'v'
  {
    if VersionSuffixAt(s, j) {
      var n := TrailingDigits(s);
      forall k | j < k < |s| ensures IsDigit(s[k]) {
        assert s[j + 1..][k - j - 1] == s[k];
      }
      assert !IsDigit(s[j]);
    }
  }

  /** `s.replace(/\./g, '-')` */
  function DotsToDashes(s: string): (r: string)
    ensures |r| == |s|
    ensures forall i :: 0 <= i < |s| ==> r[i] == if s[i] == '.' then '-' else s[i]
    ensures '.' !in r
  {
    seq(|s|, i requires 0 <= i < |s| => if s[i] == '.' then '-' else s[i])
  }
}
