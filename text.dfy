/** Python string operations the recommender relies on, written out over `seq<char>`:
    lower-casing, whitespace stripping, splitting on a separator, substring search and
    decimal formatting of integers. Only ASCII letters are case-folded; whitespace is the
    full set Python's `str.strip()` removes. */
module Text {

  // ---------------------------------------------------------------- case

  function LowerChar(c: char): (d: char)
    ensures 'A' <= c <= 'Z' ==> d as int == c as int + 32
    ensures !('A' <= c <= 'Z') ==> d == c
  {
    if 'A' <= c <= 'Z' then (c as int + 32) as char else c
  }

  /** `s.lower()` restricted to ASCII letters. */
  function Lower(s: string): (r: string)
    ensures |r| == |s|
    ensures forall i :: 0 <= i < |s| ==> r[i] == LowerChar(s[i])
  {
    if s == [] then [] else [LowerChar(s[0])] + Lower(s[1..])
  }

  lemma LowerIdempotent(s: string)
    ensures Lower(Lower(s)) == Lower(s)
  {
    assert forall i :: 0 <= i < |s| ==> LowerChar(LowerChar(s[i])) == LowerChar(s[i]);
  }

  lemma LowerEmpty(s: string)
    ensures Lower(s) == [] <==> s == []
  {
  }

  // ---------------------------------------------------------------- whitespace

  /** Python's `str.isspace()` for one character, the set `str.strip()` removes: the ASCII
      controls 9-13 and 28-31, the space, NEL, NO-BREAK SPACE and the Unicode space
      separators, line and paragraph separators. */
  predicate IsSpace(c: char) {
    var n := c as int;
    || 9 <= n <= 13 || 28 <= n <= 32 || n == 0x85 || n == 0xA0 || n == 0x1680
    || 0x2000 <= n <= 0x200A || n == 0x2028 || n == 0x2029 || n == 0x202F || n == 0x205F
    || n == 0x3000
  }

  /** Number of leading whitespace characters of `s`. */
  function LeadCount(s: string): (k: nat)
    ensures k <= |s|
    ensures forall i :: 0 <= i < k ==> IsSpace(s[i])
    ensures k < |s| ==> !IsSpace(s[k])
  {
    if s != [] && IsSpace(s[0]) then 1 + LeadCount(s[1..]) else 0
  }

  /** Index where the trailing whitespace of `s` begins. */
  function TrailStart(s: string): (k: nat)
    ensures k <= |s|
    ensures forall i :: k <= i < |s| ==> IsSpace(s[i])
    ensures k > 0 ==> !IsSpace(s[k - 1])
  {
    if s != [] && IsSpace(s[|s| - 1]) then TrailStart(s[..|s| - 1]) else |s|
  }

  function StripLeft(s: string): string { s[LeadCount(s)..] }

  function StripRight(s: string): string { s[..TrailStart(s)] }

  /** `s.strip()`: drop leading and trailing whitespace. */
  function Strip(s: string): (r: string)
    ensures |r| <= |s|
    ensures r != [] ==> !IsSpace(r[0]) && !IsSpace(r[|r| - 1])
  {
    StripRight(StripLeft(s))
  }

  /** The trailing-whitespace boundary is determined by the two facts that characterise it. */
  lemma TrailStartUnique(s: string, k: nat)
    requires k <= |s|
    requires forall i :: k <= i < |s| ==> IsSpace(s[i])
    requires k > 0 ==> !IsSpace(s[k - 1])
    ensures TrailStart(s) == k
  {
  }

  lemma LeadCountUnique(s: string, k: nat)
    requires k <= |s|
    requires forall i :: 0 <= i < k ==> IsSpace(s[i])
    requires k < |s| ==> !IsSpace(s[k])
    ensures LeadCount(s) == k
  {
  }

  /** Stripping the right end of a concatenation only touches the left part when the right
      part is whitespace throughout. */
  lemma StripRightAppend(a: string, b: string)
    ensures TrailStart(b) > 0 ==> StripRight(a + b) == a + StripRight(b)
    ensures TrailStart(b) == 0 ==> StripRight(a + b) == StripRight(a)
  {
    var tb := TrailStart(b);
    var ab := a + b;
    if tb > 0 {
      TrailStartUnique(ab, |a| + tb);
      assert ab[..|a| + tb] == a + b[..tb];
    } else {
      var ta := TrailStart(a);
      assert forall i :: ta <= i < |ab| ==> IsSpace(ab[i]) by {
        forall i | ta <= i < |ab| ensures IsSpace(ab[i]) {
          if i < |a| { assert ab[i] == a[i]; } else { assert ab[i] == b[i - |a|]; }
        }
      }
      TrailStartUnique(ab, ta);
      assert ab[..ta] == a[..ta];
    }
  }

  /** Stripping the left end of a concatenation whose left part starts with a non-space. */
  lemma StripLeftAppend(a: string, b: string)
    ensures LeadCount(a) < |a| ==> StripLeft(a + b) == StripLeft(a) + b
  {
    var la := LeadCount(a);
    if la < |a| {
      var ab := a + b;
      forall i | 0 <= i < la
        ensures IsSpace(ab[i])
      {
        assert ab[i] == a[i];
      }
      assert ab[la] == a[la];
      LeadCountUnique(ab, la);
      DropAppend(a, b, la);
    }
  }

  lemma DropAppend(a: string, b: string, k: nat)
    requires k <= |a|
    ensures (a + b)[k..] == a[k..] + b
  {
  }

  /** A text that neither starts nor ends with whitespace is its own strip. */
  lemma StripTrimmed(s: string)
    requires s != [] && !IsSpace(s[0]) && !IsSpace(s[|s| - 1])
    ensures Strip(s) == s
  {
    LeadCountUnique(s, 0);
    assert StripLeft(s) == s;
    TrailStartUnique(s, |s|);
  }

  lemma StripIdempotent(s: string)
    ensures Strip(Strip(s)) == Strip(s)
  {
    var r := Strip(s);
    LeadCountUnique(r, 0);
    assert StripLeft(r) == r;
    TrailStartUnique(r, |r|);
  }

  // ---------------------------------------------------------------- prefixes and search

  predicate StartsWith(s: string, p: string) {
    |p| <= |s| && s[..|p|] == p
  }

  predicate EndsWith(s: string, p: string) {
    |p| <= |s| && s[|s| - |p|..] == p
  }

  lemma AppendAffixes(a: string, b: string)
    ensures StartsWith(a + b, a) && EndsWith(a + b, b)
  {
    assert (a + b)[..|a|] == a;
    assert (a + b)[|a|..] == b;
  }

  lemma EndsWithAppend(a: string, b: string, z: string)
    requires EndsWith(b, z)
    ensures EndsWith(a + b, z)
  {
    assert (a + b)[|a + b| - |z|..] == b[|b| - |z|..];
  }

  lemma StartsWithAppend(a: string, b: string, x: string)
    requires StartsWith(a, x)
    ensures StartsWith(a + b, x)
  {
    assert (a + b)[..|x|] == a[..|x|];
  }

  /** Python's `needle in hay` for strings. */
  predicate Contains(hay: string, needle: string)
    decreases |hay|
  {
    StartsWith(hay, needle) || (hay != [] && Contains(hay[1..], needle))
  }

  /** `s.find(c)`: the first index of `c`, or -1. */
  function Find(s: string, c: char): (k: int)
    ensures -1 <= k < |s|
    ensures k == -1 <==> c !in s
    ensures k >= 0 ==> s[k] == c && c !in s[..k]
  {
    if s == [] then -1
    else if s[0] == c then 0
    else var k := Find(s[1..], c); if k == -1 then -1 else k + 1
  }

  /** `s.rfind(c)`: the last index of `c`, or -1. */
  function RFind(s: string, c: char): (k: int)
    ensures -1 <= k < |s|
    ensures k == -1 <==> c !in s
    ensures k >= 0 ==> s[k] == c && c !in s[k + 1..]
  {
    if s == [] then -1
    else if s[|s| - 1] == c then |s| - 1
    else
      var k := RFind(s[..|s| - 1], c);
      assert s[..|s| - 1] + [s[|s| - 1]] == s;
      k
  }

  // ---------------------------------------------------------------- split and join

  /** `s.split(sep)` for a non-empty separator: left to right, non-overlapping. */
  function Split(s: string, sep: string): (r: seq<string>)
    requires sep != []
    ensures |r| >= 1
    decreases |s|
  {
    if |s| < |sep| then [s]
    else if s[..|sep|] == sep then [""] + Split(s[|sep|..], sep)
    else
      var rest := Split(s[1..], sep);
      [[s[0]] + rest[0]] + rest[1..]
  }

  /** `sep.join(parts)`. */
  function Join(parts: seq<string>, sep: string): string
    requires |parts| >= 1
  {
    if |parts| == 1 then parts[0] else parts[0] + sep + Join(parts[1..], sep)
  }

  lemma {:induction false} JoinConsHead(c: char, parts: seq<string>, sep: string)
    requires |parts| >= 1
    ensures Join([[c] + parts[0]] + parts[1..], sep) == [c] + Join(parts, sep)
  {
    var q := [[c] + parts[0]] + parts[1..];
    assert q[1..] == parts[1..];
  }

  /** Splitting loses nothing: joining the pieces with the separator gives back the text. */
  lemma {:induction false} SplitJoin(s: string, sep: string)
    requires sep != []
    ensures Join(Split(s, sep), sep) == s
    decreases |s|, 1
  {
    if |s| < |sep| {
    } else if s[..|sep|] == sep {
      SplitJoinAtSeparator(s, sep);
    } else {
      SplitJoinAtChar(s, sep);
    }
  }

  lemma {:induction false} SplitJoinAtSeparator(s: string, sep: string)
    requires sep != [] && |sep| <= |s| && s[..|sep|] == sep
    ensures Join(Split(s, sep), sep) == s
    decreases |s|, 0
  {
    var tail := s[|sep|..];
    SplitJoin(tail, sep);
    var r := [""] + Split(tail, sep);
    assert r[1..] == Split(tail, sep);
    assert Join(r, sep) == "" + sep + Join(Split(tail, sep), sep);
    assert s == sep + tail;
  }

  lemma {:induction false} SplitJoinAtChar(s: string, sep: string)
    requires sep != [] && |sep| <= |s| && s[..|sep|] != sep
    ensures Join(Split(s, sep), sep) == s
    decreases |s|, 0
  {
    var tail := s[1..];
    SplitJoin(tail, sep);
    JoinConsHead(s[0], Split(tail, sep), sep);
    assert s == [s[0]] + tail;
  }

  /** Splitting a text that does not hold the separator yields that text alone. */
  lemma {:induction false} SplitNoSeparator(s: string, sep: string)
    requires sep != []
    requires !Contains(s, sep)
    ensures Split(s, sep) == [s]
    decreases |s|
  {
    if |s| >= |sep| {
      assert !StartsWith(s, sep);
      SplitNoSeparator(s[1..], sep);
      assert [s[0]] + s[1..] == s;
    }
  }

  lemma {:induction false} ContainsLength(s: string, sep: string)
    requires Contains(s, sep)
    ensures |sep| <= |s|
    decreases |s|
  {
    if !StartsWith(s, sep) {
      ContainsLength(s[1..], sep);
    }
  }

  /** Splitting a text that holds the separator yields at least two pieces. */
  lemma {:induction false} SplitWithSeparator(s: string, sep: string)
    requires sep != []
    requires Contains(s, sep)
    ensures |Split(s, sep)| >= 2
    decreases |s|
  {
    ContainsLength(s, sep);
    if s[..|sep|] != sep {
      SplitWithSeparator(s[1..], sep);
    }
  }

  /** The first piece is a prefix of the text. */
  lemma {:induction false} SplitHeadPrefix(s: string, sep: string)
    requires sep != []
    ensures Split(s, sep)[0] <= s
    decreases |s|
  {
    if |s| >= |sep| && s[..|sep|] != sep {
      SplitHeadPrefix(s[1..], sep);
      assert s == [s[0]] + s[1..];
    }
  }

  /** No piece holds the separator. */
  lemma {:induction false} SplitPiecesFree(s: string, sep: string)
    requires sep != []
    ensures forall i :: 0 <= i < |Split(s, sep)| ==> !Contains(Split(s, sep)[i], sep)
    decreases |s|
  {
    if |s| < |sep| {
      if Contains(s, sep) {
        ContainsLength(s, sep);
      }
    } else if s[..|sep|] == sep {
      SplitPiecesFree(s[|sep|..], sep);
      assert !Contains("", sep);
    } else {
      var rest := Split(s[1..], sep);
      SplitPiecesFree(s[1..], sep);
      SplitHeadPrefix(s[1..], sep);
      var head := [s[0]] + rest[0];
      assert head <= s;
      assert !StartsWith(head, sep);
      assert head[1..] == rest[0];
      assert !Contains(head, sep);
    }
  }

  /** The split is leftmost: when the separator occurs, the first piece runs up to its first
      occurrence. */
  lemma {:induction false} SplitAtFirst(s: string, sep: string)
    requires sep != [] && Contains(s, sep)
    ensures |Split(s, sep)| >= 2
    ensures StartsWith(s, Split(s, sep)[0] + sep)
    ensures forall k :: 0 <= k < |Split(s, sep)[0]| ==> !StartsWith(s[k..], sep)
    decreases |s|, 1
  {
    ContainsLength(s, sep);
    SplitWithSeparator(s, sep);
    if s[..|sep|] != sep {
      SplitAtFirstPastChar(s, sep);
    }
  }

  /** After the first piece and the separator, the remaining pieces are the split of the
      rest of the text. */
  lemma {:induction false} SplitRest(s: string, sep: string)
    requires sep != [] && Contains(s, sep)
    ensures |Split(s, sep)| >= 2 && |Split(s, sep)[0]| + |sep| <= |s|
    ensures Split(s, sep)[1..] == Split(s[|Split(s, sep)[0]| + |sep|..], sep)
    decreases |s|
  {
    assert |Split(s, sep)| >= 2 && |Split(s, sep)[0]| + |sep| <= |s| by {
      SplitAtFirst(s, sep);
    }
    if s[..|sep|] == sep {
      assert Split(s, sep) == [""] + Split(s[|sep|..], sep);
      assert s[|Split(s, sep)[0]| + |sep|..] == s[|sep|..];
    } else {
      assert !StartsWith(s, sep);
      var rest := Split(s[1..], sep);
      SplitRest(s[1..], sep);
      var n := |rest[0]| + |sep|;
      assert Split(s, sep) == [[s[0]] + rest[0]] + rest[1..];
      assert |Split(s, sep)[0]| + |sep| == n + 1;
      assert s[|Split(s, sep)[0]| + |sep|..] == s[1..][n..];
      assert Split(s, sep)[1..] == rest[1..] == Split(s[1..][n..], sep);
    }
  }

  /** The text does not start with the separator: the first piece grows by the first
      character. */
  lemma {:induction false} SplitAtFirstPastChar(s: string, sep: string)
    requires sep != [] && Contains(s, sep) && |sep| <= |s| && s[..|sep|] != sep
    ensures StartsWith(s, Split(s, sep)[0] + sep)
    ensures forall k :: 0 <= k < |Split(s, sep)[0]| ==> !StartsWith(s[k..], sep)
    decreases |s|, 0
  {
    var rest := Split(s[1..], sep);
    SplitAtFirst(s[1..], sep);
    assert Split(s, sep)[0] == [s[0]] + rest[0];
    FirstOccurrenceCons(s, sep, rest[0]);
  }

  /** If the separator first occurs in the tail after `p`, and not at the very start, it
      first occurs in the text after the first character followed by `p`. */
  lemma FirstOccurrenceCons(s: string, sep: string, p: string)
    requires s != [] && !StartsWith(s, sep)
    requires StartsWith(s[1..], p + sep)
    requires forall k :: 0 <= k < |p| ==> !StartsWith(s[1..][k..], sep)
    ensures StartsWith(s, [s[0]] + p + sep)
    ensures forall k :: 0 <= k < |p| + 1 ==> !StartsWith(s[k..], sep)
  {
    assert s[..|p| + |sep| + 1] == [s[0]] + s[1..][..|p| + |sep|];
    forall k | 0 < k < |p| + 1
      ensures !StartsWith(s[k..], sep)
    {
      assert s[k..] == s[1..][k - 1..];
    }
  }

  // ---------------------------------------------------------------- decimal numbers

  predicate IsDigit(c: char) { '0' <= c <= '9' }

  function DigitChar(d: nat): (c: char)
    requires d < 10
    ensures IsDigit(c)
  {
    ('0' as int + d) as char
  }

  /** `str(n)` for a natural number. */
  function NatToString(n: nat): (r: string)
    ensures |r| >= 1
    ensures forall i :: 0 <= i < |r| ==> IsDigit(r[i])
    ensures r[0] == '0' ==> n == 0
  {
    if n < 10 then [DigitChar(n)] else NatToString(n / 10) + [DigitChar(n % 10)]
  }

  /** Value of a string of decimal digits. */
  function ParseDigits(s: string): nat
    requires forall i :: 0 <= i < |s| ==> IsDigit(s[i])
  {
    if s == [] then 0
    else
      assert IsDigit(s[|s| - 1]);
      10 * ParseDigits(s[..|s| - 1]) + (s[|s| - 1] as int - '0' as int)
  }

  /** Reading back the decimal text of `n` gives `n`. */
  lemma {:induction false} ParseNatToString(n: nat)
    ensures ParseDigits(NatToString(n)) == n
  {
    if n >= 10 {
      ParseNatToString(n / 10);
      var s := NatToString(n);
      assert s[..|s| - 1] == NatToString(n / 10);
    }
  }

  lemma NatToStringInjective(a: nat, b: nat)
    ensures NatToString(a) == NatToString(b) ==> a == b
  {
    ParseNatToString(a);
    ParseNatToString(b);
  }

  /** `str(i)` for any integer. */
  function IntToString(i: int): (r: string)
    ensures r != []
    ensures i < 0 <==> r[0] == '-'
  {
    if i < 0 then "-" + NatToString(-i) else NatToString(i)
  }

  function Repeat(c: char, n: nat): (r: string)
    ensures |r| == n
    ensures forall k :: 0 <= k < n ==> r[k] == c
  {
    if n == 0 then [] else [c] + Repeat(c, n - 1)
  }

  /** Left-pad `s` with `'0'` up to `width` characters. */
  function PadZeros(s: string, width: nat): (r: string)
    ensures |r| == if |s| < width then width else |s|
    ensures EndsWith(r, s)
  {
    if |s| < width then Repeat('0', width - |s|) + s else s
  }

  /** Python's `f"{i:0{width}d}"`: zero padding goes after the sign and the sign counts
      towards the width. */
  function FormatZeroPadded(i: int, width: nat): (r: string)
    ensures |r| >= width
    ensures i >= 0 ==> r == PadZeros(NatToString(i), width)
    ensures i < 0 ==> |r| > 0 && r[0] == '-'
  {
    if i < 0 then "-" + PadZeros(NatToString(-i), if width > 0 then width - 1 else 0)
    else PadZeros(NatToString(i), width)
  }

  function Pow10(k: nat): (p: nat)
    ensures p >= 1
  {
    if k == 0 then 1 else 10 * Pow10(k - 1)
  }

  /** A number below 10^k has at most k decimal digits. */
  lemma {:induction false} NatToStringLength(n: nat, k: nat)
    requires k >= 1 && n < Pow10(k)
    ensures |NatToString(n)| <= k
  {
    if n >= 10 {
      NatToStringLength(n / 10, k - 1);
    }
  }
}
