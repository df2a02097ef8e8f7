/**
 The string operations HomeMatch borrows from Python: `str.isspace`/`str.strip`,
 `in` on strings, `str.startswith`, `str.split(sep)` with an explicit separator,
 `sep.join(parts)` and `str(int)`.
 */
module Text {
  import Wrappers

  /** The characters Python's `str.isspace()` accepts, which `str.strip()` removes. */
  predicate IsSpace(c: char) {
    || ('\t' <= c <= '\r')                   // \t \n \v \f \r
    || ('\U{1C}' <= c <= '\U{1F}')           // file, group, record and unit separators
    || c == ' ' || c == '\U{85}' || c == '\U{A0}' || c == '\U{1680}'
    || ('\U{2000}' <= c <= '\U{200A}')
    || c == '\U{2028}' || c == '\U{2029}' || c == '\U{202F}' || c == '\U{205F}' || c == '\U{3000}'
  }

  predicate AllSpace(s: string) {
    forall i :: 0 <= i < |s| ==> IsSpace(s[i])
  }

  /** Every character of `s[i..j]` is whitespace. */
  predicate SpaceRun(s: string, i: nat, j: nat)
    requires i <= j <= |s|
  {
    forall k :: i <= k < j ==> IsSpace(s[k])
  }

  /** A stripped string: empty, or neither its first nor its last character is whitespace. */
  predicate NoEdgeSpace(s: string) {
    s == [] || (!IsSpace(s[0]) && !IsSpace(s[|s| - 1]))
  }

  /** `s` is `m` surrounded by whitespace, with `lead` characters before it. */
  ghost predicate PaddedBy(s: string, lead: nat, m: string) {
    && lead + |m| <= |s|
    && s[lead..lead + |m|] == m
    && SpaceRun(s, 0, lead)
    && SpaceRun(s, lead + |m|, |s|)
  }

  /** Where the text of `s` starts, looking forward from `i`: the first non-whitespace index, or `|s|`. */
  function SkipSpaceFrom(s: string, i: nat): (a: nat)
    requires i <= |s|
    ensures i <= a <= |s|
    ensures SpaceRun(s, i, a)
    ensures a < |s| ==> !IsSpace(s[a])
    decreases |s| - i
  {
    if i < |s| && IsSpace(s[i]) then SkipSpaceFrom(s, i + 1) else i
  }

  /** Where the text of `s` ends, looking back from `j` but not past `lo`. */
  function SkipSpaceBack(s: string, lo: nat, j: nat): (b: nat)
    requires lo <= j <= |s|
    ensures lo <= b <= j
    ensures SpaceRun(s, b, j)
    ensures b > lo ==> !IsSpace(s[b - 1])
    decreases j
  {
    if j > lo && IsSpace(s[j - 1]) then SkipSpaceBack(s, lo, j - 1) else j
  }

  /** Python's `str.strip()` with no argument. */
  function Strip(s: string): (r: string)
    ensures NoEdgeSpace(r)
    ensures exists lead: nat :: PaddedBy(s, lead, r)
    ensures r == [] <==> AllSpace(s)
  {
    var a := SkipSpaceFrom(s, 0);
    var b := SkipSpaceBack(s, a, |s|);
    assert PaddedBy(s, a, s[a..b]);
    s[a..b]
  }

  lemma {:induction false} SkipSpaceFromStopsAt(s: string, i: nat, k: nat)
    requires i <= k < |s| && SpaceRun(s, i, k) && !IsSpace(s[k])
    ensures SkipSpaceFrom(s, i) == k
    decreases k - i
  {
    if i < k {
      assert IsSpace(s[i]);
      SkipSpaceFromStopsAt(s, i + 1, k);
    }
  }

  lemma {:induction false} SkipSpaceBackStopsAt(s: string, lo: nat, j: nat, e: nat)
    requires lo < e <= j <= |s| && SpaceRun(s, e, j) && !IsSpace(s[e - 1])
    ensures SkipSpaceBack(s, lo, j) == e
    decreases j
  {
    if e < j {
      assert IsSpace(s[j - 1]);
      SkipSpaceBackStopsAt(s, lo, j - 1, e);
    }
  }

  /** Strip undoes whitespace padding: `strip(w1 + m + w2) == m` for a stripped `m`. */
  lemma StripPadded(s: string, lead: nat, m: string)
    requires PaddedBy(s, lead, m) && NoEdgeSpace(m)
    ensures Strip(s) == m
  {
    if m == [] {
      assert AllSpace(s) by {
        forall i | 0 <= i < |s| ensures IsSpace(s[i]) {
          if i >= lead {
            assert lead + |m| <= i;
          }
        }
      }
    } else {
      assert s[lead] == m[0];
      SkipSpaceFromStopsAt(s, 0, lead);
      assert s[lead + |m| - 1] == m[|m| - 1];
      SkipSpaceBackStopsAt(s, lead, |s|, lead + |m|);
    }
  }

  /** Stripping twice is stripping once. */
  lemma StripIdempotent(s: string)
    ensures Strip(Strip(s)) == Strip(s)
  {
    var m := Strip(s);
    assert PaddedBy(m, 0, m);
    StripPadded(m, 0, m);
  }

  predicate IsPrefix(p: string, s: string) {
    |p| <= |s| && s[..|p|] == p
  }

  /** Python's `sub in s`. */
  predicate Contains(s: string, sub: string)
    decreases |s|
  {
    IsPrefix(sub, s) || (|s| > 0 && Contains(s[1..], sub))
  }

  /** `sub` occurs in `s` starting at index `i`. */
  predicate OccursAt(s: string, sub: string, i: nat) {
    i + |sub| <= |s| && s[i..i + |sub|] == sub
  }

  /** `Contains` is Python's `in`: the substring occurs at some index. */
  lemma {:induction false} ContainsOccurs(s: string, sub: string)
    ensures Contains(s, sub) <==> exists i: nat :: OccursAt(s, sub, i)
    decreases |s|
  {
    if IsPrefix(sub, s) {
      assert OccursAt(s, sub, 0);
    } else if |s| > 0 {
      ContainsOccurs(s[1..], sub);
      if Contains(s[1..], sub) {
        var i: nat :| OccursAt(s[1..], sub, i);
        assert s[1..][i..i + |sub|] == s[i + 1..i + 1 + |sub|];
        assert OccursAt(s, sub, i + 1);
      }
      if i: nat :| OccursAt(s, sub, i) {
        assert i != 0;
        assert s[i..i + |sub|] == s[1..][i - 1..i - 1 + |sub|];
        assert OccursAt(s[1..], sub, i - 1);
      }
    }
  }

  /** Python's `s.split(sep)`: cut at the leftmost occurrence, then continue after it. */
  function Split(s: string, sep: string): (parts: seq<string>)
    requires |sep| > 0
    ensures |parts| >= 1
    decreases |s|
  {
    if |s| < |sep| then [s]
    else if IsPrefix(sep, s) then [""] + Split(s[|sep|..], sep)
    else
      var rest := Split(s[1..], sep);
      [[s[0]] + rest[0]] + rest[1..]
  }

  /** Python's `sep.join(parts)`. */
  function Join(parts: seq<string>, sep: string): string
    decreases |parts|
  {
    if |parts| == 0 then ""
    else if |parts| == 1 then parts[0]
    else parts[0] + sep + Join(parts[1..], sep)
  }

  /** Number of positions at which `sep` occurs in `s`, overlapping occurrences included. */
  function MatchCount(s: string, sep: string): nat
    requires |sep| > 0
    decreases |s|
  {
    if |s| < |sep| then 0
    else (if IsPrefix(sep, s) then 1 else 0) + MatchCount(s[1..], sep)
  }

  /** No two occurrences of `sep` can overlap: no proper suffix of it is also a prefix. */
  predicate SelfDisjoint(sep: string) {
    forall k :: 0 < k < |sep| ==> sep[k..] != sep[..|sep| - k]
  }

  lemma CommaSeparatorsSelfDisjoint()
    ensures SelfDisjoint(",") && SelfDisjoint(", ")
  {
    assert ", "[1..] == [' '] && ", "[..1] == [','];
  }

  lemma JoinConsHead(c: char, parts: seq<string>, sep: string)
    requires |parts| >= 1
    ensures Join([[c] + parts[0]] + parts[1..], sep) == [c] + Join(parts, sep)
  {
    var q := [[c] + parts[0]] + parts[1..];
    if |parts| > 1 {
      assert q[1..] == parts[1..];
    }
  }

  /** Joining the pieces of a split with the same separator gives back the string. */
  lemma {:induction false} SplitJoin(s: string, sep: string)
    requires |sep| > 0
    ensures Join(Split(s, sep), sep) == s
    decreases |s|
  {
    if |s| < |sep| {
    } else if IsPrefix(sep, s) {
      var rest := Split(s[|sep|..], sep);
      SplitJoin(s[|sep|..], sep);
      assert ([""] + rest)[1..] == rest;
      assert s == sep + s[|sep|..];
    } else {
      var rest := Split(s[1..], sep);
      SplitJoin(s[1..], sep);
      JoinConsHead(s[0], rest, sep);
      assert s == [s[0]] + s[1..];
    }
  }

  lemma {:induction false} SplitHeadIsPrefix(s: string, sep: string)
    requires |sep| > 0
    ensures IsPrefix(Split(s, sep)[0], s)
    decreases |s|
  {
    if |s| >= |sep| && !IsPrefix(sep, s) {
      SplitHeadIsPrefix(s[1..], sep);
    }
  }

  /** No piece of a split contains the separator. */
  lemma {:induction false} SplitPiecesLackSeparator(s: string, sep: string)
    requires |sep| > 0
    ensures forall i :: 0 <= i < |Split(s, sep)| ==> !Contains(Split(s, sep)[i], sep)
    decreases |s|
  {
    var parts := Split(s, sep);
    if |s| < |sep| {
      NoRoomNoMatch(s, sep);
    } else if IsPrefix(sep, s) {
      SplitPiecesLackSeparator(s[|sep|..], sep);
      assert !Contains("", sep);
    } else {
      var rest := Split(s[1..], sep);
      SplitPiecesLackSeparator(s[1..], sep);
      SplitHeadIsPrefix(s[1..], sep);
      var head := [s[0]] + rest[0];
      assert head[1..] == rest[0];
      assert head == s[..|head|];
      assert !IsPrefix(sep, head);
      assert forall i :: 1 <= i < |parts| ==> parts[i] == rest[i];
    }
  }

  lemma {:induction false} NoRoomNoMatch(s: string, sep: string)
    requires |s| < |sep|
    ensures !Contains(s, sep)
    decreases |s|
  {
    if |s| > 0 {
      NoRoomNoMatch(s[1..], sep);
    }
  }

  /** Inside an occurrence of a self-disjoint separator no other occurrence starts. */
  lemma NoMatchInsideMatch(s: string, sep: string, j: nat)
    requires SelfDisjoint(sep) && IsPrefix(sep, s) && 0 < j < |sep|
    ensures !IsPrefix(sep, s[j..])
  {
    if |s[j..]| >= |sep| {
      var w := s[j..][..|sep|];
      assert w[..|sep| - j] == s[j..|sep|] == sep[j..];
      assert sep[j..] != sep[..|sep| - j];
    }
  }

  lemma {:induction false} MatchCountSkipsInside(s: string, sep: string, j: nat)
    requires |sep| > 0 && SelfDisjoint(sep) && IsPrefix(sep, s) && 1 <= j <= |sep|
    ensures MatchCount(s[1..], sep) == MatchCount(s[j..], sep)
    decreases j
  {
    if j > 1 {
      MatchCountSkipsInside(s, sep, j - 1);
      NoMatchInsideMatch(s, sep, j - 1);
      if |s[j - 1..]| >= |sep| {
        assert s[j - 1..][1..] == s[j..];
      }
    }
  }

  /** A split yields one piece more than there are separator occurrences. */
  lemma {:induction false} SplitCount(s: string, sep: string)
    requires |sep| > 0 && SelfDisjoint(sep)
    ensures |Split(s, sep)| == MatchCount(s, sep) + 1
    decreases |s|
  {
    if |s| < |sep| {
    } else if IsPrefix(sep, s) {
      SplitCount(s[|sep|..], sep);
      MatchCountSkipsInside(s, sep, |sep|);
    } else {
      SplitCount(s[1..], sep);
    }
  }

  lemma {:induction false} SplitWithoutSeparator(x: string, sep: string)
    requires |sep| > 0 && !Contains(x, sep)
    ensures Split(x, sep) == [x]
    decreases |x|
  {
    if |x| >= |sep| {
      SplitWithoutSeparator(x[1..], sep);
      assert [x[0]] + x[1..] == x;
    }
  }

  /** A piece free of a self-disjoint separator cannot start an occurrence that reaches into the next separator. */
  lemma NoSeparatorAcrossPiece(x: string, t: string, sep: string)
    requires |sep| > 0 && SelfDisjoint(sep) && !Contains(x, sep) && x != []
    ensures !IsPrefix(sep, x + sep + t)
  {
    var s := x + sep + t;
    if |x| >= |sep| {
      assert s[..|sep|] == x[..|sep|];
    } else {
      var k := |x|;
      assert s[..|sep|][k..] == sep[..|sep| - k];
      assert sep[k..] != sep[..|sep| - k];
    }
  }

  lemma {:induction false} SplitAfterFirstPiece(x: string, t: string, sep: string)
    requires |sep| > 0 && SelfDisjoint(sep) && !Contains(x, sep)
    ensures Split(x + sep + t, sep) == [x] + Split(t, sep)
    decreases |x|
  {
    var s := x + sep + t;
    if x == [] {
      assert s == sep + t;
      assert s[|sep|..] == t;
    } else {
      NoSeparatorAcrossPiece(x, t, sep);
      assert s[1..] == x[1..] + sep + t;
      SplitAfterFirstPiece(x[1..], t, sep);
      var rest := Split(s[1..], sep);
      assert rest[0] == x[1..] && rest[1..] == Split(t, sep);
      assert Split(s, sep) == [[s[0]] + rest[0]] + rest[1..];
      assert [s[0]] + rest[0] == x;
    }
  }

  /** Splitting a join gives the pieces back, when no piece contains the separator. */
  lemma {:induction false} JoinSplit(parts: seq<string>, sep: string)
    requires |sep| > 0 && SelfDisjoint(sep) && |parts| >= 1
    requires forall i :: 0 <= i < |parts| ==> !Contains(parts[i], sep)
    ensures Split(Join(parts, sep), sep) == parts
    decreases |parts|
  {
    if |parts| == 1 {
      SplitWithoutSeparator(parts[0], sep);
    } else {
      JoinSplit(parts[1..], sep);
      SplitAfterFirstPiece(parts[0], Join(parts[1..], sep), sep);
      assert [parts[0]] + parts[1..] == parts;
    }
  }

  /** `"".join(parts)`: the pieces one after another. */
  function Concat(parts: seq<string>): string
    decreases |parts|
  {
    if parts == [] then "" else parts[0] + Concat(parts[1..])
  }

  /** A piece in front comes first in the text. */
  lemma ConcatCons(first: string, rest: seq<string>)
    ensures Concat([first] + rest) == first + Concat(rest)
  {
    assert ([first] + rest)[1..] == rest;
  }

  /** Concatenating two lists of pieces concatenates their texts. */
  lemma {:induction false} ConcatAppend(a: seq<string>, b: seq<string>)
    ensures Concat(a + b) == Concat(a) + Concat(b)
    decreases |a|
  {
    if a != [] {
      assert (a + b)[1..] == a[1..] + b;
      ConcatAppend(a[1..], b);
    } else {
      assert a + b == b;
    }
  }

  /** The text from piece `k` on is piece `k` followed by the text of the pieces after it. */
  lemma ConcatFrom(parts: seq<string>, k: nat)
    requires k < |parts|
    ensures Concat(parts[k..]) == parts[k] + Concat(parts[k + 1..])
  {
    assert parts[k..][1..] == parts[k + 1..];
  }

  /** Piece `k` sits in the text right after the pieces before it. */
  lemma PieceAt(parts: seq<string>, k: nat)
    requires k < |parts|
    ensures |Concat(parts[..k])| + |parts[k]| <= |Concat(parts)|
    ensures Concat(parts)[|Concat(parts[..k])|..|Concat(parts[..k])| + |parts[k]|] == parts[k]
  {
    assert parts == parts[..k] + parts[k..];
    ConcatAppend(parts[..k], parts[k..]);
    ConcatFrom(parts, k);
    var before, rest := Concat(parts[..k]), Concat(parts[k + 1..]);
    assert Concat(parts) == before + (parts[k] + rest);
    assert (before + (parts[k] + rest))[|before|..|before| + |parts[k]|] == parts[k];
  }

  function DigitChar(d: nat): (c: char)
    requires d < 10
    ensures '0' <= c <= '9'
  {
    ('0' as int + d) as char
  }

  predicate IsDigit(c: char) {
    '0' <= c <= '9'
  }

  predicate IsDigits(s: string) {
    forall i :: 0 <= i < |s| ==> IsDigit(s[i])
  }

  /** Value of a string of decimal digits. */
  function DigitsValue(s: string): nat
    requires IsDigits(s)
  {
    if s == [] then 0
    else DigitsValue(s[..|s| - 1]) * 10 + (s[|s| - 1] as int - '0' as int)
  }

  /** Python's `str(n)` for a non-negative integer. */
  function NatToString(n: nat): (r: string)
    ensures |r| >= 1 && IsDigits(r)
    ensures |r| > 1 ==> r[0] != '0'
    decreases n
  {
    if n < 10 then [DigitChar(n)] else NatToString(n / 10) + [DigitChar(n % 10)]
  }

  /** Python's `str(i)`: a minus sign before the digits of a negative number. */
  function IntToString(i: int): (r: string)
    ensures |r| >= 1
    ensures i < 0 <==> r[0] == '-'
  {
    if i < 0 then "-" + NatToString(-i) else NatToString(i)
  }

  /** Reading the digits back gives the number that was printed. */
  lemma {:induction false} NatToStringValue(n: nat)
    ensures DigitsValue(NatToString(n)) == n
    decreases n
  {
    var r := NatToString(n);
    if n >= 10 {
      NatToStringValue(n / 10);
      assert r[..|r| - 1] == NatToString(n / 10);
    }
  }

  /** Number of decimal digits at the start of `s`. */
  function LeadingDigits(s: string): (k: nat)
    ensures k <= |s| && IsDigits(s[..k])
    ensures k < |s| ==> !IsDigit(s[k])
  {
    if s != [] && IsDigit(s[0]) then
      var k := 1 + LeadingDigits(s[1..]);
      assert s[..k] == [s[0]] + s[1..][..k - 1];
      k
    else 0
  }

  /** Reads an unsigned decimal number from the start of `s`; gives the number and what follows it. */
  function ReadNat(s: string): Wrappers.Option<(nat, string)> {
    var k := LeadingDigits(s);
    if k == 0 then Wrappers.None else Wrappers.Some((DigitsValue(s[..k]), s[k..]))
  }

  /** Reads a decimal number with an optional minus sign from the start of `s`. */
  function ReadInt(s: string): Wrappers.Option<(int, string)> {
    var negative := s != [] && s[0] == '-';
    var read := ReadNat(if negative then s[1..] else s);
    if read.None? then Wrappers.None
    else if negative then Wrappers.Some((-(read.value.0 as int), read.value.1))
    else Wrappers.Some((read.value.0 as int, read.value.1))
  }

  lemma {:induction false} LeadingDigitsOf(d: string, rest: string)
    requires IsDigits(d)
    requires rest == [] || !IsDigit(rest[0])
    ensures LeadingDigits(d + rest) == |d|
    decreases |d|
  {
    if d != [] {
      assert (d + rest)[1..] == d[1..] + rest;
      LeadingDigitsOf(d[1..], rest);
    }
  }

  lemma ReadNatToString(n: nat, rest: string)
    requires rest == [] || !IsDigit(rest[0])
    ensures ReadNat(NatToString(n) + rest) == Wrappers.Some((n, rest))
  {
    var digits := NatToString(n);
    LeadingDigitsOf(digits, rest);
    NatToStringValue(n);
    assert (digits + rest)[..|digits|] == digits;
    assert (digits + rest)[|digits|..] == rest;
  }

  /** Printing a number and reading it back, from text that goes on with a non-digit, gives the number and that text. */
  lemma ReadIntToString(i: int, rest: string)
    requires rest == [] || !IsDigit(rest[0])
    ensures ReadInt(IntToString(i) + rest) == Wrappers.Some((i, rest))
  {
    if i < 0 {
      var n: nat := -i;
      var t := NatToString(n) + rest;
      assert IntToString(i) + rest == "-" + t;
      ReadNatToString(n, rest);
      ReadNegative(t, n, rest);
    } else {
      ReadNatToString(i, rest);
      ReadUnsigned(NatToString(i) + rest, i, rest);
    }
  }

  lemma ReadNegative(t: string, n: nat, rest: string)
    requires ReadNat(t) == Wrappers.Some((n, rest))
    ensures ReadInt("-" + t) == Wrappers.Some((-(n as int), rest))
  {
    assert ("-" + t)[1..] == t;
  }

  lemma ReadUnsigned(s: string, n: nat, rest: string)
    requires s != [] && IsDigit(s[0])
    requires ReadNat(s) == Wrappers.Some((n, rest))
    ensures ReadInt(s) == Wrappers.Some((n, rest))
  {
  }
}
