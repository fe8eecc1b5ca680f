/** The string operations of JavaScript that the pages and widgets use
    (`startsWith`, `endsWith`, `includes`, `toLowerCase`, `trim`,
    `split`/`join` on one separator character), on strings seen as
    sequences of characters, plus reading and writing decimal numbers. */
module Text {

  datatype Option<T> = None | Some(value: T)

  // ---------------------------------------------------------------------
  // Prefixes, suffixes and substrings
  // ---------------------------------------------------------------------

  /** `s.startsWith(p)` */
  predicate StartsWith(s: string, p: string) {
    |p| <= |s| && s[..|p|] == p
  }

  /** `s.endsWith(p)` */
  predicate EndsWith(s: string, p: string) {
    |p| <= |s| && s[|s| - |p|..] == p
  }

  /** `k` occurs in `s` at index `i`. */
  predicate OccursAt(s: string, k: string, i: int) {
    0 <= i && i + |k| <= |s| && s[i..i + |k|] == k
  }

  /** `s.includes(k)` */
  predicate Contains(s: string, k: string) {
    exists i :: 0 <= i <= |s| - |k| && OccursAt(s, k, i)
  }

  /** Two strings that disagree at a position both have cannot be prefix
      one of the other. */
  lemma NotPrefixWhenDiffering(s: string, p: string, k: nat)
    requires k < |p| && k < |s| && p[k] != s[k]
    ensures !StartsWith(s, p)
  {
    if |p| <= |s| {
      assert s[..|p|][k] == s[k];
    }
  }

  /** Two prefixes of one string are prefixes of each other. */
  lemma PrefixesAreNested(s: string, p: string, q: string)
    requires StartsWith(s, p) && StartsWith(s, q) && |p| <= |q|
    ensures StartsWith(q, p)
  {
    assert q[..|p|] == s[..|q|][..|p|];
  }

  /** A string placed between two others occurs there. */
  lemma OccursBetween(a: string, k: string, b: string)
    ensures OccursAt(a + k + b, k, |a|) && Contains(a + k + b, k)
  {
    assert (a + k + b)[|a|..|a| + |k|] == k;
    assert OccursAt(a + k + b, k, |a|);
  }

  /** A keyword with a character that does not occur in `s` is not a
      substring of `s`. */
  lemma {:induction false} MissingCharNotContained(s: string, k: string, c: char)
    requires c in k && c !in s
    ensures !Contains(s, k)
  {
    var j :| 0 <= j < |k| && k[j] == c;
    forall i | 0 <= i <= |s| - |k| ensures !OccursAt(s, k, i) {
      assert s[i..i + |k|][j] == s[i + j] != c;
    }
  }

  /** A keyword without the character `c` that occurs on neither side of
      an occurrence of `c` does not occur in the whole: no occurrence can
      straddle the separator. */
  lemma {:induction false} NotContainedAroundSeparator(a: string, c: char, b: string, k: string)
    requires c !in k && !Contains(a, k) && !Contains(b, k)
    ensures !Contains(a + [c] + b, k)
  {
    var s := a + [c] + b;
    forall i | 0 <= i <= |s| - |k| ensures !OccursAt(s, k, i) {
      if i + |k| <= |a| {
        assert s[i..i + |k|] == a[i..i + |k|];
        assert !OccursAt(a, k, i);
      } else if i > |a| {
        assert s[i..i + |k|] == b[i - |a| - 1..i - |a| - 1 + |k|];
        assert !OccursAt(b, k, i - |a| - 1);
      } else {
        assert s[i..i + |k|][|a| - i] == c;
      }
    }
  }

  // ---------------------------------------------------------------------
  // Case folding (ASCII)
  // ---------------------------------------------------------------------

  predicate IsUpper(c: char) { 'A' <= c <= 'Z' }

  /** `toLowerCase` on one character, for the ASCII letters. */
  function LowerChar(c: char): (r: char)
    ensures !IsUpper(r)
    ensures IsUpper(c) ==> r as int == c as int + 32
    ensures !IsUpper(c) ==> r == c
  {
    if IsUpper(c) then (c as int + 32) as char else c
  }

  /** `s.toLowerCase()`, ASCII letters only. */
  function Lower(s: string): (r: string)
    ensures |r| == |s|
    ensures forall i :: 0 <= i < |s| ==> r[i] == LowerChar(s[i])
    ensures forall i :: 0 <= i < |r| ==> !IsUpper(r[i])
  {
    seq(|s|, i requires 0 <= i < |s| => LowerChar(s[i]))
  }

  /** Lower-casing twice is lower-casing once. */
  lemma LowerIdempotent(s: string)
    ensures Lower(Lower(s)) == Lower(s)
  {
  }

  lemma LowerAppend(a: string, b: string)
    ensures Lower(a + b) == Lower(a) + Lower(b)
  {
  }

  lemma LowerSlice(s: string, i: nat, j: nat)
    requires i <= j <= |s|
    ensures Lower(s[i..j]) == Lower(s)[i..j]
  {
  }

  // ---------------------------------------------------------------------
  // Whitespace and trim
  // ---------------------------------------------------------------------

  /** The characters `String.prototype.trim` removes: JavaScript's
      WhiteSpace and LineTerminator code points. */
  predicate IsSpace(c: char) {
    var n := c as int;
    n == 0x09 || n == 0x0A || n == 0x0B || n == 0x0C || n == 0x0D || n == 0x20 ||
    n == 0xA0 || n == 0x1680 || (0x2000 <= n <= 0x200A) || n == 0x2028 ||
    n == 0x2029 || n == 0x202F || n == 0x205F || n == 0x3000 || n == 0xFEFF
  }

  predicate AllSpace(s: string) {
    forall i :: 0 <= i < |s| ==> IsSpace(s[i])
  }

  lemma LowerKeepsSpace(c: char)
    ensures IsSpace(LowerChar(c)) <==> IsSpace(c)
  {
  }

  /** The number of whitespace characters `s` starts with. */
  function Leading(s: string): (n: nat)
    ensures n <= |s|
    ensures forall i :: 0 <= i < n ==> IsSpace(s[i])
    ensures n < |s| ==> !IsSpace(s[n])
    decreases |s|
  {
    if |s| > 0 && IsSpace(s[0]) then
      var m := Leading(s[1..]);
      assert forall i :: 1 <= i < 1 + m ==> s[i] == s[1..][i - 1];
      1 + m
    else 0
  }

  /** The number of whitespace characters `s` ends with. */
  function Trailing(s: string): (n: nat)
    ensures n <= |s|
    ensures forall i :: |s| - n <= i < |s| ==> IsSpace(s[i])
    ensures n < |s| ==> !IsSpace(s[|s| - n - 1])
    decreases |s|
  {
    if |s| > 0 && IsSpace(s[|s| - 1]) then
      var m := Trailing(s[..|s| - 1]);
      assert forall i :: |s| - 1 - m <= i < |s| - 1 ==> s[i] == s[..|s| - 1][i];
      1 + m
    else 0
  }

  /** `s.trim()`: `s` is the result with whitespace on both sides, the
      result starting at index `Leading(s)`. */
  function Trim(s: string): (r: string)
    ensures Leading(s) + |r| <= |s|
    ensures r == s[Leading(s)..Leading(s) + |r|]
    ensures forall i :: 0 <= i < Leading(s) ==> IsSpace(s[i])
    ensures forall i :: Leading(s) + |r| <= i < |s| ==> IsSpace(s[i])
    ensures r != [] ==> !IsSpace(r[0]) && !IsSpace(r[|r| - 1])
    ensures r == [] <==> AllSpace(s)
  {
    var a := Leading(s);
    if a == |s| then
      assert s == s[..a];
      ""
    else
      var t := s[a..];
      var b := Trailing(t);
      assert !IsSpace(t[0]);
      var r := t[..|t| - b];
      assert forall i :: a + |r| <= i < |s| ==> s[i] == t[i - a];
      assert !IsSpace(s[a]) && s[a] == r[0];
      r
  }

  /** Trimming twice is trimming once. */
  lemma TrimIdempotent(s: string)
    ensures Trim(Trim(s)) == Trim(s)
  {
    var r := Trim(s);
    if r != [] {
      assert Leading(r) == 0;
      assert r[..|Trim(r)|] == Trim(r);
    }
  }

  /** `!s.trim()`: the text is empty or whitespace only. */
  predicate IsBlank(s: string) {
    Trim(s) == ""
  }

  /** A keyword that neither starts nor ends with whitespace occurs in a
      string exactly when it occurs in the string's trimmed form. */
  lemma {:induction false} ContainsTrimmed(s: string, k: string)
    requires k != [] && !IsSpace(k[0]) && !IsSpace(k[|k| - 1])
    ensures Contains(Trim(s), k) <==> Contains(s, k)
  {
    var t := Trim(s);
    var a := Leading(s);
    if Contains(t, k) {
      var i :| 0 <= i <= |t| - |k| && OccursAt(t, k, i);
      assert s[a + i..a + i + |k|] == t[i..i + |k|];
      assert OccursAt(s, k, a + i);
    }
    if Contains(s, k) {
      var i :| 0 <= i <= |s| - |k| && OccursAt(s, k, i);
      assert s[i..i + |k|][0] == s[i] == k[0];
      assert s[i..i + |k|][|k| - 1] == s[i + |k| - 1] == k[|k| - 1];
      // the occurrence can start in neither whitespace run
      assert t[i - a..i - a + |k|] == s[i..i + |k|];
      assert OccursAt(t, k, i - a);
    }
  }

  /** The trimmed form is determined by its position: a non-empty run
      that neither starts nor ends with whitespace and has only whitespace
      around it is what `trim` returns. */
  lemma TrimUnique(s: string, a: nat, t: string)
    requires a + |t| <= |s| && s[a..a + |t|] == t
    requires forall i :: 0 <= i < a ==> IsSpace(s[i])
    requires forall i :: a + |t| <= i < |s| ==> IsSpace(s[i])
    requires t != [] && !IsSpace(t[0]) && !IsSpace(t[|t| - 1])
    ensures Trim(s) == t
  {
    assert s[a] == t[0] && s[a + |t| - 1] == t[|t| - 1];
    assert Leading(s) == a;
    var r := Trim(s);
    assert r != [];
    assert s[a + |r| - 1] == r[|r| - 1];
    assert |r| == |t|;
  }

  /** Lower-casing keeps every whitespace character and every other
      character where they are. */
  lemma LowerKeepsSpaces(s: string)
    ensures forall i :: 0 <= i < |s| ==> (IsSpace(Lower(s)[i]) <==> IsSpace(s[i]))
  {
    forall i | 0 <= i < |s| ensures IsSpace(Lower(s)[i]) <==> IsSpace(s[i]) {
      LowerKeepsSpace(s[i]);
    }
  }

  /** Lower-casing and trimming commute: case folding neither creates nor
      removes whitespace. */
  lemma LowerOfTrim(s: string)
    ensures Lower(Trim(s)) == Trim(Lower(s))
  {
    LowerKeepsSpaces(s);
    if Trim(s) == [] {
      assert AllSpace(Lower(s));
    } else {
      LowerOfNonBlankTrim(s);
    }
  }

  lemma LowerOfNonBlankTrim(s: string)
    requires Trim(s) != []
    requires forall i :: 0 <= i < |s| ==> (IsSpace(Lower(s)[i]) <==> IsSpace(s[i]))
    ensures Lower(Trim(s)) == Trim(Lower(s))
  {
    var ls := Lower(s);
    var a := Leading(s);
    var t := Trim(s);
    LowerSlice(s, a, a + |t|);
    assert s[a..a + |t|] == t;
    var lt := Lower(t);
    assert ls[a..a + |t|] == lt;
    LowerKeepsSpace(t[0]);
    LowerKeepsSpace(t[|t| - 1]);
    assert lt[0] == LowerChar(t[0]) && lt[|t| - 1] == LowerChar(t[|t| - 1]);
    TrimUnique(ls, a, lt);
  }

  /** Lower-casing leaves the number of leading whitespace characters as
      it is. */
  lemma {:induction false} LeadingOfLower(s: string)
    ensures Leading(Lower(s)) == Leading(s)
    decreases |s|
  {
    if |s| > 0 {
      LowerKeepsSpace(s[0]);
      assert Lower(s)[1..] == Lower(s[1..]);
      LeadingOfLower(s[1..]);
    }
  }

  // ---------------------------------------------------------------------
  // split / join on one separator character
  // ---------------------------------------------------------------------

  /** `s.split(d)` for a one-character separator `d`: the pieces between
      the separators, at least one. */
  function Split(s: string, d: char): (r: seq<string>)
    ensures |r| >= 1
    ensures forall i :: 0 <= i < |r| ==> d !in r[i]
    decreases |s|
  {
    if s == [] then [""]
    else
      var rest := Split(s[1..], d);
      if s[0] == d then [""] + rest
      else [[s[0]] + rest[0]] + rest[1..]
  }

  /** `parts.join(d)`: the pieces with the separator between each two. */
  function Join(parts: seq<string>, d: char): string
    decreases |parts|
  {
    if |parts| == 0 then ""
    else if |parts| == 1 then parts[0]
    else parts[0] + [d] + Join(parts[1..], d)
  }

  /** Joining the pieces of a split gives the string back. */
  lemma {:induction false} JoinSplit(s: string, d: char)
    ensures Join(Split(s, d), d) == s
    decreases |s|
  {
    if s != [] {
      var rest := Split(s[1..], d);
      JoinSplit(s[1..], d);
      if s[0] != d {
        if |rest| > 1 {
          assert rest == [rest[0]] + rest[1..];
          assert Join(rest, d) == rest[0] + [d] + Join(rest[1..], d);
        }
        assert s == [s[0]] + s[1..];
      }
    }
  }

  /** Splitting a string that starts with a separator-free piece. */
  lemma {:induction false} SplitAfterPiece(x: string, y: string, d: char)
    requires d !in x
    ensures Split(x + y, d) == [x + Split(y, d)[0]] + Split(y, d)[1..]
    decreases |x|
  {
    if x != [] {
      assert x[0] != d && (x + y)[0] == x[0];
      assert (x + y)[1..] == x[1..] + y;
      SplitAfterPiece(x[1..], y, d);
      assert [x[0]] + (x[1..] + Split(y, d)[0]) == x + Split(y, d)[0];
    } else {
      assert x + y == y && x + Split(y, d)[0] == Split(y, d)[0];
      assert Split(y, d) == [Split(y, d)[0]] + Split(y, d)[1..];
    }
  }

  /** Splitting the join of separator-free pieces gives the pieces back. */
  lemma {:induction false} SplitJoin(parts: seq<string>, d: char)
    requires |parts| >= 1
    requires forall i :: 0 <= i < |parts| ==> d !in parts[i]
    ensures Split(Join(parts, d), d) == parts
    decreases |parts|
  {
    if |parts| == 1 {
      SplitAfterPiece(parts[0], "", d);
      assert parts[0] + "" == parts[0];
    } else {
      var tail := Join(parts[1..], d);
      SplitJoin(parts[1..], d);
      SplitAfterPiece(parts[0], [d] + tail, d);
      assert parts[0] + [d] + tail == parts[0] + ([d] + tail);
      assert ([d] + tail)[0] == d && ([d] + tail)[1..] == tail;
      assert Split([d] + tail, d) == [""] + Split(tail, d);
      assert parts[0] + "" == parts[0];
      assert parts == [parts[0]] + parts[1..];
    }
  }

  /** A split has one piece more than there are separators. */
  lemma {:induction false} SplitCount(s: string, d: char)
    ensures |Split(s, d)| == multiset(s)[d] + 1
    decreases |s|
  {
    if s != [] {
      SplitCount(s[1..], d);
      assert s == [s[0]] + s[1..];
      assert multiset(s) == multiset([s[0]]) + multiset(s[1..]);
    }
  }

  /** Joining separator-free pieces puts one separator fewer than there
      are pieces. */
  lemma {:induction false} JoinCount(parts: seq<string>, d: char)
    requires |parts| >= 1
    requires forall i :: 0 <= i < |parts| ==> d !in parts[i]
    ensures multiset(Join(parts, d))[d] == |parts| - 1
    decreases |parts|
  {
    assert d !in multiset(parts[0]);
    if |parts| >= 2 {
      JoinCount(parts[1..], d);
      assert multiset(Join(parts, d)) == multiset(parts[0]) + multiset([d]) + multiset(Join(parts[1..], d));
    }
  }

  // ---------------------------------------------------------------------
  // Decimal digits
  // ---------------------------------------------------------------------

  predicate IsDigit(c: char) { '0' <= c <= '9' }

  function DigitValue(c: char): nat
    requires IsDigit(c)
  {
    c as int - '0' as int
  }

  function DigitChar(n: nat): (c: char)
    requires n < 10
    ensures IsDigit(c) && DigitValue(c) == n
  {
    (n + '0' as int) as char
  }

  /** The number written by the first `j` characters of `s`, if they are
      all decimal digits. */
  function ValueUpTo(s: string, j: nat): Option<nat>
    requires j <= |s|
  {
    if j == 0 then Some(0)
    else match ValueUpTo(s, j - 1)
      case None => None
      case Some(v) => if IsDigit(s[j - 1]) then Some(v * 10 + DigitValue(s[j - 1])) else None
  }

  /** A prefix with a value is all digits. */
  lemma {:induction false} ValueUpToDigits(s: string, j: nat)
    requires j <= |s| && ValueUpTo(s, j).Some?
    ensures forall i :: 0 <= i < j ==> IsDigit(s[i])
  {
    if j > 0 {
      ValueUpToDigits(s, j - 1);
    }
  }

  /** The number a non-empty string of decimal digits writes; `None` for
      anything else. */
  function ParseNat(s: string): Option<nat> {
    if s == [] then None else ValueUpTo(s, |s|)
  }

  /** `String(n)` for a natural number. */
  function Decimal(n: nat): (r: string)
    ensures r != []
    ensures forall i :: 0 <= i < |r| ==> IsDigit(r[i])
  {
    (if n < 10 then "" else Decimal(n / 10)) + [DigitChar(n % 10)]
  }

  lemma {:induction false} ValueUpToPrefix(s: string, t: string, j: nat)
    requires j <= |s| && j <= |t| && s[..j] == t[..j]
    ensures ValueUpTo(s, j) == ValueUpTo(t, j)
  {
    if j > 0 {
      assert s[..j - 1] == s[..j][..j - 1];
      assert t[..j - 1] == t[..j][..j - 1];
      assert s[j - 1] == s[..j][j - 1];
      assert t[j - 1] == t[..j][j - 1];
      ValueUpToPrefix(s, t, j - 1);
    }
  }

  /** Reading back what `Decimal` wrote gives the number. */
  lemma {:induction false} ParseDecimal(n: nat)
    ensures ParseNat(Decimal(n)) == Some(n)
  {
    var r := Decimal(n);
    var c := DigitChar(n % 10);
    if n >= 10 {
      var h := Decimal(n / 10);
      ParseDecimal(n / 10);
      assert r == h + [c];
      assert r[..|h|] == h[..|h|];
      ValueUpToPrefix(r, h, |h|);
      assert r[|r| - 1] == c;
      assert ValueUpTo(r, |r|) == Some(n / 10 * 10 + DigitValue(c));
    } else {
      assert r == [c];
      assert ValueUpTo(r, 1) == Some(DigitValue(c));
    }
  }
}
