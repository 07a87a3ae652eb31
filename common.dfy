/**
 * Shared value types and the string, sequence and sorting primitives that the
 * Python code takes from its standard library (str.split, str.join, str.find,
 * str.lower, sorted, set de-duplication, int()/str() on integers).
 */
module Common {

  datatype Option<T> = None | Some(value: T)

  /** An operation that either succeeds or raises; `error` names the exception. */
  datatype Result<T> = Ok(value: T) | Err(error: string)

  /** Python truthiness of an optional number: `not x` holds for None and for 0. */
  predicate Falsy(o: Option<real>) {
    o.None? || o.value == 0.0
  }

  // ---------------------------------------------------------------- strings

  /** `sub` occurs in `s` starting at position `i`. */
  predicate OccursAt(s: string, sub: string, i: nat) {
    i + |sub| <= |s| && s[i..i + |sub|] == sub
  }

  /** Python's `sub in s`. */
  predicate Contains(s: string, sub: string) {
    exists i: nat | i <= |s| :: OccursAt(s, sub, i)
  }

  /** The first occurrence of `sub` in `s` at or after `i`, or -1. */
  function FindFrom(s: string, sub: string, i: nat): (r: int)
    decreases |s| - i
    ensures r == -1 || (i <= r && OccursAt(s, sub, r))
    ensures r == -1 ==> forall j: nat :: i <= j ==> !OccursAt(s, sub, j)
    ensures r >= 0 ==> forall j: nat :: i <= j < r ==> !OccursAt(s, sub, j)
  {
    if i + |sub| > |s| then -1
    else if s[i..i + |sub|] == sub then i
    else FindFrom(s, sub, i + 1)
  }

  /** Python's `s.find(sub)`: the first position of `sub` in `s`, or -1. */
  function Find(s: string, sub: string): (r: int)
    ensures r == -1 <==> !Contains(s, sub)
    ensures r >= 0 ==> OccursAt(s, sub, r) && forall j: nat :: j < r ==> !OccursAt(s, sub, j)
  {
    FindFrom(s, sub, 0)
  }

  /** Python's `sep.join(parts)`. */
  function Join(sep: string, parts: seq<string>): string
  {
    if |parts| == 0 then ""
    else if |parts| == 1 then parts[0]
    else parts[0] + sep + Join(sep, parts[1..])
  }

  lemma {:induction false} NoOccurrenceInPrefix(s: string, sub: string, i: nat)
    requires i <= |s| && |sub| > 0
    requires forall j: nat :: j < i ==> !OccursAt(s, sub, j)
    ensures !Contains(s[..i], sub)
  {
    if Contains(s[..i], sub) {
      var j: nat :| j <= i && OccursAt(s[..i], sub, j);
      assert j + |sub| <= i;
      assert s[..i][j..j + |sub|] == s[j..j + |sub|];
      assert OccursAt(s, sub, j);
    }
  }

  /** Python's `s.split(sep)` for a non-empty separator. */
  function Split(s: string, sep: string): (r: seq<string>)
    requires |sep| > 0
    decreases |s|
    ensures |r| >= 1
    ensures forall k :: 0 <= k < |r| ==> !Contains(r[k], sep)
    ensures Join(sep, r) == s
  {
    var i := Find(s, sep);
    if i < 0 then [s]
    else
      NoOccurrenceInPrefix(s, sep, i);
      var rest := Split(s[i + |sep|..], sep);
      assert s == s[..i] + sep + s[i + |sep|..];
      [s[..i]] + rest
  }

  /** Python's `s.split(sep, 1)`: at most one cut, at the first occurrence. */
  function SplitOnce(s: string, sep: string): (r: seq<string>)
    requires |sep| > 0
    ensures 1 <= |r| <= 2
    ensures |r| == 1 <==> !Contains(s, sep)
    ensures |r| == 1 ==> r[0] == s
    ensures |r| == 2 ==> s == r[0] + sep + r[1] && !Contains(r[0], sep)
  {
    var i := Find(s, sep);
    if i < 0 then [s]
    else
      NoOccurrenceInPrefix(s, sep, i);
      assert s == s[..i] + sep + s[i + |sep|..];
      [s[..i], s[i + |sep|..]]
  }

  lemma {:induction false} JoinUnitPrefix(c: char, p: string, parts: seq<string>)
    requires |parts| >= 1
    ensures Join([c], [p] + parts) == p + [c] + Join([c], parts)
  {
    assert ([p] + parts)[1..] == parts;
  }

  lemma {:induction false} FindUnitInJoin(c: char, p: string, tail: string)
    requires !Contains(p, [c])
    ensures Find(p + [c] + tail, [c]) == |p|
  {
    var s := p + [c] + tail;
    assert OccursAt(s, [c], |p|) by { assert s[|p|..|p| + 1] == [c]; }
    forall j: nat | j < |p| ensures !OccursAt(s, [c], j) {
      assert !OccursAt(p, [c], j);
      assert s[j..j + 1] == p[j..j + 1];
    }
  }

  /** Joining with a one-character separator and splitting again gives the parts back. */
  lemma {:induction false} SplitJoinUnit(c: char, parts: seq<string>)
    requires |parts| >= 1
    requires forall k :: 0 <= k < |parts| ==> !Contains(parts[k], [c])
    ensures Split(Join([c], parts), [c]) == parts
  {
    if |parts| == 1 {
      assert Find(parts[0], [c]) == -1;
    } else {
      var tail := Join([c], parts[1..]);
      JoinUnitPrefix(c, parts[0], parts[1..]);
      FindUnitInJoin(c, parts[0], tail);
      var s := parts[0] + [c] + tail;
      assert s[..|parts[0]|] == parts[0];
      assert s[|parts[0]| + 1..] == tail;
      SplitJoinUnit(c, parts[1..]);
      assert parts == [parts[0]] + parts[1..];
    }
  }

  /** A first occurrence of `sep` right after `p` stays first whatever follows. */
  lemma FindAfterPart(p: string, sep: string, tail: string)
    requires Find(p + sep, sep) == |p|
    ensures Find(p + sep + tail, sep) == |p|
  {
    var s := p + sep + tail;
    assert s[|p|..|p| + |sep|] == sep;
    assert OccursAt(s, sep, |p|);
    forall j: nat | j < |p| ensures !OccursAt(s, sep, j) {
      assert !OccursAt(p + sep, sep, j);
      assert s[j..j + |sep|] == (p + sep)[j..j + |sep|];
    }
  }

  /**
   * Joining and splitting again gives the parts back, when no part
   * contains the separator and none runs into it (`sep` is first found
   * right after each part).
   */
  lemma {:induction false} SplitJoin(sep: string, parts: seq<string>)
    requires |sep| > 0 && |parts| >= 1
    requires forall k :: 0 <= k < |parts| - 1 ==> Find(parts[k] + sep, sep) == |parts[k]|
    requires !Contains(parts[|parts| - 1], sep)
    ensures Split(Join(sep, parts), sep) == parts
  {
    if |parts| == 1 {
      assert Find(parts[0], sep) == -1;
    } else {
      var p := parts[0];
      var tail := Join(sep, parts[1..]);
      var s := p + sep + tail;
      assert Join(sep, parts) == s;
      FindAfterPart(p, sep, tail);
      assert s[..|p|] == p;
      assert s[|p| + |sep|..] == tail;
      forall k | 0 <= k < |parts[1..]| - 1 ensures Find(parts[1..][k] + sep, sep) == |parts[1..][k]| {
        assert parts[1..][k] == parts[k + 1];
      }
      SplitJoin(sep, parts[1..]);
      assert parts == [p] + parts[1..];
    }
  }

  /** `Join` starts with the first part. */
  lemma JoinStartsWith(sep: string, parts: seq<string>)
    requires |parts| >= 1
    ensures StartsWith(Join(sep, parts), parts[0])
  {
  }

  /** `Join` ends with the last part. */
  lemma {:induction false} JoinEndsWith(sep: string, parts: seq<string>)
    requires |parts| >= 1
    ensures var s, last := Join(sep, parts), parts[|parts| - 1];
      |last| <= |s| && s[|s| - |last|..] == last
  {
    if |parts| > 1 {
      JoinEndsWith(sep, parts[1..]);
      assert parts[1..][|parts[1..]| - 1] == parts[|parts| - 1];
    }
  }

  /** Python's `s[front:-back]` for `back >= 1`: empty once the two ends meet. */
  function DropEnds(s: string, front: nat, back: nat): (r: string)
    requires back >= 1
    ensures |s| >= front + back ==> r == s[front..|s| - back]
    ensures |s| < front + back ==> r == ""
  {
    if |s| >= front + back then s[front..|s| - back] else ""
  }

  /** Python's `s[n:]`. */
  function DropFront(s: string, n: nat): (r: string)
    ensures |s| >= n ==> r == s[n..]
    ensures |s| < n ==> r == ""
  {
    if |s| >= n then s[n..] else ""
  }

  predicate IsSpace(c: char) {
    c == ' ' || c == '\t' || c == '\n' || c == '\r' || c == '\U{000B}' || c == '\U{000C}'
  }

  /** Python's `s.lstrip()` over ASCII whitespace. */
  function LStrip(s: string): (r: string)
    ensures |r| <= |s| && r == s[|s| - |r|..]
    ensures r == [] || !IsSpace(r[0])
    ensures forall k :: 0 <= k < |s| - |r| ==> IsSpace(s[k])
  {
    if |s| > 0 && IsSpace(s[0]) then LStrip(s[1..]) else s
  }

  /** Python's `s.rstrip()` over ASCII whitespace. */
  function RStrip(s: string): (r: string)
    ensures |r| <= |s| && r == s[..|r|]
    ensures r == [] || !IsSpace(r[|r| - 1])
    ensures forall k :: |r| <= k < |s| ==> IsSpace(s[k])
  {
    if |s| > 0 && IsSpace(s[|s| - 1]) then RStrip(s[..|s| - 1]) else s
  }

  /** Python's `s.strip()` over ASCII whitespace. */
  function Strip(s: string): string
  {
    RStrip(LStrip(s))
  }

  /** Python's `s.lstrip(chars)`. */
  function LStripChars(s: string, chars: set<char>): (r: string)
    ensures |r| <= |s| && r == s[|s| - |r|..]
    ensures r == [] || r[0] !in chars
    ensures forall k :: 0 <= k < |s| - |r| ==> s[k] in chars
  {
    if |s| > 0 && s[0] in chars then LStripChars(s[1..], chars) else s
  }

  /** Python's `s.rstrip(chars)`. */
  function RStripChars(s: string, chars: set<char>): (r: string)
    ensures |r| <= |s| && r == s[..|r|]
    ensures r == [] || r[|r| - 1] !in chars
    ensures forall k :: |r| <= k < |s| ==> s[k] in chars
  {
    if |s| > 0 && s[|s| - 1] in chars then RStripChars(s[..|s| - 1], chars) else s
  }

  /** Python's `s.strip(chars)`: drops every leading and trailing character in `chars`. */
  function StripChars(s: string, chars: set<char>): string
  {
    RStripChars(LStripChars(s, chars), chars)
  }

  /** Python's `s.split()`: maximal runs of non-whitespace characters. */
  function Words(s: string): (r: seq<string>)
    decreases |s|
    ensures forall k :: 0 <= k < |r| ==> IsWord(r[k])
  {
    var t := LStrip(s);
    if t == [] then []
    else
      var w := WordPrefix(t);
      assert |w| > 0;
      var rest := Words(t[|w|..]);
      assert forall k :: 0 < k < |rest| + 1 ==> ([w] + rest)[k] == rest[k - 1];
      [w] + rest
  }

  /** A non-empty string without whitespace. */
  predicate IsWord(w: string) {
    |w| > 0 && forall j :: 0 <= j < |w| ==> !IsSpace(w[j])
  }

  /** The longest prefix of `s` without whitespace. */
  function WordPrefix(s: string): (r: string)
    ensures |r| <= |s| && r == s[..|r|]
    ensures |s| > 0 && !IsSpace(s[0]) ==> |r| > 0
    ensures forall j :: 0 <= j < |r| ==> !IsSpace(r[j])
    ensures |r| == |s| || IsSpace(s[|r|])
  {
    if |s| == 0 || IsSpace(s[0]) then ""
    else
      var w := WordPrefix(s[1..]);
      assert s[..|w| + 1] == [s[0]] + s[1..][..|w|];
      [s[0]] + w
  }

  function StartsWith(s: string, prefix: string): bool {
    |prefix| <= |s| && s[..|prefix|] == prefix
  }

  /** The text before the first `c`: `s.split(c)[0]` for a one-character separator. */
  function Until(s: string, c: char): (r: string)
    ensures |r| <= |s| && r == s[..|r|]
    ensures |r| == |s| || s[|r|] == c
    ensures forall k :: 0 <= k < |r| ==> s[k] != c
  {
    if |s| == 0 || s[0] == c then [] else [s[0]] + Until(s[1..], c)
  }

  /** `Until` is the first part of Python's `split`. */
  lemma UntilIsSplitHead(s: string, c: char)
    ensures Split(s, [c])[0] == Until(s, c)
  {
    var r := Split(s, [c]);
    var u := Until(s, c);
    if |r| == 1 {
      assert s == r[0];
    } else {
      assert s == r[0] + [c] + Join([c], r[1..]);
    }
    assert r[0] == s[..|r[0]|];
    if |u| < |r[0]| {
      assert r[0][|u|..|u| + 1] == [c];
      assert OccursAt(r[0], [c], |u|);
    }
  }

  /** The first part of `s.split(sep, 1)` is the first part of `s.split(sep)`. */
  lemma SplitOnceHead(s: string, sep: string)
    requires |sep| > 0
    ensures SplitOnce(s, sep)[0] == Split(s, sep)[0]
  {
  }

  /** Python's `s.replace(pattern, repl)` for a non-empty `pattern`: every occurrence, left to right. */
  function Replace(s: string, pattern: string, repl: string): (r: string)
    requires |pattern| > 0
    ensures !Contains(s, pattern) ==> r == s
  {
    Join(repl, Split(s, pattern))
  }

  function LowerChar(c: char): char {
    if 'A' <= c <= 'Z' then (c as int + 32) as char else c
  }

  /** Python's `s.lower()` on the ASCII letters. */
  function Lower(s: string): (r: string)
    ensures |r| == |s|
    ensures forall k :: 0 <= k < |r| ==> !('A' <= r[k] <= 'Z')
    ensures forall k :: 0 <= k < |r| ==> (r[k] == s[k] || ('A' <= s[k] <= 'Z' && r[k] as int == s[k] as int + 32))
  {
    seq(|s|, k requires 0 <= k < |s| => LowerChar(s[k]))
  }

  predicate IsLower(s: string) {
    forall k :: 0 <= k < |s| ==> !('A' <= s[k] <= 'Z')
  }

  lemma LowerIdempotent(s: string)
    ensures Lower(Lower(s)) == Lower(s)
  {
  }

  // ---------------------------------------------------------------- numbers as text

  function DigitChar(d: nat): char
    requires d < 10
  {
    ('0' as int + d) as char
  }

  predicate IsDigit(c: char) { '0' <= c <= '9' }

  /** Python's `str(n)` for a natural number. */
  function NatToString(n: nat): (r: string)
    decreases n
    ensures |r| >= 1
    ensures forall k :: 0 <= k < |r| ==> IsDigit(r[k])
    ensures |r| > 1 ==> r[0] != '0'
  {
    if n < 10 then [DigitChar(n)] else NatToString(n / 10) + [DigitChar(n % 10)]
  }

  /** Python's `str(i)` for an integer. */
  function IntToString(i: int): (r: string)
    ensures |r| >= 1
    ensures i < 0 <==> r[0] == '-'
  {
    if i < 0 then "-" + NatToString(-i) else NatToString(i)
  }

  /** The value of a string of decimal digits. */
  function DigitsValue(s: string): (n: nat)
    requires forall k :: 0 <= k < |s| ==> IsDigit(s[k])
  {
    if |s| == 0 then 0
    else
      assert IsDigit(s[|s| - 1]);
      DigitsValue(s[..|s| - 1]) * 10 + (s[|s| - 1] as int - '0' as int)
  }

  lemma {:induction false} DigitsOfNat(n: nat)
    ensures DigitsValue(NatToString(n)) == n
  {
    var r := NatToString(n);
    if n >= 10 {
      DigitsOfNat(n / 10);
      assert r[..|r| - 1] == NatToString(n / 10);
    }
  }

  /**
   * Python's `int(s)` on a decimal literal: surrounding whitespace, an
   * optional sign and at least one digit (digit-group underscores are not
   * accepted here).
   */
  function ParseInt(s: string): Result<int>
  {
    var t := Strip(s);
    var neg := |t| > 0 && t[0] == '-';
    var body := if |t| > 0 && (t[0] == '-' || t[0] == '+') then t[1..] else t;
    if |body| == 0 || exists k :: 0 <= k < |body| && !IsDigit(body[k]) then Err("ValueError")
    else
      var v: int := DigitsValue(body);
      Ok(if neg then -v else v)
  }

  /** A string that neither starts nor ends with whitespace is its own `strip()`. */
  lemma StripUnspaced(s: string)
    requires |s| > 0 && !IsSpace(s[0]) && !IsSpace(s[|s| - 1])
    ensures Strip(s) == s
  {
    assert LStrip(s) == s;
  }

  /** `str(n)` read back with `int()` gives `n`. */
  lemma {:induction false} ParseIntOfNat(n: nat)
    ensures ParseInt(NatToString(n)) == Ok(n)
  {
    var s := NatToString(n);
    assert IsDigit(s[0]) && IsDigit(s[|s| - 1]);
    StripUnspaced(s);
    DigitsOfNat(n);
  }

  /** `str(i)` read back with `int()` gives `i`, negative or not. */
  lemma ParseIntOfInt(i: int)
    ensures ParseInt(IntToString(i)) == Ok(i)
  {
    if i < 0 {
      ParseIntOfNegative(i);
    } else {
      ParseIntOfNat(i);
    }
  }

  /** `str(i)` of a negative `i` read back with `int()` gives `i`. */
  lemma ParseIntOfNegative(i: int)
    requires i < 0
    ensures ParseInt(IntToString(i)) == Ok(i)
  {
    var d := NatToString(-i);
    calc {
      ParseInt(IntToString(i));
      ParseInt("-" + d);
      { ParseIntOfMinus(d); }
      Ok(-(DigitsValue(d) as int));
      { DigitsOfNat(-i); }
      Ok(i);
    }
  }

  /** `int()` of a minus sign followed by digits is the negated value of the digits. */
  lemma ParseIntOfMinus(d: string)
    requires |d| > 0 && forall k :: 0 <= k < |d| ==> IsDigit(d[k])
    ensures ParseInt("-" + d) == Ok(-(DigitsValue(d) as int))
  {
    var s := "-" + d;
    StripMinusDigits(d);
    assert s[1..] == d;
    ParseIntSigned(s, d);
  }

  /** `int()` of a stripped minus sign followed by the digits `d`. */
  lemma ParseIntSigned(s: string, d: string)
    requires |d| > 0 && forall k :: 0 <= k < |d| ==> IsDigit(d[k])
    requires Strip(s) == s && |s| > 1 && s[0] == '-' && s[1..] == d
    ensures ParseInt(s) == Ok(-(DigitsValue(d) as int))
  {
  }

  /** A minus sign followed by digits is its own `strip()`. */
  lemma StripMinusDigits(d: string)
    requires |d| > 0 && IsDigit(d[|d| - 1])
    ensures Strip("-" + d) == "-" + d
  {
    var s := "-" + d;
    assert s[|s| - 1] == d[|d| - 1];
    StripUnspaced(s);
  }

  /** Python's `int()` of a number: truncation toward zero. */
  function Trunc(x: real): int {
    if x >= 0.0 then x.Floor else -((-x).Floor)
  }

  /** Different integers have different decimal texts. */
  lemma IntToStringInjective(a: int, b: int)
    ensures IntToString(a) == IntToString(b) ==> a == b
  {
    ParseIntOfInt(a);
    ParseIntOfInt(b);
  }

  // ---------------------------------------------------------------- sequences

  predicate Distinct<T(==)>(s: seq<T>) {
    forall i, j :: 0 <= i < j < |s| ==> s[i] != s[j]
  }

  function SetOf<T(!new)>(s: seq<T>): (r: set<T>)
    ensures forall x :: x in r <==> x in s
  {
    set x | x in s
  }

  /** `list(set(s))`: each element once. Python's set order is unspecified; this keeps first occurrences. */
  function Dedup<T(==,!new)>(s: seq<T>): (r: seq<T>)
    ensures Distinct(r)
    ensures forall x :: x in r <==> x in s
    ensures |r| <= |s|
  {
    if |s| == 0 then []
    else
      var rest := Dedup(s[..|s| - 1]);
      if s[|s| - 1] in rest then rest else rest + [s[|s| - 1]]
  }

  /** A sequence without repetitions is its own set. */
  lemma {:induction false} DedupDistinct<T(!new)>(s: seq<T>)
    requires Distinct(s)
    ensures Dedup(s) == s
  {
    if |s| > 0 {
      var init := s[..|s| - 1];
      assert s == init + [s[|s| - 1]];
      assert Distinct(init) by {
        forall i, j | 0 <= i < j < |init| ensures init[i] != init[j] {
          assert init[i] == s[i] && init[j] == s[j];
        }
      }
      DedupDistinct(init);
    }
  }

  /** Two repetition-free sequences without common elements concatenate without repetitions. */
  lemma DistinctConcat<T>(a: seq<T>, b: seq<T>)
    requires Distinct(a) && Distinct(b)
    requires forall x :: x in a ==> x !in b
    ensures Distinct(a + b)
  {
    forall i, j | 0 <= i < j < |a + b| ensures (a + b)[i] != (a + b)[j] {
      if i < |a| && j >= |a| {
        assert (a + b)[i] in a && (a + b)[j] == b[j - |a|];
      } else if i >= |a| {
        assert (a + b)[i] == b[i - |a|] && (a + b)[j] == b[j - |a|];
      }
    }
  }

  /** Adding one element to a set kept by `Dedup`: appended unless already there. */
  lemma DedupAppend<T(!new)>(s: seq<T>, x: T)
    ensures Dedup(s + [x]) == if x in Dedup(s) then Dedup(s) else Dedup(s) + [x]
  {
    assert (s + [x])[..|s|] == s;
  }

  /** Deduplicating one more element of `t` after `s`. */
  lemma DedupPrefixStep<T(!new)>(s: seq<T>, t: seq<T>, j: nat)
    requires j < |t|
    ensures Dedup(s + t[..j + 1]) == if t[j] in Dedup(s + t[..j]) then Dedup(s + t[..j]) else Dedup(s + t[..j]) + [t[j]]
  {
    assert s + t[..j + 1] == (s + t[..j]) + [t[j]];
    DedupAppend(s + t[..j], t[j]);
  }

  /** A repetition-free sequence has as many elements as its set. */
  lemma {:induction false} DistinctCard<T(!new)>(s: seq<T>)
    requires Distinct(s)
    ensures |SetOf(s)| == |s|
  {
    if |s| > 0 {
      var init := s[..|s| - 1];
      var x := s[|s| - 1];
      assert Distinct(init) by {
        forall i, j | 0 <= i < j < |init| ensures init[i] != init[j] {
          assert init[i] == s[i] && init[j] == s[j];
        }
      }
      DistinctCard(init);
      assert s == init + [x];
      assert SetOf(s) == SetOf(init) + {x};
      assert x !in SetOf(init);
    }
  }

  /** In a repetition-free sequence every element occurs once. */
  lemma {:induction false} DistinctCount<T>(s: seq<T>, x: T)
    requires Distinct(s)
    ensures multiset(s)[x] <= 1
  {
    if |s| > 0 {
      var init := s[..|s| - 1];
      assert Distinct(init) by {
        forall i, j | 0 <= i < j < |init| ensures init[i] != init[j] {
          assert init[i] == s[i] && init[j] == s[j];
        }
      }
      DistinctCount(init, x);
      assert s == init + [s[|s| - 1]];
      if s[|s| - 1] == x {
        assert x !in init;
      }
    }
  }

  /** Rearranging a repetition-free sequence keeps it repetition-free. */
  lemma DistinctPermutation<T>(a: seq<T>, b: seq<T>)
    requires Distinct(a) && multiset(a) == multiset(b)
    ensures Distinct(b)
  {
    forall i, j | 0 <= i < j < |b| ensures b[i] != b[j] {
      if b[i] == b[j] {
        var x := b[i];
        assert b == b[..j] + b[j..];
        assert x in multiset(b[..j]) by { assert b[..j][i] == x; }
        assert x in multiset(b[j..]) by { assert b[j..][0] == x; }
        assert multiset(b)[x] == multiset(b[..j])[x] + multiset(b[j..])[x];
        DistinctCount(a, x);
      }
    }
  }

  /** `s.add(x)` on a set kept in insertion order. */
  function AddNew<T(==)>(s: seq<T>, x: T): seq<T> {
    if x in s then s else s + [x]
  }

  /** Adding every element of `xs` in turn. */
  function AddAll<T(==)>(s: seq<T>, xs: seq<T>): seq<T> {
    if |xs| == 0 then s else AddNew(AddAll(s, xs[..|xs| - 1]), xs[|xs| - 1])
  }

  lemma {:induction false} AddAllMeaning<T>(s: seq<T>, xs: seq<T>)
    ensures forall x :: x in AddAll(s, xs) <==> x in s || x in xs
    ensures Distinct(s) ==> Distinct(AddAll(s, xs))
  {
    if |xs| > 0 {
      AddAllMeaning(s, xs[..|xs| - 1]);
      assert xs == xs[..|xs| - 1] + [xs[|xs| - 1]];
    }
  }

  lemma AddAllSnoc<T>(s: seq<T>, xs: seq<T>, x: T)
    ensures AddAll(s, xs + [x]) == AddNew(AddAll(s, xs), x)
  {
    assert (xs + [x])[..|xs|] == xs;
  }

  lemma {:induction false} AddAllConcat<T>(s: seq<T>, a: seq<T>, b: seq<T>)
    ensures AddAll(s, a + b) == AddAll(AddAll(s, a), b)
  {
    if |b| == 0 {
      assert a + b == a;
    } else {
      var b' := b[..|b| - 1];
      AddAllConcat(s, a, b');
      assert a + b == (a + b') + [b[|b| - 1]];
      assert b == b' + [b[|b| - 1]];
      AddAllSnoc(s, a + b', b[|b| - 1]);
      AddAllSnoc(AddAll(s, a), b', b[|b| - 1]);
    }
  }

  /** The loop `for x in xs: s.add(x)`. */
  method AddEach<T(==)>(s: seq<T>, xs: seq<T>) returns (r: seq<T>)
    ensures r == AddAll(s, xs)
  {
    r := s;
    for i := 0 to |xs|
      invariant r == AddAll(s, xs[..i])
    {
      AddAllSnoc(s, xs[..i], xs[i]);
      assert xs[..i + 1] == xs[..i] + [xs[i]];
      if xs[i] !in r {
        r := r + [xs[i]];
      }
    }
    assert xs[..|xs|] == xs;
  }

  /** `s` without any occurrence of `x`, other elements in order (Python's `del d[x]` on ordered keys). */
  function Without<T(==,!new)>(s: seq<T>, x: T): (r: seq<T>)
    ensures forall y :: y in r <==> y in s && y != x
    ensures Distinct(s) ==> Distinct(r)
    ensures x !in s ==> r == s
  {
    if |s| == 0 then []
    else
      var rest := Without(s[..|s| - 1], x);
      assert s == s[..|s| - 1] + [s[|s| - 1]];
      assert Distinct(s) ==> s[|s| - 1] !in s[..|s| - 1];
      if s[|s| - 1] == x then rest else rest + [s[|s| - 1]]
  }

  /** Removing a present element from a repetition-free sequence shortens it by one. */
  lemma {:induction false} WithoutLength<T(!new)>(s: seq<T>, x: T)
    requires Distinct(s)
    ensures |Without(s, x)| == if x in s then |s| - 1 else |s|
  {
    if |s| > 0 {
      var init := s[..|s| - 1];
      assert s == init + [s[|s| - 1]];
      assert Distinct(init) by {
        forall i, j | 0 <= i < j < |init| ensures init[i] != init[j] {
          assert init[i] == s[i] && init[j] == s[j];
        }
      }
      WithoutLength(init, x);
    }
  }

  /** `s - t` on sets kept as sequences: the elements of `s` not in `t`, in order. */
  function Minus<T(==,!new)>(s: seq<T>, t: seq<T>): (r: seq<T>)
    ensures forall y :: y in r <==> y in s && y !in t
    ensures Distinct(s) ==> Distinct(r)
    ensures |r| <= |s|
  {
    if |s| == 0 then []
    else
      var rest := Minus(s[..|s| - 1], t);
      var x := s[|s| - 1];
      assert s == s[..|s| - 1] + [x];
      assert Distinct(s) ==> x !in s[..|s| - 1];
      if x in t then rest else rest + [x]
  }

  /** Taking nothing away leaves the sequence as it is. */
  lemma {:induction false} MinusNothing<T(!new)>(s: seq<T>)
    ensures Minus(s, []) == s
  {
    if |s| > 0 {
      MinusNothing(s[..|s| - 1]);
      assert s == s[..|s| - 1] + [s[|s| - 1]];
    }
  }

  /** Taking one more element away from a difference removes it from the result, keeping the order. */
  lemma {:induction false} MinusAppend<T(!new)>(s: seq<T>, t: seq<T>, x: T)
    ensures Minus(s, t + [x]) == Without(Minus(s, t), x)
  {
    if |s| > 0 {
      var init := s[..|s| - 1];
      var y := s[|s| - 1];
      MinusAppend(init, t, x);
      var m := Minus(init, t);
      if y !in t {
        assert (m + [y])[..|m|] == m;
      }
    }
  }

  /** Removing a present element always shortens the sequence. */
  lemma {:induction false} WithoutShorter<T(!new)>(s: seq<T>, x: T)
    requires x in s
    ensures |Without(s, x)| < |s|
  {
    var init := s[..|s| - 1];
    assert s == init + [s[|s| - 1]];
    if s[|s| - 1] != x {
      WithoutShorter(init, x);
    } else if x in init {
      WithoutShorter(init, x);
    } else {
      assert |Without(init, x)| <= |init| by { WithoutAtMost(init, x); }
    }
  }

  lemma {:induction false} WithoutAtMost<T(!new)>(s: seq<T>, x: T)
    ensures |Without(s, x)| <= |s|
  {
    if |s| > 0 { WithoutAtMost(s[..|s| - 1], x); }
  }

  function Min(a: int, b: int): int {
    if a <= b then a else b
  }

  function Max(a: int, b: int): int {
    if a >= b then a else b
  }

  /** The number of values in `range(1, n + 1)`. */
  function RangeLength(n: int): nat {
    if n < 0 then 0 else n
  }

  /** A list comprehension `[x for x in s if p(x)]`. */
  function Filter<T(!new)>(s: seq<T>, p: T -> bool): (r: seq<T>)
    ensures forall x :: x in r <==> x in s && p(x)
    ensures Distinct(s) ==> Distinct(r)
    ensures |r| <= |s|
  {
    if |s| == 0 then []
    else
      var rest := Filter(s[..|s| - 1], p);
      var x := s[|s| - 1];
      assert s == s[..|s| - 1] + [x];
      assert Distinct(s) ==> x !in s[..|s| - 1];
      if p(x) then rest + [x] else rest
  }

  lemma FilterAppend<T(!new)>(s: seq<T>, x: T, p: T -> bool)
    ensures Filter(s + [x], p) == if p(x) then Filter(s, p) + [x] else Filter(s, p)
  {
    assert (s + [x])[..|s|] == s;
  }

  /** Filtering one more element of `s`. */
  lemma FilterPrefixStep<T(!new)>(s: seq<T>, i: nat, p: T -> bool)
    requires i < |s|
    ensures Filter(s[..i + 1], p) == if p(s[i]) then Filter(s[..i], p) + [s[i]] else Filter(s[..i], p)
  {
    assert s[..i + 1] == s[..i] + [s[i]];
    FilterAppend(s[..i], s[i], p);
  }

  /** `set(s) & set(t)` kept as a sequence in the order of `s`. */
  function Intersect<T(==,!new)>(s: seq<T>, t: seq<T>): (r: seq<T>)
    ensures forall x :: x in r <==> x in s && x in t
    ensures Distinct(s) ==> Distinct(r)
  {
    Filter(s, x => x in t)
  }

  function SumReals(s: seq<real>): real
  {
    if |s| == 0 then 0.0 else SumReals(s[..|s| - 1]) + s[|s| - 1]
  }

  function SumNats(s: seq<nat>): nat
  {
    if |s| == 0 then 0 else SumNats(s[..|s| - 1]) + s[|s| - 1]
  }

  // ---------------------------------------------------------------- sorting

  /** A comparison is total when of any two values one comes first. */
  ghost predicate Total<T(!new)>(le: (T, T) -> bool) {
    forall a: T, b: T :: le(a, b) || le(b, a)
  }

  predicate SortedBy<T>(s: seq<T>, le: (T, T) -> bool) {
    forall i :: 0 <= i < |s| - 1 ==> le(s[i], s[i + 1])
  }

  /** Places `x` before the first element it may precede. */
  function Insert<T>(x: T, s: seq<T>, le: (T, T) -> bool): (r: seq<T>)
    ensures multiset(r) == multiset(s) + multiset{x}
    ensures |r| == |s| + 1
    ensures r[0] == x || (|s| > 0 && r[0] == s[0])
  {
    if |s| == 0 then [x]
    else if le(x, s[0]) then [x] + s
    else
      assert s == [s[0]] + s[1..];
      [s[0]] + Insert(x, s[1..], le)
  }

  lemma {:induction false} InsertSorted<T(!new)>(x: T, s: seq<T>, le: (T, T) -> bool)
    requires Total(le)
    requires SortedBy(s, le)
    ensures SortedBy(Insert(x, s, le), le)
  {
    if |s| > 0 && !le(x, s[0]) {
      assert le(s[0], x);
      InsertSorted(x, s[1..], le);
    }
  }

  /** Python's stable `sorted` under a total comparison (insertion sort). */
  function Sort<T>(s: seq<T>, le: (T, T) -> bool): (r: seq<T>)
    ensures multiset(r) == multiset(s)
    ensures |r| == |s|
  {
    if |s| == 0 then []
    else
      assert s == [s[0]] + s[1..];
      Insert(s[0], Sort(s[1..], le), le)
  }

  lemma {:induction false} SortSorted<T(!new)>(s: seq<T>, le: (T, T) -> bool)
    requires Total(le)
    ensures SortedBy(Sort(s, le), le)
  {
    if |s| > 0 {
      SortSorted(s[1..], le);
      InsertSorted(s[0], Sort(s[1..], le), le);
    }
  }

  /** Sorting changes nothing exactly when the sequence is already sorted (the sort is stable). */
  lemma {:induction false} SortFixedIffSorted<T(!new)>(s: seq<T>, le: (T, T) -> bool)
    requires Total(le)
    ensures Sort(s, le) == s <==> SortedBy(s, le)
  {
    SortSorted(s, le);
    if SortedBy(s, le) && |s| > 0 {
      var rest := s[1..];
      assert SortedBy(rest, le) by {
        forall i | 0 <= i < |rest| - 1 ensures le(rest[i], rest[i + 1]) {
          assert rest[i] == s[i + 1] && rest[i + 1] == s[i + 2];
        }
      }
      SortFixedIffSorted(rest, le);
      assert Sort(s, le) == Insert(s[0], rest, le);
      if |rest| > 0 {
        assert le(s[0], rest[0]);
      }
      assert s == [s[0]] + rest;
    }
  }

  /** Lexicographic order on strings by character code, as Python compares `str`. */
  predicate StrLe(a: string, b: string)
    decreases |a|
  {
    if |a| == 0 then true
    else if |b| == 0 then false
    else if a[0] != b[0] then a[0] < b[0]
    else StrLe(a[1..], b[1..])
  }

  predicate StrLt(a: string, b: string) {
    StrLe(a, b) && a != b
  }

  lemma {:induction false} StrLeTotal(a: string, b: string)
    ensures StrLe(a, b) || StrLe(b, a)
  {
    if |a| > 0 && |b| > 0 && a[0] == b[0] {
      StrLeTotal(a[1..], b[1..]);
    }
  }

  lemma {:induction false} StrLeAntisymmetric(a: string, b: string)
    requires StrLe(a, b) && StrLe(b, a)
    ensures a == b
  {
    if |a| > 0 && |b| > 0 {
      StrLeAntisymmetric(a[1..], b[1..]);
      assert a == [a[0]] + a[1..];
      assert b == [b[0]] + b[1..];
    }
  }

  /** A common prefix does not change the order of two strings. */
  lemma {:induction false} StrLeCommonPrefix(p: string, a: string, b: string)
    ensures StrLe(p + a, p + b) == StrLe(a, b)
    decreases |p|
  {
    if |p| == 0 {
      assert p + a == a && p + b == b;
    } else {
      var pa, pb := p + a, p + b;
      assert pa[0] == pb[0] == p[0];
      assert pa[1..] == p[1..] + a && pb[1..] == p[1..] + b;
      assert StrLe(pa, pb) == StrLe(pa[1..], pb[1..]);
      StrLeCommonPrefix(p[1..], a, b);
    }
  }

  lemma {:induction false} StrLeTransitive(a: string, b: string, c: string)
    requires StrLe(a, b) && StrLe(b, c)
    ensures StrLe(a, c)
  {
    if |a| > 0 && |b| > 0 && |c| > 0 && a[0] == b[0] && b[0] == c[0] {
      StrLeTransitive(a[1..], b[1..], c[1..]);
    }
  }

  /** In a sorted list of strings the first one comes before every other. */
  lemma {:induction false} StrSortedFirst(s: seq<string>, k: nat)
    requires SortedBy(s, StrLe) && k < |s|
    ensures StrLe(s[0], s[k])
  {
    if k > 0 {
      StrSortedFirst(s, k - 1);
      StrLeTransitive(s[0], s[k - 1], s[k]);
    } else {
      StrLeTotal(s[0], s[0]);
    }
  }

  lemma SortedTail<T>(s: seq<T>, le: (T, T) -> bool)
    requires SortedBy(s, le) && |s| > 0
    ensures SortedBy(s[1..], le)
  {
    forall k | 0 <= k < |s| - 2 ensures le(s[1..][k], s[1..][k + 1]) {
      assert s[1..][k] == s[k + 1] && s[1..][k + 1] == s[k + 2];
    }
  }

  /** Two sorted lists of the same strings are equal: sorting strings does not depend on their order. */
  lemma {:induction false} StrSortedUnique(a: seq<string>, b: seq<string>)
    requires SortedBy(a, StrLe) && SortedBy(b, StrLe) && multiset(a) == multiset(b)
    ensures a == b
  {
    if |a| > 0 {
      assert |b| > 0 by { assert |multiset(b)| == |multiset(a)|; }
      StrSortedHeads(a, b);
      MultisetTails(a, b);
      SortedTail(a, StrLe);
      SortedTail(b, StrLe);
      StrSortedUnique(a[1..], b[1..]);
      assert a == [a[0]] + a[1..] && b == [b[0]] + b[1..];
    }
  }

  /** Two sorted nonempty lists of the same strings start with the same one. */
  lemma StrSortedHeads(a: seq<string>, b: seq<string>)
    requires SortedBy(a, StrLe) && SortedBy(b, StrLe) && multiset(a) == multiset(b) && |a| > 0 && |b| > 0
    ensures a[0] == b[0]
  {
    assert a[0] in multiset(b) && b[0] in multiset(a);
    var i :| 0 <= i < |b| && b[i] == a[0];
    var j :| 0 <= j < |a| && a[j] == b[0];
    StrSortedFirst(b, i);
    StrSortedFirst(a, j);
    StrLeAntisymmetric(a[0], b[0]);
  }

  /** Lists with the same elements and the same first element have tails with the same elements. */
  lemma MultisetTails<T>(a: seq<T>, b: seq<T>)
    requires multiset(a) == multiset(b) && |a| > 0 && |b| > 0 && a[0] == b[0]
    ensures multiset(a[1..]) == multiset(b[1..])
  {
    assert a == [a[0]] + a[1..] && b == [b[0]] + b[1..];
    assert multiset(a) == multiset{a[0]} + multiset(a[1..]);
    assert multiset(b) == multiset{b[0]} + multiset(b[1..]);
    assert multiset(a[1..]) == multiset(a) - multiset{a[0]};
    assert multiset(b[1..]) == multiset(b) - multiset{b[0]};
  }

  lemma StrLeIsTotal()
    ensures Total(StrLe)
  {
    forall a: string, b: string ensures StrLe(a, b) || StrLe(b, a) {
      StrLeTotal(a, b);
    }
  }

  /** Lexicographic order on tuples of strings, as Python compares tuples. */
  predicate StrSeqLe(a: seq<string>, b: seq<string>)
    decreases |a|
  {
    if |a| == 0 then true
    else if |b| == 0 then false
    else if a[0] != b[0] then StrLe(a[0], b[0])
    else StrSeqLe(a[1..], b[1..])
  }

  lemma {:induction false} StrSeqLeTotal(a: seq<string>, b: seq<string>)
    ensures StrSeqLe(a, b) || StrSeqLe(b, a)
  {
    if |a| > 0 && |b| > 0 {
      if a[0] == b[0] { StrSeqLeTotal(a[1..], b[1..]); } else { StrLeTotal(a[0], b[0]); }
    }
  }

  lemma StrSeqLeIsTotal()
    ensures Total(StrSeqLe)
  {
    forall a: seq<string>, b: seq<string> ensures StrSeqLe(a, b) || StrSeqLe(b, a) {
      StrSeqLeTotal(a, b);
    }
  }
}
