/** The string operations of Python that the pipeline relies on, over
    `seq<char>`: `strip`, `lower`, `replace`, `split`, `join`, `find`,
    `rfind`, `in` and slicing with Python's index rules. Case mapping and
    whitespace are restricted to ASCII. */
module Strings {

  /** ASCII characters for which Python's `str.isspace` holds. */
  predicate IsSpace(c: char) {
    c == ' ' || c == '\t' || c == '\n' || c == '\r' || c == '\U{000B}' || c == '\U{000C}'
    || c == '\U{001C}' || c == '\U{001D}' || c == '\U{001E}' || c == '\U{001F}'
  }

  predicate AllSpace(s: string) {
    forall i :: 0 <= i < |s| ==> IsSpace(s[i])
  }

  /** How many whitespace characters `s` starts with. */
  function LeadingSpace(s: string): (n: nat)
    ensures n <= |s|
    ensures forall i :: 0 <= i < n ==> IsSpace(s[i])
    ensures n < |s| ==> !IsSpace(s[n])
  {
    if s != [] && IsSpace(s[0]) then 1 + LeadingSpace(s[1..]) else 0
  }

  /** Where the whitespace `s` ends with begins. */
  function TrailingStart(s: string): (n: nat)
    ensures n <= |s|
    ensures forall i :: n <= i < |s| ==> IsSpace(s[i])
    ensures n > 0 ==> !IsSpace(s[n - 1])
  {
    if s != [] && IsSpace(s[|s| - 1]) then TrailingStart(s[..|s| - 1]) else |s|
  }

  /** `s[a..b]` is `s` without a whitespace prefix `s[..a]` and a
      whitespace suffix `s[b..]`. */
  predicate TrimmedAt(s: string, a: int, b: int) {
    0 <= a <= b <= |s| && AllSpace(s[..a]) && AllSpace(s[b..])
  }

  /** `strip()`: drops the leading and trailing whitespace; what is left
      neither starts nor ends with whitespace, and is empty exactly when
      `s` is all whitespace. `StripTrims` and `StripPadded` say which
      slice of `s` it is. */
  function Strip(s: string): (r: string)
    ensures |r| <= |s|
    ensures r != [] ==> !IsSpace(r[0]) && !IsSpace(r[|r| - 1])
    ensures r == [] <==> AllSpace(s)
    ensures forall c :: c in r ==> c in s
  {
    var a := LeadingSpace(s);
    var b := TrailingStart(s);
    if b <= a then []
    else
      assert forall c :: c in s[a..b] ==> c in s by {
        forall c | c in s[a..b] ensures c in s {
          var i :| 0 <= i < b - a && s[a..b][i] == c;
          assert s[a + i] == c;
        }
      }
      s[a..b]
  }

  /** The stripped text is a slice of `s` with only whitespace before it
      and only whitespace after it. */
  lemma StripTrims(s: string)
    ensures exists a, b :: TrimmedAt(s, a, b) && Strip(s) == s[a..b]
  {
    var a, b := LeadingSpace(s), TrailingStart(s);
    if b <= a {
      assert AllSpace(s);
      assert TrimmedAt(s, |s|, |s|) && Strip(s) == s[|s|..|s|];
    } else {
      assert TrimmedAt(s, a, b) && Strip(s) == s[a..b];
    }
  }

  /** Stripping removes exactly the outer whitespace: text padded with
      whitespace on both sides strips back to the text. */
  lemma StripPadded(pre: string, t: string, post: string)
    requires AllSpace(pre) && AllSpace(post)
    requires t != [] ==> !IsSpace(t[0]) && !IsSpace(t[|t| - 1])
    ensures Strip(pre + t + post) == t
  {
    var s := pre + t + post;
    if t == [] {
      assert AllSpace(s) by {
        forall i | 0 <= i < |s| ensures IsSpace(s[i]) {
          if i < |pre| { assert s[i] == pre[i]; } else { assert s[i] == post[i - |pre|]; }
        }
      }
    } else {
      assert s[|pre|] == t[0];
      assert s[|pre| + |t| - 1] == t[|t| - 1];
      forall i | 0 <= i < |pre| ensures IsSpace(s[i]) {
        assert s[i] == pre[i];
      }
      forall i | |pre| + |t| <= i < |s| ensures IsSpace(s[i]) {
        assert s[i] == post[i - |pre| - |t|];
      }
      LeadingSpaceIs(s, |pre|);
      TrailingStartIs(s, |pre| + |t|);
      assert s[|pre|..|pre| + |t|] == t;
    }
  }

  lemma LeadingSpaceIs(s: string, n: nat)
    requires n < |s| && !IsSpace(s[n])
    requires forall i :: 0 <= i < n ==> IsSpace(s[i])
    ensures LeadingSpace(s) == n
  {
  }

  lemma TrailingStartIs(s: string, m: nat)
    requires 0 < m <= |s| && !IsSpace(s[m - 1])
    requires forall i :: m <= i < |s| ==> IsSpace(s[i])
    ensures TrailingStart(s) == m
  {
  }

  lemma InConcat(a: string, b: string)
    ensures forall c :: c in a ==> c in a + b
    ensures forall c :: c in b ==> c in a + b
  {
    forall c | c in b ensures c in a + b {
      var i :| 0 <= i < |b| && b[i] == c;
      assert (a + b)[|a| + i] == c;
    }
  }

  /** Stripping a string that has no outer whitespace changes nothing. */
  lemma StripStripped(s: string)
    requires s != [] ==> !IsSpace(s[0]) && !IsSpace(s[|s| - 1])
    ensures Strip(s) == s
  {
    assert LeadingSpace(s) == 0;
    assert TrailingStart(s) == |s|;
  }

  function LowerChar(c: char): (d: char)
    ensures !('A' <= d <= 'Z')
    ensures 'a' <= c <= 'z' ==> d == c
  {
    if 'A' <= c <= 'Z' then (c as int + 32) as char else c
  }

  /** `lower()` on ASCII letters; other characters are kept. */
  function Lower(s: string): (r: string)
    ensures |r| == |s|
    ensures forall i :: 0 <= i < |s| ==> r[i] == LowerChar(s[i])
  {
    seq(|s|, i requires 0 <= i < |s| => LowerChar(s[i]))
  }

  /** `replace(a, b)` for one-character `a` and `b`. */
  function ReplaceChar(s: string, a: char, b: char): (r: string)
    ensures |r| == |s|
    ensures forall i :: 0 <= i < |s| ==> r[i] == (if s[i] == a then b else s[i])
    ensures a != b ==> a !in r
  {
    seq(|s|, i requires 0 <= i < |s| => if s[i] == a then b else s[i])
  }

  /** `s.find(c)`: the first index of `c`, or -1. */
  function IndexOf(s: string, c: char): (k: int)
    ensures -1 <= k < |s|
    ensures k == -1 <==> c !in s
    ensures k >= 0 ==> s[k] == c && c !in s[..k]
  {
    if s == [] then -1
    else if s[0] == c then 0
    else
      var k := IndexOf(s[1..], c);
      assert s[1..][..if k < 0 then 0 else k] == s[1..if k < 0 then 1 else k + 1];
      if k < 0 then -1 else k + 1
  }

  /** `s.rfind(c)`: the last index of `c`, or -1. */
  function LastIndexOf(s: string, c: char): (k: int)
    ensures -1 <= k < |s|
    ensures k == -1 <==> c !in s
    ensures k >= 0 ==> s[k] == c && c !in s[k + 1..]
  {
    if s == [] then -1
    else if s[|s| - 1] == c then |s| - 1
    else
      var k := LastIndexOf(s[..|s| - 1], c);
      DropLast(s, k);
      k
  }

  /** `s` is its front and its last character; what follows index `k` of
      the front is, in `s`, followed by that last character. */
  lemma DropLast(s: string, k: int)
    requires s != [] && -1 <= k < |s| - 1
    ensures s == s[..|s| - 1] + [s[|s| - 1]]
    ensures forall c :: c in s <==> c in s[..|s| - 1] || c == s[|s| - 1]
    ensures k >= 0 ==> s[k + 1..] == s[..|s| - 1][k + 1..] + [s[|s| - 1]]
  {
    var front := s[..|s| - 1];
    assert s == front + [s[|s| - 1]];
    InConcat(front, [s[|s| - 1]]);
  }

  lemma IndexOfAfter(a: string, c: char, b: string)
    requires c !in a
    ensures IndexOf(a + [c] + b, c) == |a|
  {
    var s := a + [c] + b;
    var k := IndexOf(s, c);
    assert s[|a|] == c;
  }

  /** `sep.join(parts)`. */
  function Join(parts: seq<string>, sep: string): (r: string)
  {
    if parts == [] then []
    else if |parts| == 1 then parts[0]
    else parts[0] + sep + Join(parts[1..], sep)
  }

  /** Python's `repr` of a list of plain names (no quote or backslash in them). */
  function PyListRepr(xs: seq<string>): string {
    "[" + Join(seq(|xs|, i requires 0 <= i < |xs| => "'" + xs[i] + "'"), ", ") + "]"
  }

  /** The repr of a one-name list. */
  lemma PyListReprOne(x: string)
    ensures PyListRepr([x]) == "['" + x + "']"
  {
    var q := seq(1, i requires 0 <= i < 1 => "'" + [x][i] + "'");
    assert q == ["'" + x + "'"];
  }

  /** The repr of a two-name list. */
  lemma PyListReprTwo(x: string, y: string)
    ensures PyListRepr([x, y]) == "['" + x + "', '" + y + "']"
  {
    var q := seq(2, i requires 0 <= i < 2 => "'" + [x, y][i] + "'");
    assert q == ["'" + x + "'", "'" + y + "'"];
    assert q[1..] == ["'" + y + "'"];
    assert Join(q, ", ") == "'" + x + "'" + ", " + ("'" + y + "'");
  }

  /** `s.split(sep)` for a one-character separator: the pieces between
      separators, at least one; joining them back gives `s`. */
  function Split(s: string, sep: char): (parts: seq<string>)
    ensures |parts| >= 1
    ensures forall i :: 0 <= i < |parts| ==> sep !in parts[i]
    ensures Join(parts, [sep]) == s
    decreases |s|
  {
    var k := IndexOf(s, sep);
    if k < 0 then [s]
    else
      var rest := Split(s[k + 1..], sep);
      assert s == s[..k] + [sep] + s[k + 1..];
      [s[..k]] + rest
  }

  /** The first part of a split is a prefix of the input. */
  lemma SplitHead(s: string, sep: char)
    ensures |Split(s, sep)[0]| <= |s| && Split(s, sep)[0] == s[..|Split(s, sep)[0]|]
  {
    var k := IndexOf(s, sep);
    if k >= 0 {
      assert Split(s, sep)[0] == s[..k];
    }
  }

  /** Splitting a join of separator-free parts gives the parts back. */
  lemma {:induction false} SplitJoin(parts: seq<string>, sep: char)
    requires parts != []
    requires forall i :: 0 <= i < |parts| ==> sep !in parts[i]
    ensures Split(Join(parts, [sep]), sep) == parts
    decreases |parts|
  {
    if |parts| > 1 {
      var rest := Join(parts[1..], [sep]);
      IndexOfAfter(parts[0], sep, rest);
      var s := Join(parts, [sep]);
      assert s == parts[0] + [sep] + rest;
      assert s[|parts[0]| + 1..] == rest;
      assert s[..|parts[0]|] == parts[0];
      SplitJoin(parts[1..], sep);
    } else {
      assert sep !in parts[0];
    }
  }

  function StartsWith(s: string, p: string): bool {
    |p| <= |s| && s[..|p|] == p
  }

  /** `p` occurs in `s` at position `i`. */
  predicate OccursAt(s: string, p: string, i: int) {
    0 <= i <= |s| - |p| && s[i..i + |p|] == p
  }

  /** Python's `p in s` for strings. */
  predicate Contains(s: string, p: string)
    decreases |s|
  {
    StartsWith(s, p) || (s != [] && Contains(s[1..], p))
  }

  /** The recursive search agrees with "p occurs at some position". */
  lemma {:induction false} ContainsAt(s: string, p: string)
    ensures Contains(s, p) <==> exists i :: OccursAt(s, p, i)
    decreases |s|
  {
    if s != [] {
      ContainsAt(s[1..], p);
      ContainsAtStep(s, p);
    } else {
      if StartsWith(s, p) {
        assert OccursAt(s, p, 0);
      }
      if i :| OccursAt(s, p, i) {
        assert StartsWith(s, p);
      }
    }
  }

  /** The step of `ContainsAt`: an occurrence in `s` is at position 0 or
      one place further on than an occurrence in `s[1..]`. */
  lemma ContainsAtStep(s: string, p: string)
    requires s != []
    requires Contains(s[1..], p) <==> exists i :: OccursAt(s[1..], p, i)
    ensures Contains(s, p) <==> exists i :: OccursAt(s, p, i)
  {
    if StartsWith(s, p) {
      assert OccursAt(s, p, 0);
    }
    if Contains(s[1..], p) {
      var i :| OccursAt(s[1..], p, i);
      OccursShift(s, p, i);
    }
    if i :| OccursAt(s, p, i) {
      if i > 0 {
        OccursShift(s, p, i - 1);
      } else {
        assert StartsWith(s, p);
      }
    }
  }

  lemma OccursShift(s: string, p: string, i: nat)
    requires s != []
    ensures OccursAt(s[1..], p, i) <==> OccursAt(s, p, i + 1)
  {
    if 0 <= i <= |s| - 1 - |p| {
      assert s[1..][i..i + |p|] == s[i + 1..i + 1 + |p|];
    }
  }

  /** `s.replace(p, "")` for non-empty `p`: occurrences are removed in a
      left-to-right scan, and the text produced is not scanned again. */
  function RemoveAll(s: string, p: string): (r: string)
    requires p != []
    ensures |r| <= |s|
    decreases |s|
  {
    if s == [] then []
    else if StartsWith(s, p) then RemoveAll(s[|p|..], p)
    else [s[0]] + RemoveAll(s[1..], p)
  }

  /** Text without an occurrence of `p` is left as it is. */
  lemma {:induction false} RemoveAllAbsent(s: string, p: string)
    requires p != [] && !Contains(s, p)
    ensures RemoveAll(s, p) == s
    decreases |s|
  {
    if s != [] {
      RemoveAllAbsent(s[1..], p);
    }
  }

  /** Python's slice `s[start:end]`: negative indices count from the end,
      out-of-range indices are clamped, and a reversed range is empty. */
  function Clamp(i: int, n: nat): (k: nat)
    ensures k <= n
  {
    if i < 0 then (if i + n < 0 then 0 else i + n) else if i > n then n else i
  }

  function PySlice(s: string, start: int, end: int): (r: string)
    ensures |r| <= |s|
  {
    var a, b := Clamp(start, |s|), Clamp(end, |s|);
    if a < b then s[a..b] else []
  }

  function DigitChar(d: nat): (c: char)
    requires d < 10
  {
    "0123456789"[d]
  }

  /** `str(n)` for a natural number, in decimal. */
  function NatToString(n: nat): (r: string)
    ensures r != []
    ensures forall i :: 0 <= i < |r| ==> '0' <= r[i] <= '9'
    ensures n > 0 <==> r[0] != '0'
    ensures n == 0 <==> r == "0"
    decreases n
  {
    if n < 10 then [DigitChar(n)] else NatToString(n / 10) + [DigitChar(n % 10)]
  }

  function DecimalValue(s: string): nat
    requires forall i :: 0 <= i < |s| ==> '0' <= s[i] <= '9'
  {
    if s == [] then 0 else 10 * DecimalValue(s[..|s| - 1]) + (s[|s| - 1] as int - '0' as int)
  }

  /** Reading the decimal text back gives the number: distinct status codes
      give distinct messages. */
  lemma {:induction false} NatToStringValue(n: nat)
    ensures DecimalValue(NatToString(n)) == n
    decreases n
  {
    if n >= 10 {
      NatToStringValue(n / 10);
      var front := NatToString(n / 10);
      var r := front + [DigitChar(n % 10)];
      assert r[..|r| - 1] == front;
      assert DigitChar(n % 10) as int - '0' as int == n % 10;
      assert DecimalValue(r) == 10 * DecimalValue(front) + n % 10;
    } else {
      assert DigitChar(n) as int - '0' as int == n;
      assert [DigitChar(n)][..0] == [];
    }
  }
}
