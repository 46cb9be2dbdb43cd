/** Python `str` operations the configuration core relies on: `split`, `rsplit`,
    `join`, `in` (substring), `startswith`, `str(int)` and the code-point order
    that `sorted` uses on keys. */
module Text {

  /** Python's `a < b` on strings: lexicographic by code point, a proper prefix first. */
  predicate StrLt(a: string, b: string) {
    if a == [] then b != [] else b != [] && (a[0] < b[0] || (a[0] == b[0] && StrLt(a[1..], b[1..])))
  }

  lemma {:induction false} StrLtTotal(a: string, b: string)
    ensures a == b || StrLt(a, b) || StrLt(b, a)
  {
    if a != [] && b != [] && a[0] == b[0] {
      StrLtTotal(a[1..], b[1..]);
      if a[1..] == b[1..] {
        assert a == [a[0]] + a[1..];
        assert b == [b[0]] + b[1..];
      }
    }
  }

  lemma {:induction false} StrLtTrans(a: string, b: string, c: string)
    requires StrLt(a, b) && StrLt(b, c)
    ensures StrLt(a, c)
  {
    if a != [] && a[0] == b[0] && b[0] == c[0] {
      StrLtTrans(a[1..], b[1..], c[1..]);
    }
  }

  lemma {:induction false} StrLtIrreflexive(a: string)
    ensures !StrLt(a, a)
  {
    if a != [] {
      StrLtIrreflexive(a[1..]);
    }
  }

  /** `StrLt` is a strict total order. */
  lemma StrLtOrder()
    ensures forall a, b :: a == b || StrLt(a, b) || StrLt(b, a)
    ensures forall a :: !StrLt(a, a)
    ensures forall a, b :: !(StrLt(a, b) && StrLt(b, a))
  {
    forall a, b | StrLt(a, b) && StrLt(b, a) ensures false {
      StrLtTrans(a, b, a);
      StrLtIrreflexive(a);
    }
    forall a, b ensures a == b || StrLt(a, b) || StrLt(b, a) {
      StrLtTotal(a, b);
    }
    forall a ensures !StrLt(a, a) {
      StrLtIrreflexive(a);
    }
  }

  ghost predicate IsLeast(m: string, s: set<string>) {
    m in s && forall y :: y in s ==> y == m || StrLt(m, y)
  }

  lemma {:induction false} LeastExists(s: set<string>)
    requires s != {}
    ensures exists m :: IsLeast(m, s)
    decreases |s|
  {
    var x :| x in s;
    if s == {x} {
      assert IsLeast(x, s);
    } else {
      LeastExists(s - {x});
      var m :| IsLeast(m, s - {x});
      StrLtTotal(x, m);
      if StrLt(x, m) {
        forall y | y in s ensures y == x || StrLt(x, y) {
          if y != x && y != m {
            StrLtTrans(x, m, y);
          }
        }
        assert IsLeast(x, s);
      } else {
        assert IsLeast(m, s);
      }
    }
  }

  /** The smallest string of a non-empty set. */
  function Least(s: set<string>): (m: string)
    requires s != {}
    ensures m in s && forall y :: y in s ==> y == m || StrLt(m, y)
  {
    LeastExists(s);
    StrLtOrder();
    var m :| m in s && forall y :: y in s ==> y == m || StrLt(m, y); m
  }

  /** Python's `sorted(s)` for a set of strings: strictly increasing, same elements. */
  function SortedStrings(s: set<string>): (r: seq<string>)
    ensures forall i, j :: 0 <= i < j < |r| ==> StrLt(r[i], r[j])
    ensures forall x :: x in s <==> x in r
    ensures |r| == |s|
    decreases |s|
  {
    if s == {} then []
    else
      var m := Least(s);
      var rest := SortedStrings(s - {m});
      forall j | 0 <= j < |rest| ensures StrLt(m, rest[j]) {
        assert rest[j] in rest;
      }
      [m] + rest
  }

  /** Index of the first `c` in `s`. */
  function IndexOf(s: string, c: char): (i: nat)
    requires c in s
    ensures i < |s| && s[i] == c && c !in s[..i]
  {
    if s[0] == c then 0 else 1 + IndexOf(s[1..], c)
  }

  /** Python's `s.split(c)` for a one-character separator. */
  function SplitOn(s: string, c: char): (parts: seq<string>)
    ensures |parts| >= 1
    ensures forall i :: 0 <= i < |parts| ==> c !in parts[i]
    decreases |s|
  {
    if c !in s then [s]
    else
      var i := IndexOf(s, c);
      [s[..i]] + SplitOn(s[i + 1..], c)
  }

  /** Python's `sep.join(parts)` for a one-character separator. */
  function JoinWith(c: char, parts: seq<string>): string {
    if |parts| == 0 then ""
    else if |parts| == 1 then parts[0]
    else parts[0] + [c] + JoinWith(c, parts[1..])
  }

  /** Cutting a string around its `i`th character. */
  lemma Around(s: string, i: nat)
    requires i < |s|
    ensures s == s[..i] + [s[i]] + s[i + 1..]
  {
    assert s[i..] == [s[i]] + s[i + 1..];
    assert s == s[..i] + s[i..];
  }

  /** The index of a character in `a + b` when `a` does not contain it. */
  lemma {:induction false} IndexOfAfter(a: string, c: char, b: string)
    requires c !in a && c in b
    ensures IndexOf(a + b, c) == |a| + IndexOf(b, c)
  {
    if a != [] {
      assert (a + b)[0] == a[0] != c;
      assert (a + b)[1..] == a[1..] + b;
      assert c !in a[1..];
      IndexOfAfter(a[1..], c, b);
    } else {
      assert a + b == b;
    }
  }

  /** A string with a first separator after a separator-free `a` splits into `a`
      and the split of the rest. */
  lemma SplitFirst(a: string, c: char, t: string)
    requires c !in a
    ensures SplitOn(a + [c] + t, c) == [a] + SplitOn(t, c)
  {
    var s := a + [c] + t;
    assert s == a + ([c] + t);
    IndexOfAfter(a, c, [c] + t);
    assert IndexOf(s, c) == |a|;
    assert s[..|a|] == a;
    assert s[|a| + 1..] == t;
  }

  /** Joining a first part onto a non-empty list puts one separator between. */
  lemma JoinFirst(c: char, a: string, ps: seq<string>)
    requires |ps| >= 1
    ensures JoinWith(c, [a] + ps) == a + [c] + JoinWith(c, ps)
  {
    assert ([a] + ps)[0] == a && ([a] + ps)[1..] == ps;
  }

  lemma {:induction false} JoinSplit(s: string, c: char)
    ensures JoinWith(c, SplitOn(s, c)) == s
    decreases |s|
  {
    if c in s {
      var i := IndexOf(s, c);
      var a, t := s[..i], s[i + 1..];
      JoinSplit(t, c);
      JoinFirst(c, a, SplitOn(t, c));
      Around(s, i);
    }
  }

  lemma {:induction false} SplitJoin(parts: seq<string>, c: char)
    requires |parts| >= 1
    requires forall i :: 0 <= i < |parts| ==> c !in parts[i]
    ensures SplitOn(JoinWith(c, parts), c) == parts
  {
    if |parts| > 1 {
      var rest := parts[1..];
      SplitFirst(parts[0], c, JoinWith(c, rest));
      forall j | 0 <= j < |rest| ensures c !in rest[j] {
        assert rest[j] == parts[j + 1];
      }
      SplitJoin(rest, c);
      assert parts == [parts[0]] + rest;
    }
  }

  /** Appending a separator and a separator-free part appends one part to the split. */
  lemma {:induction false} SplitAppend(s: string, c: char, t: string)
    requires c !in t
    ensures SplitOn(s + [c] + t, c) == SplitOn(s, c) + [t]
    decreases |s|
  {
    if c !in s {
      SplitFirst(s, c, t);
    } else {
      var i := IndexOf(s, c);
      var a, r := s[..i], s[i + 1..];
      Around(s, i);
      var u := s + [c] + t;
      assert u == a + [c] + (r + [c] + t);
      SplitFirst(a, c, r + [c] + t);
      SplitAppend(r, c, t);
      SplitFirst(a, c, r);
      var x := SplitOn(r, c);
      assert SplitOn(u, c) == [a] + (x + [t]);
      assert SplitOn(s, c) == [a] + x;
      assert [a] + (x + [t]) == [a] + x + [t];
    }
  }

  /** The dotted path `a.b.c` as its segments `["a", "b", "c"]`. */
  function Segments(key: string): (p: seq<string>)
    ensures |p| >= 1 && forall i :: 0 <= i < |p| ==> '.' !in p[i]
  {
    SplitOn(key, '.')
  }

  /** Segments joined back into a dotted key. */
  function Dotted(p: seq<string>): string {
    JoinWith('.', p)
  }

  ghost predicate DotFree(p: seq<string>) {
    forall i :: 0 <= i < |p| ==> '.' !in p[i]
  }

  /** A dotted key built from dot-free segments splits back into those segments. */
  lemma DottedSegments(p: seq<string>)
    requires |p| >= 1 && DotFree(p)
    ensures Segments(Dotted(p)) == p
  {
    SplitJoin(p, '.');
  }

  /** Dotted keys of dot-free paths are equal only when the paths are. */
  lemma DottedInjective(p: seq<string>, q: seq<string>)
    requires |p| >= 1 && DotFree(p) && |q| >= 1 && DotFree(q)
    requires Dotted(p) == Dotted(q)
    ensures p == q
  {
    DottedSegments(p);
    DottedSegments(q);
  }

  /** Python's `sub in s`. */
  predicate Contains(s: string, sub: string) {
    (|sub| <= |s| && s[..|sub|] == sub) || (|s| > 0 && Contains(s[1..], sub))
  }

  /** Python's `s.split(sub)[0]`: the text before the first occurrence of `sub`, or all of `s`. */
  function BeforeFirst(s: string, sub: string): (r: string)
    requires |sub| > 0
    ensures |r| <= |s| && r == s[..|r|]
    ensures !Contains(s, sub) ==> r == s
  {
    if |sub| <= |s| && s[..|sub|] == sub then ""
    else if s == [] then ""
    else [s[0]] + BeforeFirst(s[1..], sub)
  }

  /** Python's `s.startswith(prefix)`. */
  predicate StartsWith(s: string, prefix: string) {
    |prefix| <= |s| && s[..|prefix|] == prefix
  }

  /** Python's `s.rsplit(c, 1)[0]`: the text before the last `c`, or all of `s`. */
  function BeforeLast(s: string, c: char): (r: string)
    ensures c !in s ==> r == s
    ensures c in s ==> |r| < |s| && s[|r|] == c && c !in s[|r| + 1..] && r == s[..|r|]
  {
    if c !in s then s
    else if s[|s| - 1] == c then s[..|s| - 1]
    else
      var r := BeforeLast(s[..|s| - 1], c);
      assert s[..|s| - 1][|r| + 1..] + [s[|s| - 1]] == s[|r| + 1..];
      r
  }

  /** Python's `s.split(c)[-1]`. */
  function AfterLast(s: string, c: char): string {
    var parts := SplitOn(s, c);
    parts[|parts| - 1]
  }

  function DigitChar(d: nat): (c: char)
    requires d < 10
    ensures '0' <= c <= '9' && DigitValue(c) == d
  {
    "0123456789"[d]
  }

  /** The value of a decimal digit. */
  function DigitValue(c: char): int {
    c as int - '0' as int
  }

  predicate IsDigits(s: string) {
    forall i :: 0 <= i < |s| ==> '0' <= s[i] <= '9'
  }

  /** The number a string of decimal digits stands for, as Python's `int(s)` reads it. */
  function ParseNat(s: string): nat
    requires IsDigits(s)
    decreases |s|
  {
    if s == [] then 0
    else
      assert IsDigits(s[..|s| - 1]);
      ParseNat(s[..|s| - 1]) * 10 + DigitValue(s[|s| - 1])
  }

  /** An optional minus sign followed by decimal digits. */
  predicate IsNumeral(s: string) {
    |s| >= 1 && (s[0] == '-' ==> IsDigits(s[1..])) && (s[0] != '-' ==> IsDigits(s))
  }

  /** `int(s)` for a numeral. */
  function ParseInt(s: string): int
    requires IsNumeral(s)
  {
    if s[0] == '-' then -(ParseNat(s[1..]) as int) else ParseNat(s)
  }

  /** Python's `str(n)` for a natural number: its decimal digits, which read back as `n`. */
  function NatToString(n: nat): (r: string)
    ensures |r| >= 1 && IsDigits(r)
    ensures ParseNat(r) == n
  {
    if n < 10 then
      var r := [DigitChar(n)];
      assert r[..0] == [];
      r
    else
      var h := NatToString(n / 10);
      var r := h + [DigitChar(n % 10)];
      assert r[..|r| - 1] == h;
      r
  }

  /** Python's `str(i)` for an integer: a minus sign for a negative number, then its
      digits; `int` reads it back as `i`, so distinct integers give distinct strings. */
  function IntToString(i: int): (r: string)
    ensures IsNumeral(r)
    ensures forall j :: 0 <= j < |r| ==> r[j] == '-' || '0' <= r[j] <= '9'
    ensures '.' !in r
    ensures ParseInt(r) == i
  {
    if i < 0 then
      var d := NatToString(-i);
      var r := "-" + d;
      assert r[1..] == d;
      r
    else NatToString(i)
  }

  /** Formatting is one-to-one. */
  lemma IntToStringInjective(i: int, j: int)
    requires IntToString(i) == IntToString(j)
    ensures i == j
  {
  }
}
