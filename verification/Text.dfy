/** The few string operations of the Go standard library that the program's rules rest on. */
module Text {
  import opened Wrappers
  import opened Sorting

  /** Go compares strings byte by byte; on valid UTF-8 that is code point by code point. */
  predicate LexLeq(a: string, b: string) {
    if a == [] then true
    else if b == [] then false
    else a[0] < b[0] || (a[0] == b[0] && LexLeq(a[1..], b[1..]))
  }

  lemma {:induction false} LexLeqTotal(a: string, b: string)
    ensures LexLeq(a, b) || LexLeq(b, a)
  {
    if a != [] && b != [] && a[0] == b[0] { LexLeqTotal(a[1..], b[1..]); }
  }

  lemma {:induction false} LexLeqAntiSymmetric(a: string, b: string)
    requires LexLeq(a, b) && LexLeq(b, a)
    ensures a == b
  {
    if a != [] && b != [] {
      LexLeqAntiSymmetric(a[1..], b[1..]);
      assert a == [a[0]] + a[1..] && b == [b[0]] + b[1..];
    }
  }

  lemma {:induction false} LexLeqTransitive(a: string, b: string, c: string)
    requires LexLeq(a, b) && LexLeq(b, c)
    ensures LexLeq(a, c)
  {
    if a != [] && a[0] == b[0] && b[0] == c[0] { LexLeqTransitive(a[1..], b[1..], c[1..]); }
  }

  lemma LexLeqIsTotalOrder()
    ensures TotalPreorder(LexLeq) && AntiSymmetric(LexLeq)
  {
    forall a: string, b: string ensures LexLeq(a, b) || LexLeq(b, a) { LexLeqTotal(a, b); }
    forall a: string, b: string | LexLeq(a, b) && LexLeq(b, a) ensures a == b {
      LexLeqAntiSymmetric(a, b);
    }
    forall a: string, b: string, c: string | LexLeq(a, b) && LexLeq(b, c) ensures LexLeq(a, c) {
      LexLeqTransitive(a, b, c);
    }
  }

  predicate HasPrefix(s: string, p: string) { p <= s }

  predicate HasSuffix(s: string, p: string) { |p| <= |s| && s[|s| - |p|..] == p }

  predicate OccursAt(s: string, needle: string, i: nat) {
    i + |needle| <= |s| && s[i..i + |needle|] == needle
  }

  /** `strings.Contains`. */
  predicate Contains(s: string, needle: string) {
    exists i :: 0 <= i <= |s| && OccursAt(s, needle, i)
  }

  /** The white space `strings.TrimSpace` removes, within Latin-1. */
  predicate IsSpace(c: char) {
    c in {' ', '\t', '\n', '\r', 0x0B as char, 0x0C as char, 0x85 as char, 0xA0 as char}
  }

  function TrimLeft(s: string): (t: string) {
    if s != [] && IsSpace(s[0]) then TrimLeft(s[1..]) else s
  }

  function TrimRight(s: string): (t: string) {
    if s != [] && IsSpace(s[|s| - 1]) then TrimRight(s[..|s| - 1]) else s
  }

  function TrimSpace(s: string): (t: string) { TrimRight(TrimLeft(s)) }

  /** The index of the first occurrence of `c`, as `strings.Index` of a one-character needle. */
  function IndexOf(s: string, c: char): (r: Option<nat>)
    ensures r.Some? ==> r.value < |s| && s[r.value] == c && c !in s[..r.value]
    ensures r.None? ==> c !in s
  {
    if s == [] then None
    else if s[0] == c then Some(0)
    else
      match IndexOf(s[1..], c)
      case None => None
      case Some(i) => assert s[..i + 1] == [s[0]] + s[1..][..i]; Some(i + 1)
  }

  /** Everything after the last `c`, or all of `s` when there is none. */
  function AfterLast(s: string, c: char): (r: string)
    ensures HasSuffix(s, r) && c !in r
    ensures c !in s ==> r == s
    ensures |r| < |s| ==> s[|s| - |r| - 1] == c
  {
    if s == [] then []
    else if s[|s| - 1] == c then []
    else
      var r := AfterLast(s[..|s| - 1], c);
      assert s == s[..|s| - 1] + [s[|s| - 1]];
      r + [s[|s| - 1]]
  }

  predicate IsDigit(c: char) { '0' <= c <= '9' }

  /** The decimal digit character for `d`. */
  function Digit(d: nat): (c: char)
    requires d < 10
    ensures IsDigit(c) && c as int == '0' as int + d
  {
    ('0' as int + d) as char
  }

  /** `n` in decimal, zero-padded on the left to exactly `width` characters. */
  function Padded(width: nat, n: nat): (s: string)
    ensures |s| == width && forall i :: 0 <= i < |s| ==> IsDigit(s[i])
  {
    if width == 0 then [] else Padded(width - 1, n / 10) + [Digit(n % 10)]
  }

  function Pow10(k: nat): (p: nat)
    ensures p >= 1
  {
    if k == 0 then 1 else 10 * Pow10(k - 1)
  }

  /** Comparing two equally long strings is decided by their fronts unless those are equal. */
  lemma {:induction false} LexLeqAppend(a: string, b: string, x: string, y: string)
    requires |a| == |b|
    ensures a == b ==> (LexLeq(a + x, b + y) <==> LexLeq(x, y))
    ensures a != b ==> (LexLeq(a + x, b + y) <==> LexLeq(a, b))
  {
    if a == [] {
      assert a + x == x && b + y == y;
    } else {
      assert (a + x)[1..] == a[1..] + x && (b + y)[1..] == b[1..] + y;
      assert a == [a[0]] + a[1..] && b == [b[0]] + b[1..];
      LexLeqAppend(a[1..], b[1..], x, y);
      if a == b { assert a[1..] == b[1..]; }
    }
  }

  /** Zero padding makes the order of the text the order of the numbers. */
  lemma {:induction false} PaddedOrder(width: nat, m: nat, n: nat)
    requires m < Pow10(width) && n < Pow10(width)
    ensures LexLeq(Padded(width, m), Padded(width, n)) <==> m <= n
    ensures Padded(width, m) == Padded(width, n) ==> m == n
  {
    if width > 0 {
      PaddedOrder(width - 1, m / 10, n / 10);
      var a, b := Padded(width - 1, m / 10), Padded(width - 1, n / 10);
      var x, y := [Digit(m % 10)], [Digit(n % 10)];
      LexLeqAppend(a, b, x, y);
      assert LexLeq(x, y) <==> m % 10 <= n % 10 by {
        assert x[1..] == [] && y[1..] == [];
      }
      if a + x == b + y {
        assert a == (a + x)[..|a|] == (b + y)[..|b|] == b;
        assert x[0] == (a + x)[|a|] == (b + y)[|b|] == y[0];
      }
      if a != b && LexLeq(a, b) {
        assert m / 10 != n / 10;
      }
    }
  }
}
