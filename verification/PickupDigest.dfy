/**
 internal/dynasty/pickups_digest.go: fitting a ranked list of lines into one message.
 A character stands for one byte, since the budget is counted in bytes.
 */
module PickupDigest {
  import opened Text

  datatype Item = Item(key: string, line: string)

  datatype Digest = Digest(body: string, shown: nat)

  const MaxMessageLen: nat := 1024

  function Body(items: seq<Item>): (body: string) {
    if items == [] then [] else Body(items[..|items| - 1]) + items[|items| - 1].line + "\n"
  }

  function Decimal(n: nat): (s: string)
    ensures |s| >= 1
  {
    if n < 10 then [Digit(n)] else Decimal(n / 10) + [Digit(n % 10)]
  }

  /** The three bytes of the ellipsis, then the words. */
  function Trailer(n: nat): (s: string) {
    [0xE2 as char, 0x80 as char, 0xA6 as char] + "and " + Decimal(n) + " more"
  }

  /** How many leading lines fit a budget of bytes, stopping at the first that does not. */
  function Fit(items: seq<Item>, budget: int): (shown: nat)
    ensures shown <= |items|
  {
    if items == [] || |items[0].line| + 1 > budget then 0
    else 1 + Fit(items[1..], budget - |items[0].line| - 1)
  }

  /** The message `FormatPickupDigest` builds before its final truncation. */
  function Format(items: seq<Item>): (d: Digest)
    ensures d.shown <= |items|
  {
    var first := Fit(items, MaxMessageLen);
    if first == |items| then Digest(Body(items), first)
    else
      var second := Fit(items, MaxMessageLen - |Trailer(|items|)|);
      if second == 0 && first > 0 then Digest(Body(items[..first]), first)
      else Digest(Body(items[..second]) + Trailer(|items| - second), second)
  }

  /** `pushover.Truncate`: back up from the cap to a byte that starts a rune. */
  function RuneCut(s: string, cut: nat): (c: nat)
    requires cut <= |s|
    ensures c <= cut
  {
    if 0 < cut < |s| && 0x80 <= s[cut] as int < 0xC0 then RuneCut(s, cut - 1) else cut
  }

  function Truncate(s: string): (t: string) {
    if |s| <= MaxMessageLen then s
    else s[..RuneCut(s, MaxMessageLen - 3)] + [0xE2 as char, 0x80 as char, 0xA6 as char]
  }

  // ---------------------------------------------------------------- lemmas

  lemma {:induction false} FitMeaning(items: seq<Item>, budget: nat)
    ensures var n := Fit(items, budget);
      && |Body(items[..n])| <= budget
      && (n < |items| ==> |Body(items[..n + 1])| > budget)
  {
    if items != [] {
      var l := |items[0].line| + 1;
      assert Body(items[..1]) == items[0].line + "\n" by { assert items[..1][..0] == []; }
      if l > budget {
        assert items[..0] == [];
      } else {
        FitMeaning(items[1..], budget - l);
        var n := Fit(items[1..], budget - l);
        assert items[..n + 1] == [items[0]] + items[1..][..n];
        BodyCons(items[0], items[1..][..n]);
        if n < |items[1..]| {
          assert items[..n + 2] == [items[0]] + items[1..][..n + 1];
          BodyCons(items[0], items[1..][..n + 1]);
        }
      }
    }
  }

  lemma {:induction false} BodyCons(x: Item, items: seq<Item>)
    ensures Body([x] + items) == x.line + "\n" + Body(items)
  {
    if items == [] {
      assert [x] + items == [x] && [x][..0] == [];
    } else {
      var all := [x] + items;
      assert all[..|all| - 1] == [x] + items[..|items| - 1];
      BodyCons(x, items[..|items| - 1]);
    }
  }

  lemma {:induction false} FitMonotone(items: seq<Item>, small: int, large: int)
    requires small <= large
    ensures Fit(items, small) <= Fit(items, large)
  {
    if items != [] && |items[0].line| + 1 <= small {
      var l := |items[0].line| + 1;
      FitMonotone(items[1..], small - l, large - l);
    }
  }

  lemma {:induction false} DecimalLengthMonotone(m: nat, n: nat)
    requires m <= n
    ensures |Decimal(m)| <= |Decimal(n)|
  {
    if m >= 10 { DecimalLengthMonotone(m / 10, n / 10); }
  }

  lemma {:induction false} DecimalLengthBound(n: nat, k: nat)
    requires n < Pow10(k) && k >= 1
    ensures |Decimal(n)| <= k
  {
    if n >= 10 { DecimalLengthBound(n / 10, k - 1); }
  }

  lemma TrailerIsShort(n: nat)
    requires n < Pow10(19)
    ensures |Trailer(n)| <= 31
  {
    DecimalLengthBound(n, 19);
  }

  /** A digest shows nothing only when its head cannot fit any message by itself. */
  lemma HeadThatFitsIsShown(items: seq<Item>)
    ensures Format(items).shown == 0 <==> items == [] || |items[0].line| + 1 > MaxMessageLen
  {
    FitMonotone(items, MaxMessageLen - |Trailer(|items|)|, MaxMessageLen);
  }

  /** A digest carries exactly its first `shown` items, whole: it is never cut by the
      message limit, and what it leaves out is a suffix whose first line had no room.
      The bound is that of a slice length held in a 64-bit int. */
  lemma DigestCarriesExactlyItsPrefix(items: seq<Item>)
    requires |items| < Pow10(19)
    ensures var d := Format(items);
      && |d.body| <= MaxMessageLen && Truncate(d.body) == d.body
      && Body(items[..d.shown]) <= d.body
      && (d.shown == |items| ==> d.body == Body(items))
      && (d.shown < |items| ==>
            |Body(items[..d.shown + 1])| > MaxMessageLen - |Trailer(|items|)|)
  {
    FitMeaning(items, MaxMessageLen);
    var first := Fit(items, MaxMessageLen);
    if first == |items| { assert items[..|items|] == items; }
    else { ShortDigestFits(items); }
  }

  /** Some lines do not fit: the digest is a prefix of whole lines, with a trailer if that
      leaves room for any line at all. */
  lemma ShortDigestFits(items: seq<Item>)
    requires |items| < Pow10(19) && Fit(items, MaxMessageLen) < |items|
    ensures var d := Format(items);
      && d.shown < |items| && |d.body| <= MaxMessageLen && Body(items[..d.shown]) <= d.body
      && |Body(items[..d.shown + 1])| > MaxMessageLen - |Trailer(|items|)|
  {
    TrailerIsShort(|items|);
    var budget := MaxMessageLen - |Trailer(|items|)|;
    FitMonotone(items, budget, MaxMessageLen);
    if Fit(items, budget) == 0 && Fit(items, MaxMessageLen) > 0 {
      FitMeaning(items, MaxMessageLen);
    } else {
      TrailerFits(items, budget);
    }
  }

  lemma TrailerFits(items: seq<Item>, budget: nat)
    requires budget + |Trailer(|items|)| == MaxMessageLen && Fit(items, budget) < |items|
    ensures var n := Fit(items, budget);
      && |Body(items[..n]) + Trailer(|items| - n)| <= MaxMessageLen
      && |Body(items[..n + 1])| > budget
  {
    FitMeaning(items, budget);
    TrailerMonotone(|items| - Fit(items, budget), |items|);
  }

  lemma TrailerMonotone(m: nat, n: nat)
    requires m <= n
    ensures |Trailer(m)| <= |Trailer(n)|
  {
    DecimalLengthMonotone(m, n);
  }

  /** The number a string of digits reads as. */
  function Value(s: string): nat
    requires forall i :: 0 <= i < |s| ==> IsDigit(s[i])
  {
    if s == [] then 0
    else
      assert IsDigit(s[|s| - 1]);
      10 * Value(s[..|s| - 1]) + (s[|s| - 1] as int - '0' as int)
  }

  /** Decimal digits read back as the number, and have no leading zero. */
  lemma {:induction false} DecimalReadsBack(n: nat)
    ensures forall i :: 0 <= i < |Decimal(n)| ==> IsDigit(Decimal(n)[i])
    ensures Value(Decimal(n)) == n
    ensures n > 0 ==> Decimal(n)[0] != '0'
  {
    if n >= 10 {
      DecimalReadsBack(n / 10);
      assert Decimal(n)[..|Decimal(n)| - 1] == Decimal(n / 10);
    } else {
      assert Decimal(n)[..0] == [];
    }
  }

  /** What a digest that leaves something out says: its whole lines, then how many more there
      are, unless the first line fits a message but not one with room for saying so. */
  lemma TrailerCountsTheRest(items: seq<Item>)
    requires Format(items).shown < |items|
    ensures var d := Format(items);
      var room := MaxMessageLen - |Trailer(|items|)|;
      d.body == if room < |items[0].line| + 1 <= MaxMessageLen then Body(items[..d.shown])
                else Body(items[..d.shown]) + Trailer(|items| - d.shown)
  {
  }

  predicate Continues(c: char) { 0x80 <= c as int < 0xC0 }

  lemma {:induction false} CutBeforeARune(s: string, cut: nat)
    requires cut <= |s|
    ensures var c := RuneCut(s, cut);
      && (forall i :: c < i <= cut && i < |s| ==> Continues(s[i]))
      && (0 < c < |s| ==> !Continues(s[c]))
  {
    if 0 < cut < |s| && Continues(s[cut]) { CutBeforeARune(s, cut - 1); }
  }

  /** The channel's truncation keeps a message within the limit and untouched if it can;
      otherwise it keeps the longest beginning that leaves room for an ellipsis and does not
      split a rune. */
  lemma TruncateKeepsRunesWhole(s: string)
    ensures |s| <= 1024 ==> Truncate(s) == s
    ensures |s| > 1024 ==>
      exists c :: 0 <= c <= 1021 && Truncate(s) == s[..c] + [0xE2 as char, 0x80 as char, 0xA6 as char]
        && (c == 0 || !Continues(s[c])) && forall i :: c < i <= 1021 ==> Continues(s[i])
    ensures |Truncate(s)| <= 1024
  {
    if |s| > 1024 {
      CutBeforeARune(s, 1021);
      var c := RuneCut(s, 1021);
      assert Truncate(s) == s[..c] + [0xE2 as char, 0x80 as char, 0xA6 as char];
    }
  }

  // ---------------------------------------------------------------- the loop

  lemma {:induction false} FitSplit(items: seq<Item>, n: nat, budget: int)
    requires n <= |items| && |Body(items[..n])| <= budget
    ensures Fit(items, budget) == n + Fit(items[n..], budget - |Body(items[..n])|)
  {
    if n == 0 {
      assert items[..0] == [] && items[0..] == items;
    } else {
      assert items[..n] == [items[0]] + items[1..][..n - 1];
      BodyCons(items[0], items[1..][..n - 1]);
      var l := |items[0].line| + 1;
      assert items[1..][n - 1..] == items[n..];
      FitSplit(items[1..], n - 1, budget - l);
    }
  }

  /** `fitLines`: append each line while it fits, stop at the first that does not. */
  method FitLines(items: seq<Item>, reserve: nat) returns (body: string, shown: nat)
    ensures shown == Fit(items, MaxMessageLen - reserve)
    ensures body == Body(items[..shown])
  {
    body, shown := "", 0;
    assert items[0..] == items && items[..0] == [];
    while shown < |items|
      invariant shown <= |items|
      invariant body == Body(items[..shown])
      invariant shown > 0 ==> |body| <= MaxMessageLen - reserve
      invariant Fit(items, MaxMessageLen - reserve) ==
        shown + Fit(items[shown..], MaxMessageLen - reserve - |body|)
    {
      var line := items[shown].line + "\n";
      if |body| + |line| > MaxMessageLen - reserve || |body| + |line| > MaxMessageLen { break; }
      assert items[..shown + 1][..shown] == items[..shown];
      body := body + line;
      shown := shown + 1;
      FitSplit(items, shown, MaxMessageLen - reserve);
    }
  }

  lemma {:induction false} RuneCutFrom(s: string, cut: nat, from: nat)
    requires cut <= from <= |s| && forall i :: cut < i <= from ==> 0 < i < |s| && Continues(s[i])
    ensures RuneCut(s, from) == RuneCut(s, cut)
  {
    if cut < from { RuneCutFrom(s, cut, from - 1); }
  }

  /** `pushover.Truncate`. */
  method TruncateMessage(s: string) returns (t: string)
    ensures t == Truncate(s)
  {
    if |s| <= MaxMessageLen { return s; }
    var cut := MaxMessageLen - 3;
    while cut > 0 && Continues(s[cut])
      invariant 0 <= cut <= MaxMessageLen - 3
      invariant forall i :: cut < i <= MaxMessageLen - 3 ==> Continues(s[i])
    {
      cut := cut - 1;
    }
    RuneCutFrom(s, cut, MaxMessageLen - 3);
    t := s[..cut] + [0xE2 as char, 0x80 as char, 0xA6 as char];
  }

  method FormatPickupDigest(items: seq<Item>) returns (body: string, shown: nat)
    ensures Digest(body, shown) == Digest(Truncate(Format(items).body), Format(items).shown)
  {
    body, shown := FitLines(items, 0);
    assert items[..|items|] == items;
    if shown < |items| {
      var plain, first := body, shown;
      body, shown := FitLines(items, |Trailer(|items|)|);
      if shown == 0 && first > 0 {
        body := TruncateMessage(plain);
        return body, first;
      }
      body := body + Trailer(|items| - shown);
    }
    body := TruncateMessage(body);
  }
}
