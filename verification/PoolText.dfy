/** internal/availablepool: cleaning the markup out of the pool feed's text fields. */
module PoolText {
  import opened Wrappers
  import opened Text

  datatype Scan = Scan(text: string, depth: nat)

  /** The text outside the tags so far, and how many tags are open. */
  function ScanOf(s: string): Scan {
    if s == [] then Scan("", 0)
    else
      var before := ScanOf(s[..|s| - 1]);
      var c := s[|s| - 1];
      if c == '<' then before.(depth := before.depth + 1)
      else if c == '>' then (if before.depth > 0 then before.(depth := before.depth - 1) else before)
      else if before.depth == 0 then before.(text := before.text + [c])
      else before
  }

  predicate NoMarkup(s: string) { '<' !in s && '>' !in s }

  method StripTags(s: string) returns (t: string)
    ensures t == ScanOf(s).text
  {
    t := "";
    var depth := 0;
    for i := 0 to |s|
      invariant Scan(t, depth) == ScanOf(s[..i])
    {
      assert s[..i + 1][..i] == s[..i];
      if s[i] == '<' {
        depth := depth + 1;
      } else if s[i] == '>' {
        if depth > 0 { depth := depth - 1; }
      } else if depth == 0 {
        t := t + [s[i]];
      }
    }
    assert s[..|s|] == s;
  }

  /** Whatever the tags look like, closed or not, no angle bracket survives. */
  lemma {:induction false} StripLeavesNoMarkup(s: string)
    ensures NoMarkup(ScanOf(s).text)
  {
    if s != [] { StripLeavesNoMarkup(s[..|s| - 1]); }
  }

  lemma {:induction false} StripKeepsPlainText(s: string)
    requires NoMarkup(s)
    ensures ScanOf(s) == Scan(s, 0)
  {
    if s != [] {
      StripKeepsPlainText(s[..|s| - 1]);
      assert s == s[..|s| - 1] + [s[|s| - 1]];
    }
  }

  /** Stripping twice is stripping once. */
  lemma StripIsIdempotent(s: string)
    ensures ScanOf(ScanOf(s).text).text == ScanOf(s).text
  {
    StripLeavesNoMarkup(s);
    StripKeepsPlainText(ScanOf(s).text);
  }

  /** Once every tag is closed, what follows is scanned afresh. */
  lemma {:induction false} ScanAppend(a: string, b: string)
    requires ScanOf(a).depth == 0
    ensures ScanOf(a + b) == Scan(ScanOf(a).text + ScanOf(b).text, ScanOf(b).depth)
  {
    if b == [] {
      assert a + b == a;
    } else {
      assert (a + b)[..|a + b| - 1] == a + b[..|b| - 1];
      ScanAppend(a, b[..|b| - 1]);
    }
  }

  lemma {:induction false} InsideATag(a: string, t: string)
    requires NoMarkup(t) && ScanOf(a).depth > 0
    ensures ScanOf(a + t) == ScanOf(a)
  {
    if t == [] {
      assert a + t == a;
    } else {
      assert (a + t)[..|a + t| - 1] == a + t[..|t| - 1];
      assert t == t[..|t| - 1] + [t[|t| - 1]];
      InsideATag(a, t[..|t| - 1]);
    }
  }

  lemma ScanOne(a: string, c: char)
    ensures (a + [c])[..|a|] == a && (a + [c])[|a|] == c
  {
  }

  /** A tag goes, whatever it says, and the text on both sides of it stays. */
  lemma TagIsDropped(a: string, tag: string, b: string)
    requires ScanOf(a).depth == 0 && NoMarkup(tag)
    ensures ScanOf(a + "<" + tag + ">" + b).text == ScanOf(a).text + ScanOf(b).text
  {
    var s1, inside := a + "<", a + "<" + tag;
    ScanOne(a, '<');
    InsideATag(s1, tag);
    ScanOne(inside, '>');
    assert inside + ">" == a + "<" + tag + ">";
    ScanAppend(a + "<" + tag + ">", b);
  }

  /** So does one inside another, up to its own end. */
  lemma NestedTagIsDropped(a: string, tag: string, inner: string, more: string, b: string)
    requires ScanOf(a).depth == 0 && NoMarkup(tag) && NoMarkup(inner) && NoMarkup(more)
    ensures ScanOf(a + "<" + tag + "<" + inner + ">" + more + ">" + b).text == ScanOf(a).text + ScanOf(b).text
  {
    var s1 := a + "<";
    ScanOne(a, '<');
    InsideATag(s1, tag);
    var s2 := s1 + tag + "<";
    ScanOne(s1 + tag, '<');
    InsideATag(s2, inner);
    var s3 := s2 + inner + ">";
    ScanOne(s2 + inner, '>');
    InsideATag(s3, more);
    var s4 := s3 + more + ">";
    ScanOne(s3 + more, '>');
    ScanAppend(s4, b);
  }

  // ---------------------------------------------------------------- positions

  /** `strings.Split` on one character. */
  function Split(s: string, sep: char): (parts: seq<string>)
    ensures parts != []
  {
    if s == [] then [""]
    else
      var parts := Split(s[..|s| - 1], sep);
      var c := s[|s| - 1];
      if c == sep then parts + [""]
      else parts[..|parts| - 1] + [parts[|parts| - 1] + [c]]
  }

  lemma {:induction false} SplitPieces(s: string, sep: char, part: string)
    requires part in Split(s, sep)
    ensures sep !in part && forall c :: c in part ==> c in s
  {
    if s != [] {
      var parts := Split(s[..|s| - 1], sep);
      var last := parts[|parts| - 1];
      SplitPieces(s[..|s| - 1], sep, last);
      if part in parts { SplitPieces(s[..|s| - 1], sep, part); }
    }
  }

  /** The pieces with the separator between them. */
  function Join(parts: seq<string>, sep: char): string {
    if parts == [] then ""
    else if |parts| == 1 then parts[0]
    else Join(parts[..|parts| - 1], sep) + [sep] + parts[|parts| - 1]
  }

  lemma JoinLast(parts: seq<string>, last: string, sep: char)
    ensures Join(parts + [last], sep) == if parts == [] then last else Join(parts, sep) + [sep] + last
  {
    assert (parts + [last])[..|parts|] == parts;
  }

  lemma JoinGrows(init: seq<string>, last: string, c: char, sep: char)
    ensures Join(init + [last + [c]], sep) == Join(init + [last], sep) + [c]
  {
    JoinLast(init, last, sep);
    JoinLast(init, last + [c], sep);
    if init != [] {
      var j := Join(init, sep) + [sep];
      assert j + (last + [c]) == (j + last) + [c];
    }
  }

  /** Splitting loses nothing: joining the pieces again gives the text. */
  lemma {:induction false} SplitJoins(s: string, sep: char)
    ensures Join(Split(s, sep), sep) == s
  {
    if s != [] {
      var init, c := s[..|s| - 1], s[|s| - 1];
      SplitJoins(init, sep);
      var parts := Split(init, sep);
      var front, last := parts[..|parts| - 1], parts[|parts| - 1];
      assert parts == front + [last] && s == init + [c];
      JoinLast(parts, "", sep);
      JoinGrows(front, last, c, sep);
    }
  }

  lemma {:induction false} SplitLast(x: string, sep: char, last: string)
    requires sep !in last
    ensures Split(x + [sep] + last, sep) == Split(x, sep) + [last]
  {
    var s := x + [sep] + last;
    if last == [] {
      assert s[..|s| - 1] == x && s[|s| - 1] == sep;
    } else {
      var shorter := last[..|last| - 1];
      assert s[..|s| - 1] == x + [sep] + shorter && s[|s| - 1] == last[|last| - 1] != sep;
      SplitLast(x, sep, shorter);
      assert shorter + [last[|last| - 1]] == last;
    }
  }

  lemma {:induction false} SplitNone(s: string, sep: char)
    requires sep !in s
    ensures Split(s, sep) == [s]
  {
    if s != [] {
      SplitNone(s[..|s| - 1], sep);
      assert s == s[..|s| - 1] + [s[|s| - 1]];
    }
  }

  /** Joining pieces that hold no separator and splitting again gives the pieces. */
  lemma {:induction false} JoinSplits(parts: seq<string>, sep: char)
    requires parts != [] && forall i :: 0 <= i < |parts| ==> sep !in parts[i]
    ensures Split(Join(parts, sep), sep) == parts
  {
    var init, last := parts[..|parts| - 1], parts[|parts| - 1];
    assert parts == init + [last];
    if init != [] { JoinSplits(init, sep); }
    JoinSplitsOne(init, last, sep);
  }

  lemma JoinSplitsOne(init: seq<string>, last: string, sep: char)
    requires init != [] ==> Split(Join(init, sep), sep) == init
    requires sep !in last
    ensures Split(Join(init + [last], sep), sep) == init + [last]
  {
    JoinLast(init, last, sep);
    if init == [] { SplitNone(last, sep); } else { SplitLast(Join(init, sep), sep, last); }
  }

  function Tokens(parts: seq<string>): seq<string> {
    if parts == [] then []
    else
      var t := TrimSpace(parts[|parts| - 1]);
      Tokens(parts[..|parts| - 1]) + if t == "" then [] else [t]
  }

  function Positions(raw: string): seq<string> {
    if raw == "" then [] else Tokens(Split(ScanOf(raw).text, ','))
  }

  method ParsePositions(raw: string) returns (out: seq<string>)
    ensures out == Positions(raw)
  {
    out := [];
    if raw == "" { return; }
    var text := StripTags(raw);
    var parts := Split(text, ',');
    for i := 0 to |parts|
      invariant out == Tokens(parts[..i])
    {
      assert parts[..i + 1][..i] == parts[..i];
      var tok := TrimSpace(parts[i]);
      if tok != "" { out := out + [tok]; }
    }
    assert parts[..|parts|] == parts;
  }

  lemma {:induction false} TrimLeftPart(s: string)
    ensures TrimLeft(s) == [] || (TrimLeft(s) != [] && !IsSpace(TrimLeft(s)[0]))
    ensures forall c :: c in TrimLeft(s) ==> c in s
  {
    if s != [] && IsSpace(s[0]) { TrimLeftPart(s[1..]); }
  }

  lemma {:induction false} TrimRightPart(s: string)
    ensures TrimRight(s) <= s
    ensures TrimRight(s) == [] || !IsSpace(TrimRight(s)[|TrimRight(s)| - 1])
  {
    if s != [] && IsSpace(s[|s| - 1]) { TrimRightPart(s[..|s| - 1]); }
  }

  /** A trimmed string has nothing left to trim, and only characters it had. */
  lemma TrimSpaceSettles(s: string)
    ensures TrimSpace(TrimSpace(s)) == TrimSpace(s)
    ensures forall c :: c in TrimSpace(s) ==> c in s
  {
    var l := TrimLeft(s);
    TrimLeftPart(s);
    TrimRightPart(l);
    var t := TrimRight(l);
    assert t == l[..|t|];
    if t != [] { assert t[0] == l[0]; }
    assert TrimLeft(t) == t && TrimRight(t) == t;
  }

  lemma {:induction false} TokensAre(parts: seq<string>, tok: string)
    requires tok in Tokens(parts)
    ensures tok != "" && exists i :: 0 <= i < |parts| && tok == TrimSpace(parts[i])
  {
    var n := |parts| - 1;
    if tok == TrimSpace(parts[n]) {
      var last := TrimSpace(parts[n]);
      if last == "" { TokensAre(parts[..n], tok); }
    } else {
      TokensAre(parts[..n], tok);
      var i :| 0 <= i < n && tok == TrimSpace(parts[..n][i]);
      assert parts[i] == parts[..n][i];
    }
  }

  /** No position a client is shown carries markup, a comma, or stray white space. */
  lemma PositionsAreClean(raw: string, tok: string)
    requires tok in Positions(raw)
    ensures tok != "" && NoMarkup(tok) && ',' !in tok && TrimSpace(tok) == tok
  {
    var text := ScanOf(raw).text;
    StripLeavesNoMarkup(raw);
    TokensAre(Split(text, ','), tok);
    var i :| 0 <= i < |Split(text, ',')| && tok == TrimSpace(Split(text, ',')[i]);
    SplitPieces(text, ',', Split(text, ',')[i]);
    TrimSpaceSettles(Split(text, ',')[i]);
  }

  predicate CleanToken(tok: string) { tok != "" && NoMarkup(tok) && ',' !in tok && TrimSpace(tok) == tok }

  lemma {:induction false} TokensOfClean(parts: seq<string>)
    requires forall i :: 0 <= i < |parts| ==> CleanToken(parts[i])
    ensures Tokens(parts) == parts
  {
    if parts != [] {
      var init, last := parts[..|parts| - 1], parts[|parts| - 1];
      TokensOfClean(init);
      TokensGrow(init, last);
      assert parts == init + [last];
    }
  }

  lemma TokensGrow(init: seq<string>, last: string)
    requires Tokens(init) == init && CleanToken(last)
    ensures Tokens(init + [last]) == init + [last]
  {
    assert (init + [last])[..|init|] == init;
  }

  lemma {:induction false} JoinIsPlain(parts: seq<string>)
    requires forall i :: 0 <= i < |parts| ==> CleanToken(parts[i])
    ensures NoMarkup(Join(parts, ',')) && (parts != [] ==> Join(parts, ',') != "")
  {
    if |parts| > 1 { JoinIsPlain(parts[..|parts| - 1]); }
    if parts != [] { assert CleanToken(parts[|parts| - 1]); }
  }

  /** A round trip: any list of clean positions, written with commas, reads back as it was. */
  lemma PositionsReadBack(parts: seq<string>)
    requires forall i :: 0 <= i < |parts| ==> CleanToken(parts[i])
    ensures Positions(Join(parts, ',')) == parts
  {
    if parts != [] {
      JoinIsPlain(parts);
      StripKeepsPlainText(Join(parts, ','));
      JoinSplits(parts, ',');
      TokensOfClean(parts);
    }
  }

  // ---------------------------------------------------------------- status

  predicate IsUnowned(status: string) { status == "FA" || status == "" || HasPrefix(status, "W") }

  /** The status, and the weekday a waiver claim settles. */
  function ParseStatus(raw: string): (string, string) {
    if raw == "FA" || raw == "" then ("FA", "")
    else if !HasPrefix(raw, "W") then (raw, "")
    else ("W", ClearsOn(ScanOf(raw).text))
  }

  function ClearsOn(text: string): string {
    match IndexOf(text, '(')
    case None => ""
    case Some(open) =>
      match IndexOf(text[open..], ')')
      case None => ""
      case Some(close) => if close > 0 then TrimSpace(text[open + 1..open + close]) else ""
  }

  lemma ClearsOnIsPart(text: string)
    ensures forall c :: c in ClearsOn(text) ==> c in text && c != ')'
  {
    match IndexOf(text, '(') {
      case None =>
      case Some(open) =>
        match IndexOf(text[open..], ')') {
          case None =>
          case Some(close) =>
            if close > 0 {
              var day := text[open + 1..open + close];
              TrimSpaceSettles(day);
              assert day == text[open..][..close][1..];
            }
        }
    }
  }

  lemma {:induction false} FirstAt(s: string, c: char, i: nat)
    requires i < |s| && s[i] == c && c !in s[..i]
    ensures IndexOf(s, c) == Some(i)
  {
    if i > 0 {
      assert s[0] == s[..i][0] && s[1..][..i - 1] == s[..i][1..];
      FirstAt(s[1..], c, i - 1);
    }
  }

  /** The weekday is what the first parentheses hold; with none there is no weekday. */
  lemma WeekdayIsInParentheses(before: string, day: string, rest: string)
    requires '(' !in before && ')' !in day
    ensures ClearsOn(before + "(" + day + ")" + rest) == TrimSpace(day)
    ensures ClearsOn(before) == ""
  {
    var s := before + "(" + day + ")" + rest;
    var n := |before|;
    assert s[n] == '(' && s[..n] == before;
    FirstAt(s, '(', n);
    var tail := s[n..];
    assert tail == "(" + day + ")" + rest && tail[|day| + 1] == ')';
    assert tail[..|day| + 1] == "(" + day;
    FirstAt(tail, ')', |day| + 1);
    assert s[n + 1..n + |day| + 1] == day;
  }

  /** An unowned row's status comes out as one of two plain words, and its weekday as text
      with no markup and no closing parenthesis; any other status passes through as it is. */
  lemma StatusIsClean(raw: string)
    ensures var (status, clears) := ParseStatus(raw);
      && (IsUnowned(raw) ==> status in {"FA", "W"})
      && (!IsUnowned(raw) ==> status == raw && clears == "")
      && (IsUnowned(raw) ==> (status == "W" <==> raw != "" && raw[0] == 'W'))
      && (status == "W" && IsUnowned(raw) ==> clears == ClearsOn(ScanOf(raw).text))
      && (clears != "" ==> status == "W" && NoMarkup(clears) && ')' !in clears)
  {
    StripLeavesNoMarkup(raw);
    ClearsOnIsPart(ScanOf(raw).text);
  }

  /** `FirstRanked`: 0 in a history means not ranked yet. */
  method FirstRanked(hist: seq<int>) returns (i: nat)
    ensures i <= |hist| && forall k :: 0 <= k < i ==> hist[k] == 0
    ensures i < |hist| ==> hist[i] != 0
  {
    i := 0;
    while i < |hist|
      invariant i <= |hist| && forall k :: 0 <= k < i ==> hist[k] == 0
    {
      if hist[i] != 0 { return; }
      i := i + 1;
    }
  }
}
