/**
 `rewrite_percentage` of crates/policy-memorial/src/lib.rs: every number that is followed, after
 optional whitespace, by a percent sign is replaced; everything else is copied.
 */
module PercentageText {
  import opened Text

  /** A text is cut into single characters and numbers (a digit, then digits and dots). */
  datatype Segment = Other(c: char) | Number(text: string, percentage: bool)

  predicate InNumber(c: char) {
    IsDigit(c) || c == '.'
  }

  /** Length of the longest prefix of digits and dots. */
  function RunLength(s: string): (n: nat)
    ensures n <= |s| && (forall i | 0 <= i < n :: InNumber(s[i])) && (n < |s| ==> !InNumber(s[n]))
  {
    if s == "" || !InNumber(s[0]) then 0 else 1 + RunLength(s[1..])
  }

  predicate IsPercentSign(c: char) {
    c == '%' || c == '\U{FF05}'
  }

  /** The text continues, after whitespace, with a percent sign. */
  predicate PercentFollows(rest: string) {
    var t := TrimStart(rest);
    t != "" && IsPercentSign(t[0])
  }

  function Scan(s: string): seq<Segment> {
    if s == "" then []
    else if !IsDigit(s[0]) then [Other(s[0])] + Scan(s[1..])
    else
      var n := RunLength(s);
      [Number(s[..n], PercentFollows(s[n..]))] + Scan(s[n..])
  }

  function RenderSegment(segment: Segment, percent: int): (s: string)
    ensures segment.Number? && segment.percentage ==> s == IntText(percent)
  {
    match segment
    case Other(c) => [c]
    case Number(text, percentage) => if percentage then IntText(percent) else text
  }

  function Render(segments: seq<Segment>, percent: int): string {
    if segments == [] then "" else RenderSegment(segments[0], percent) + Render(segments[1..], percent)
  }

  function Rewrite(s: string, percent: int): string {
    Render(Scan(s), percent)
  }

  /** Length of the first segment of a non-empty text. */
  function HeadLength(s: string): (n: nat)
    requires s != ""
    ensures 1 <= n <= |s|
  {
    if IsDigit(s[0]) then RunLength(s) else 1
  }

  function HeadSegment(s: string): Segment
    requires s != ""
  {
    if IsDigit(s[0]) then Number(s[..HeadLength(s)], PercentFollows(s[HeadLength(s)..])) else Other(s[0])
  }

  lemma ScanStep(s: string)
    requires s != ""
    ensures Scan(s) == [HeadSegment(s)] + Scan(s[HeadLength(s)..])
  {
  }

  lemma RewriteStep(s: string, percent: int)
    requires s != ""
    ensures Rewrite(s, percent) == RenderSegment(HeadSegment(s), percent) + Rewrite(s[HeadLength(s)..], percent)
  {
    hide HeadSegment, HeadLength;
    ScanStep(s);
    assert Scan(s)[1..] == Scan(s[HeadLength(s)..]);
  }

  /** Rewriting the first segment and appending it makes progress. */
  lemma Appended(before: string, rest: string, percent: int)
    requires rest != ""
    ensures before + Rewrite(rest, percent)
         == (before + RenderSegment(HeadSegment(rest), percent)) + Rewrite(rest[HeadLength(rest)..], percent)
  {
    RewriteStep(rest, percent);
    var (x, y) := (RenderSegment(HeadSegment(rest), percent), Rewrite(rest[HeadLength(rest)..], percent));
    hide Rewrite, RenderSegment, HeadSegment, HeadLength;
    assert before + (x + y) == (before + x) + y;
  }

  /** The source's scanner: a position that moves through the text, and a result that grows. */
  method RewritePercentage(source: string, percent: int) returns (result: string)
    ensures result == Rewrite(source, percent)
  {
    hide Rewrite, RunLength, PercentFollows, IntText;
    result := "";
    var start := 0;
    assert source[0..] == source;
    while start < |source|
      invariant start <= |source|
      invariant Rewrite(source, percent) == result + Rewrite(source[start..], percent)
      decreases |source| - start
    {
      ghost var rest := source[start..];
      Appended(result, rest, percent);
      if !IsDigit(source[start]) {
        assert rest[1..] == source[start + 1..];
        result := result + [source[start]];
        start := start + 1;
      } else {
        var end := start + 1;
        while end < |source| && InNumber(source[end])
          invariant start < end <= |source|
          invariant forall i | start <= i < end :: InNumber(source[i])
        {
          end := end + 1;
        }
        RunIs(rest, end - start);
        assert rest[end - start..] == source[end..] && rest[..end - start] == source[start..end];
        if PercentFollows(source[end..]) {
          result := result + IntText(percent);
        } else {
          result := result + source[start..end];
        }
        start := end;
      }
    }
    NothingToRewrite(percent);
    assert source[start..] == "" && result + "" == result;
  }

  lemma NothingToRewrite(percent: int)
    ensures Rewrite("", percent) == ""
  {
  }

  lemma {:induction false} RunIs(s: string, n: nat)
    requires n <= |s| && (forall i | 0 <= i < n :: InNumber(s[i])) && (n < |s| ==> !InNumber(s[n]))
    ensures RunLength(s) == n
  {
    if n > 0 {
      RunIs(s[1..], n - 1);
    }
  }

  // ----- Scanning a rewritten text -----

  /** What a segment of the text is scanned as after rewriting with `percent`. */
  function Rewritten(segment: Segment, percent: int): seq<Segment> {
    if segment.Number? && segment.percentage then
      if percent < 0 then [Other('-'), Number(NatText(-percent), true)] else [Number(NatText(percent), true)]
    else [segment]
  }

  function AllRewritten(segments: seq<Segment>, percent: int): seq<Segment> {
    if segments == [] then [] else Rewritten(segments[0], percent) + AllRewritten(segments[1..], percent)
  }

  /** Rewriting changes neither whether a percent sign follows nor whether a number goes on. */
  lemma {:induction false} RewriteKeepsContext(s: string, percent: int)
    ensures PercentFollows(Rewrite(s, percent)) <==> PercentFollows(s)
    ensures s != "" && !IsDigit(s[0]) ==> Rewrite(s, percent) != "" && Rewrite(s, percent)[0] == s[0]
    ensures s == "" ==> Rewrite(s, percent) == ""
  {
    hide Rewrite;
    NothingToRewrite(percent);
    if s != "" {
      RewriteStep(s, percent);
      var head := RenderSegment(HeadSegment(s), percent);
      var result := Rewrite(s, percent);
      if IsWhitespace(s[0]) {
        RewriteKeepsContext(s[1..], percent);
        assert result[1..] == Rewrite(s[1..], percent);
        PercentStep(s);
        PercentStep(result);
      } else {
        assert head != "" && (IsPercentSign(head[0]) <==> IsPercentSign(s[0])) && !IsWhitespace(head[0]);
        assert result[0] == head[0];
        PercentStep(s);
        PercentStep(result);
      }
    }
  }

  lemma PercentStep(s: string)
    requires s != ""
    ensures PercentFollows(s) <==> if IsWhitespace(s[0]) then PercentFollows(s[1..]) else IsPercentSign(s[0])
  {
  }

  lemma ScanNumber(text: string, rest: string)
    requires text != "" && IsDigit(text[0]) && (forall i | 0 <= i < |text| :: InNumber(text[i]))
    requires rest != "" ==> !InNumber(rest[0])
    ensures Scan(text + rest) == [Number(text, PercentFollows(rest))] + Scan(rest)
  {
    var s := text + rest;
    RunIs(s, |text|);
    assert s[..|text|] == text && s[|text|..] == rest;
    ScanStep(s);
  }

  lemma {:induction false} ScanOfRewrite(s: string, percent: int)
    ensures Scan(Rewrite(s, percent)) == AllRewritten(Scan(s), percent)
  {
    hide Rewrite, RunLength, PercentFollows;
    NothingToRewrite(percent);
    if s != "" {
      var rest := s[HeadLength(s)..];
      ScanStep(s);
      RewriteStep(s, percent);
      ScanOfRewrite(rest, percent);
      RewriteKeepsContext(rest, percent);
      assert ([HeadSegment(s)] + Scan(rest))[1..] == Scan(rest);
      ScanRendered(HeadSegment(s), Rewrite(rest, percent), percent);
    }
  }

  /** A rendered segment in front of a text that does not prolong it is scanned as its rewritten form. */
  lemma ScanRendered(segment: Segment, rest: string, percent: int)
    requires segment.Other? ==> !IsDigit(segment.c)
    requires segment.Number? ==>
      && segment.text != "" && IsDigit(segment.text[0])
      && (forall i | 0 <= i < |segment.text| :: InNumber(segment.text[i]))
      && (rest != "" ==> !InNumber(rest[0]))
      && segment.percentage == PercentFollows(rest)
    ensures Scan(RenderSegment(segment, percent) + rest) == Rewritten(segment, percent) + Scan(rest)
  {
    hide Scan, RunLength, PercentFollows, NatText;
    if segment.Other? {
      ScanOther(segment.c, rest);
    } else if !segment.percentage {
      ScanNumber(segment.text, rest);
    } else if percent >= 0 {
      ScanNumber(NatText(percent), rest);
    } else {
      var digits := NatText(-percent);
      ScanNumber(digits, rest);
      ScanOther('-', digits + rest);
      assert IntText(percent) + rest == ['-'] + (digits + rest);
      assert [Other('-')] + ([Number(digits, true)] + Scan(rest))
          == [Other('-'), Number(digits, true)] + Scan(rest);
    }
  }

  lemma ScanOther(c: char, rest: string)
    requires !IsDigit(c)
    ensures Scan([c] + rest) == [Other(c)] + Scan(rest)
  {
    var s := [c] + rest;
    ScanStep(s);
    assert s[1..] == rest;
  }

  // ----- Main results -----

  /** Number of percentages in a text. */
  function Percentages(segments: seq<Segment>): nat {
    if segments == [] then 0
    else (if segments[0].Number? && segments[0].percentage then 1 else 0) + Percentages(segments[1..])
  }

  lemma {:induction false} RenderOfRewritten(segments: seq<Segment>, p: int, q: int)
    ensures p >= 0 || Percentages(segments) == 0 ==> Render(AllRewritten(segments, p), q) == Render(segments, q)
    ensures p < 0 ==> |Render(AllRewritten(segments, p), q)| == |Render(segments, q)| + Percentages(segments)
  {
    if segments != [] {
      var rest := AllRewritten(segments[1..], p);
      RenderOfRewritten(segments[1..], p, q);
      var head := Rewritten(segments[0], p);
      if |head| == 1 {
        assert (head + rest)[1..] == rest;
      } else {
        assert (head + rest)[1..] == [head[1]] + rest;
        assert ([head[1]] + rest)[1..] == rest;
      }
    }
  }

  /**
   A later rewrite absorbs an earlier one exactly when the earlier value is not negative or the
   text has no percentage to rewrite.
   */
  lemma RewriteAbsorbsExactly(s: string, p: int, q: int)
    ensures Rewrite(Rewrite(s, p), q) == Rewrite(s, q) <==> p >= 0 || Percentages(Scan(s)) == 0
  {
    ScanOfRewrite(s, p);
    RenderOfRewritten(Scan(s), p, q);
  }

  /** Rewriting with a negative value is not idempotent: the sign is left behind. */
  lemma NegativeLeavesSign()
    ensures Rewrite("5%", -1) == "-1%" && Rewrite("-1%", -1) == "--1%"
  {
    hide Rewrite;
    assert "5" + "%" == "5%" && "1" + "%" == "1%";
    PositiveOnce("5", "5%");
    PositiveOnce("1", "1%");
    NegativeOnce();
  }

  lemma PositiveOnce(digit: string, text: string)
    requires |digit| == 1 && IsDigit(digit[0]) && text == digit + "%"
    ensures Rewrite(text, -1) == "-1%"
  {
    MinusOne();
    RewriteOfNumber(digit, -1);
    hide Rewrite, IntText;
    assert "-1" + "%" == "-1%";
  }

  lemma NegativeOnce()
    requires Rewrite("1%", -1) == "-1%"
    ensures Rewrite("-1%", -1) == "--1%"
  {
    var text := "-1%";
    RewriteAfterOther(text, -1);
    hide Rewrite;
    assert text[1..] == "1%";
    var result := [text[0]] + "-1%";
    assert |result| == 4 && result[0] == '-' && result[1] == '-' && result[2] == '1' && result[3] == '%';
  }

  lemma MinusOne()
    ensures IntText(-1) == "-1"
  {
    assert NatText(1) == "1";
  }

  lemma RewriteAfterOther(text: string, percent: int)
    requires text != "" && !IsDigit(text[0])
    ensures Rewrite(text, percent) == [text[0]] + Rewrite(text[1..], percent)
  {
    hide Rewrite, RunLength, PercentFollows;
    RewriteStep(text, percent);
  }

  lemma RewriteOfNumber(number: string, percent: int)
    requires number != "" && IsDigit(number[0]) && forall i | 0 <= i < |number| :: InNumber(number[i])
    ensures Rewrite(number + "%", percent) == IntText(percent) + "%"
  {
    var tail := number + "%";
    RewriteOfSign(percent);
    RunIs(tail, |number|);
    SignFollows();
    hide RunLength, Rewrite, IntText, PercentFollows;
    assert tail[..|number|] == number && tail[|number|..] == "%";
    RewriteStep(tail, percent);
  }

  lemma SignFollows()
    ensures PercentFollows("%")
  {
  }

  lemma RewriteOfSign(percent: int)
    ensures Rewrite("%", percent) == "%"
  {
    NothingToRewrite(percent);
    hide Rewrite, RunLength, PercentFollows;
    RewriteStep("%", percent);
    assert "%"[1..] == "";
    assert RenderSegment(HeadSegment("%"), percent) == "%";
  }

  /** The characters of a text outside its percentages, in order. */
  function Outside(segments: seq<Segment>): string {
    if segments == [] then ""
    else (match segments[0]
          case Other(c) => [c]
          case Number(text, percentage) => if percentage then "" else text) + Outside(segments[1..])
  }

  lemma {:induction false} OutsideOfRewritten(segments: seq<Segment>, percent: int)
    requires percent >= 0
    ensures Outside(AllRewritten(segments, percent)) == Outside(segments)
    ensures Percentages(AllRewritten(segments, percent)) == Percentages(segments)
  {
    if segments != [] {
      OutsideOfRewritten(segments[1..], percent);
      var head, rest := Rewritten(segments[0], percent), AllRewritten(segments[1..], percent);
      assert (head + rest)[1..] == rest;
    }
  }

  // ----- What stays and what goes, for every value -----

  /** The stretches of text between the percentages: one more than there are percentages. */
  function Parts(segments: seq<Segment>): (parts: seq<string>)
    ensures parts != []
  {
    if segments == [] then [""]
    else
      var rest := Parts(segments[1..]);
      match segments[0]
      case Other(c) => [[c] + rest[0]] + rest[1..]
      case Number(text, percentage) => if percentage then [""] + rest else [text + rest[0]] + rest[1..]
  }

  /** The texts of the percentages, in order. */
  function Numbers(segments: seq<Segment>): seq<string> {
    if segments == [] then []
    else (if segments[0].Number? && segments[0].percentage then [segments[0].text] else []) + Numbers(segments[1..])
  }

  /** The parts with the numbers between them. */
  function Weave(parts: seq<string>, numbers: seq<string>): string
    requires |parts| == |numbers| + 1
  {
    if numbers == [] then parts[0] else parts[0] + numbers[0] + Weave(parts[1..], numbers[1..])
  }

  function Copies(text: string, n: nat): (copies: seq<string>)
    ensures |copies| == n
  {
    if n == 0 then [] else [text] + Copies(text, n - 1)
  }

  function Concat(parts: seq<string>): string {
    if parts == [] then "" else parts[0] + Concat(parts[1..])
  }

  lemma WeaveStep(head: string, parts: seq<string>, numbers: seq<string>)
    requires |parts| == |numbers| + 1
    ensures Weave([head + parts[0]] + parts[1..], numbers) == head + Weave(parts, numbers)
    ensures Concat([head + parts[0]] + parts[1..]) == head + Concat(parts)
  {
    var joined := [head + parts[0]] + parts[1..];
    assert joined[1..] == parts[1..];
    var (x, y) := (parts[0], Concat(parts[1..]));
    assert (head + x) + y == head + (x + y);
    if numbers != [] {
      var (u, v) := (numbers[0], Weave(parts[1..], numbers[1..]));
      assert (head + x) + u + v == head + (x + u + v);
    }
  }

  lemma WeaveNumber(number: string, parts: seq<string>, numbers: seq<string>)
    requires |parts| == |numbers| + 1
    ensures Weave([""] + parts, [number] + numbers) == number + Weave(parts, numbers)
    ensures Concat([""] + parts) == Concat(parts)
  {
    assert ([""] + parts)[1..] == parts && ([number] + numbers)[1..] == numbers;
    assert "" + number == number && "" + Concat(parts) == Concat(parts);
  }

  lemma {:induction false} SegmentsWeave(segments: seq<Segment>, percent: int)
    ensures |Numbers(segments)| == Percentages(segments) == |Parts(segments)| - 1
    ensures Weave(Parts(segments), Copies(IntText(percent), Percentages(segments))) == Render(segments, percent)
    ensures Weave(Parts(segments), Numbers(segments)) == Source(segments)
    ensures Concat(Parts(segments)) == Outside(segments)
  {
    hide Weave, Concat, IntText;
    var text := IntText(percent);
    if segments == [] {
      NothingToWeave();
    } else {
      var head, rest := segments[0], segments[1..];
      SegmentsWeave(rest, percent);
      var parts, numbers, copies := Parts(rest), Numbers(rest), Copies(text, Percentages(rest));
      if head.Number? && head.percentage {
        WeaveNumber(text, parts, copies);
        WeaveNumber(head.text, parts, numbers);
        assert "" + Outside(rest) == Outside(rest);
      } else {
        var kept := if head.Other? then [head.c] else head.text;
        WeaveStep(kept, parts, copies);
        WeaveStep(kept, parts, numbers);
        assert [] + numbers == numbers;
      }
    }
  }

  lemma NothingToWeave()
    ensures Weave([""], []) == "" && Concat([""]) == ""
  {
    assert [""][1..] == [];
    assert "" + Concat([]) == "";
  }

  /**
   A text is its parts with its percentages between them; rewriting with any value, negative ones
   included, keeps the parts in order and puts that value in place of each percentage. A scan of the
   result finds the same characters outside percentages when the value is not negative.
   */
  lemma RewriteKeepsOutside(s: string, percent: int)
    ensures var (parts, numbers) := (Parts(Scan(s)), Numbers(Scan(s)));
      && |numbers| == Percentages(Scan(s)) == |parts| - 1
      && s == Weave(parts, numbers)
      && Rewrite(s, percent) == Weave(parts, Copies(IntText(percent), |numbers|))
      && Concat(parts) == Outside(Scan(s))
    ensures percent >= 0 ==> Outside(Scan(Rewrite(s, percent))) == Outside(Scan(s))
    ensures percent >= 0 ==> Percentages(Scan(Rewrite(s, percent))) == Percentages(Scan(s))
  {
    ScanCovers(s);
    SegmentsWeave(Scan(s), percent);
    if percent >= 0 {
      hide Scan, Rewrite, Render, Parts, Numbers, Weave, Source, Concat, Copies;
      ScanOfRewrite(s, percent);
      OutsideOfRewritten(Scan(s), percent);
    }
  }

  /** Scanning loses nothing: with every percentage left as it is, the text comes back. */
  lemma {:induction false} ScanCovers(s: string)
    ensures Source(Scan(s)) == s
  {
    hide Scan, RunLength, PercentFollows;
    assert Scan("") == [] by {
      NothingToScan();
    }
    if s != "" {
      var n := HeadLength(s);
      ScanStep(s);
      ScanCovers(s[n..]);
      assert ([HeadSegment(s)] + Scan(s[n..]))[1..] == Scan(s[n..]);
      assert s == s[..n] + s[n..];
    }
  }

  lemma NothingToScan()
    ensures Scan("") == []
  {
  }

  function Source(segments: seq<Segment>): string {
    if segments == [] then ""
    else (match segments[0]
          case Other(c) => [c]
          case Number(text, _) => text) + Source(segments[1..])
  }
}
