/** The regular expressions the dashboard runs over log lines with
    `re.search`.  Every one of them is a sequence of literal text, captured
    digit runs `(\d+)`, captured number tokens `([\d.]+)` and optional
    characters `c?`, so a pattern is written here as a list of such pieces.

    `MatchAt` matches a pattern at the start of a string greedily and without
    backtracking; `Matches` is the backtracking semantics of the same pattern
    as a relation.  For the patterns used here (`WellFormed`: every run and
    every optional character is followed by a literal that can never extend
    it), both agree on whether a match exists, and `Search` returns the match
    at the leftmost position, as `re.search` does. */
module Patterns {
  import opened Wrappers
  import opened Text

  datatype Piece =
    | Lit(text: string)  // literal text
    | Digits             // (\d+), captured
    | DigitsDots         // ([\d.]+), captured
    | OptChar(c: char)   // c?

  type Pattern = seq<Piece>

  predicate IsRun(p: Piece) {
    p.Digits? || p.DigitsDots?
  }

  /** A character a run may consume: a digit, or also a dot for `[\d.]`. */
  predicate RunChar(dots: bool, c: char) {
    IsDigit(c) || (dots && c == '.')
  }

  predicate AllRun(dots: bool, s: string) {
    forall i :: 0 <= i < |s| ==> RunChar(dots, s[i])
  }

  /** Length of the longest prefix a run may consume. */
  function RunLen(s: string, dots: bool): (k: nat)
    ensures k <= |s| && AllRun(dots, s[..k])
    ensures k < |s| ==> !RunChar(dots, s[k])
    decreases |s|
  {
    if s == [] || !RunChar(dots, s[0]) then 0 else 1 + RunLen(s[1..], dots)
  }

  /** The kind of each capture group, in order: `true` for `[\d.]+`, `false` for `\d+`. */
  function CaptureKinds(pat: Pattern): seq<bool>
    decreases |pat|
  {
    if pat == [] then []
    else if pat[0].Digits? then [false] + CaptureKinds(pat[1..])
    else if pat[0].DigitsDots? then [true] + CaptureKinds(pat[1..])
    else CaptureKinds(pat[1..])
  }

  /** One non-empty capture of the right kind per capture group. */
  predicate CapturesFit(pat: Pattern, caps: seq<string>) {
    && |caps| == |CaptureKinds(pat)|
    && forall k :: 0 <= k < |caps| ==> caps[k] != [] && AllRun(CaptureKinds(pat)[k], caps[k])
  }

  /** Greedy match of `pat` at the start of `s`; the captured groups on success. */
  function MatchAt(s: string, pat: Pattern): (r: Option<seq<string>>)
    ensures r.Some? ==> CapturesFit(pat, r.value)
    decreases |pat|
  {
    if pat == [] then Some([])
    else match pat[0]
      case Lit(t) =>
        if StartsWith(s, t) then MatchAt(s[|t|..], pat[1..]) else None
      case OptChar(c) =>
        if s != [] && s[0] == c then MatchAt(s[1..], pat[1..]) else MatchAt(s, pat[1..])
      case Digits =>
        var k := RunLen(s, false);
        if k == 0 then None
        else (match MatchAt(s[k..], pat[1..])
              case Some(caps) => Some([s[..k]] + caps)
              case None => None)
      case DigitsDots =>
        var k := RunLen(s, true);
        if k == 0 then None
        else (match MatchAt(s[k..], pat[1..])
              case Some(caps) => Some([s[..k]] + caps)
              case None => None)
  }

  /** The backtracking semantics: `pat` matches a prefix of `s` with these captures. */
  ghost predicate Matches(s: string, pat: Pattern, caps: seq<string>)
    decreases |pat|
  {
    if pat == [] then caps == []
    else match pat[0]
      case Lit(t) => StartsWith(s, t) && Matches(s[|t|..], pat[1..], caps)
      case OptChar(c) =>
        || (s != [] && s[0] == c && Matches(s[1..], pat[1..], caps))
        || Matches(s, pat[1..], caps)
      case Digits =>
        && caps != [] && caps[0] != [] && AllRun(false, caps[0]) && StartsWith(s, caps[0])
        && Matches(s[|caps[0]|..], pat[1..], caps[1..])
      case DigitsDots =>
        && caps != [] && caps[0] != [] && AllRun(true, caps[0]) && StartsWith(s, caps[0])
        && Matches(s[|caps[0]|..], pat[1..], caps[1..])
  }

  /** A literal that a run or an optional character can never swallow. */
  predicate StopsAfter(p: Piece, next: Piece) {
    && next.Lit? && next.text != [] && !RunChar(true, next.text[0])
    && (p.OptChar? ==> next.text[0] != p.c)
  }

  /** Every run and optional character is last or followed by a stopping literal. */
  predicate WellFormed(pat: Pattern)
    decreases |pat|
  {
    pat == [] ||
    (&& ((IsRun(pat[0]) || pat[0].OptChar?) ==> |pat| == 1 || StopsAfter(pat[0], pat[1]))
     && WellFormed(pat[1..]))
  }

  /** What the greedy matcher finds is a match of the regular expression. */
  lemma {:induction false} MatchAtSound(s: string, pat: Pattern)
    requires MatchAt(s, pat).Some?
    ensures Matches(s, pat, MatchAt(s, pat).value)
    decreases |pat|
  {
    if pat != [] {
      match pat[0]
      case Lit(t) => MatchAtSound(s[|t|..], pat[1..]);
      case OptChar(c) =>
        if s != [] && s[0] == c {
          MatchAtSound(s[1..], pat[1..]);
        } else {
          MatchAtSound(s, pat[1..]);
        }
      case Digits =>
        var k := RunLen(s, false);
        MatchAtSound(s[k..], pat[1..]);
        assert ([s[..k]] + MatchAt(s[k..], pat[1..]).value)[1..] == MatchAt(s[k..], pat[1..]).value;
      case DigitsDots =>
        var k := RunLen(s, true);
        MatchAtSound(s[k..], pat[1..]);
        assert ([s[..k]] + MatchAt(s[k..], pat[1..]).value)[1..] == MatchAt(s[k..], pat[1..]).value;
    }
  }

  /** A run of exactly `w` followed by a non-run character is the longest run. */
  lemma RunLenExact(s: string, dots: bool, w: string)
    requires StartsWith(s, w) && AllRun(dots, w)
    requires |w| < |s| && !RunChar(dots, s[|w|])
    ensures RunLen(s, dots) == |w|
  {
    RunLenAtLeast(s, dots, w);
    var k := RunLen(s, dots);
    assert forall i :: 0 <= i < k ==> RunChar(dots, s[..k][i]);
  }

  /** A run that the regular expression accepts is no longer than the greedy one. */
  lemma RunLenAtLeast(s: string, dots: bool, w: string)
    requires StartsWith(s, w) && AllRun(dots, w)
    ensures RunLen(s, dots) >= |w|
  {
    assert forall i :: 0 <= i < |w| ==> s[i] == w[i];
  }

  /** Wherever the regular expression matches, the greedy matcher matches too. */
  lemma {:induction false} MatchAtComplete(s: string, pat: Pattern, caps: seq<string>)
    requires WellFormed(pat) && Matches(s, pat, caps)
    ensures MatchAt(s, pat).Some?
    decreases |pat|
  {
    if pat != [] {
      match pat[0]
      case Lit(t) => MatchAtComplete(s[|t|..], pat[1..], caps);
      case OptChar(c) => CompleteOpt(s, pat, caps, c);
      case Digits => CompleteRun(s, pat, caps, false);
      case DigitsDots => CompleteRun(s, pat, caps, true);
    }
  }

  lemma {:induction false} CompleteOpt(s: string, pat: Pattern, caps: seq<string>, c: char)
    requires WellFormed(pat) && Matches(s, pat, caps)
    requires pat != [] && pat[0] == OptChar(c)
    ensures MatchAt(s, pat).Some?
    decreases |pat|, 0
  {
    var rest := pat[1..];
    assert WellFormed(rest);
    // the literal after `c?` cannot start with `c`
    assert |pat| > 1 ==> rest[0].Lit? && rest[0].text != [] && rest[0].text[0] != c;
    assert |pat| > 1 && Matches(s, rest, caps) ==> StartsWith(s, rest[0].text);
    if s != [] && s[0] == c {
      if |pat| == 1 {
        assert MatchAt(s[1..], rest) == Some([]);
      } else {
        MatchAtComplete(s[1..], rest, caps);
      }
    } else {
      MatchAtComplete(s, rest, caps);
    }
  }

  lemma {:induction false} CompleteRun(s: string, pat: Pattern, caps: seq<string>, dots: bool)
    requires WellFormed(pat) && Matches(s, pat, caps)
    requires pat != [] && pat[0] == (if dots then DigitsDots else Digits)
    ensures MatchAt(s, pat).Some?
    decreases |pat|, 0
  {
    var w := caps[0];
    RunLenAtLeast(s, dots, w);
    if |pat| > 1 {
      var t := pat[1].text;
      assert StartsWith(s[|w|..], t);
      assert s[|w|] == t[0];
      RunLenExact(s, dots, w);
      MatchAtComplete(s[|w|..], pat[1..], caps[1..]);
    } else {
      var k := RunLen(s, dots);
      assert MatchAt(s[k..], pat[1..]) == Some([]);
    }
  }

  /** At any one position, the greedy matcher succeeds exactly when the regular
      expression does, and then with captures the regular expression allows. */
  lemma MatchAtIsRegexMatch(s: string, pat: Pattern)
    requires WellFormed(pat)
    ensures MatchAt(s, pat).Some? <==> exists caps :: Matches(s, pat, caps)
    ensures MatchAt(s, pat).Some? ==> Matches(s, pat, MatchAt(s, pat).value)
  {
    if MatchAt(s, pat).Some? {
      MatchAtSound(s, pat);
      var found := MatchAt(s, pat).value;
      assert Matches(s, pat, found);
      assert exists caps :: Matches(s, pat, caps);
    } else {
      forall caps | Matches(s, pat, caps) ensures MatchAt(s, pat).Some? {
        MatchAtComplete(s, pat, caps);
      }
    }
  }

  /** `re.search`: the match at the leftmost position where the pattern matches. */
  function Search(s: string, pat: Pattern): (r: Option<seq<string>>)
    ensures r.Some? ==> exists i :: 0 <= i <= |s| && MatchAt(s[i..], pat) == r
                          && forall j :: 0 <= j < i ==> MatchAt(s[j..], pat).None?
    ensures r.None? ==> forall i :: 0 <= i <= |s| ==> MatchAt(s[i..], pat).None?
    ensures r.Some? ==> CapturesFit(pat, r.value)
    decreases |s|
  {
    match MatchAt(s, pat)
    case Some(caps) => assert s[0..] == s; Some(caps)
    case None =>
      if s == [] then assert s[0..] == s; None
      else
        var r := Search(s[1..], pat);
        assert forall i :: 1 <= i <= |s| ==> s[1..][i - 1..] == s[i..];
        assert s[0..] == s;
        r
  }

  /** Text that cannot begin the pattern does not change the search. */
  lemma {:induction false} SearchSkips(p: string, x: string, pat: Pattern)
    requires pat != [] && pat[0].Lit? && pat[0].text != [] && pat[0].text[0] !in p
    ensures Search(p + x, pat) == Search(x, pat)
    decreases |p|
  {
    if p != [] {
      assert (p + x)[0] == p[0];
      assert (p + x)[1..] == p[1..] + x;
      SearchSkips(p[1..], x, pat);
    } else {
      assert p + x == x;
    }
  }

  /** The text a pattern matches when its optional characters are present. */
  function Render(pat: Pattern, caps: seq<string>): string
    requires |caps| == |CaptureKinds(pat)|
    decreases |pat|
  {
    if pat == [] then ""
    else match pat[0]
      case Lit(t) => t + Render(pat[1..], caps)
      case OptChar(c) => [c] + Render(pat[1..], caps)
      case Digits => caps[0] + Render(pat[1..], caps[1..])
      case DigitsDots => caps[0] + Render(pat[1..], caps[1..])
  }

  predicate EndsInRun(pat: Pattern) {
    pat != [] && IsRun(pat[|pat| - 1])
  }

  /** The matcher reads back the captures of the text it describes. */
  lemma {:induction false} MatchRendered(pat: Pattern, caps: seq<string>, tail: string)
    requires WellFormed(pat) && CapturesFit(pat, caps)
    requires EndsInRun(pat) ==> tail == [] || !RunChar(true, tail[0])
    ensures MatchAt(Render(pat, caps) + tail, pat) == Some(caps)
    decreases |pat|
  {
    if pat != [] {
      if IsRun(pat[0]) {
        var dots := pat[0].DigitsDots?;
        RunRest(pat, caps, tail, dots);
        MatchRendered(pat[1..], caps[1..], tail);
        RenderedRun(pat, caps, tail, dots);
      } else {
        FixedRest(pat, caps, tail);
        MatchRendered(pat[1..], caps, tail);
        RenderedFixed(pat, caps, tail);
      }
    }
  }

  /** One step of `MatchRendered` over a literal or an optional character. */
  lemma RenderedFixed(pat: Pattern, caps: seq<string>, tail: string)
    requires pat != [] && !IsRun(pat[0]) && |caps| == |CaptureKinds(pat)|
    requires MatchAt(Render(pat[1..], caps) + tail, pat[1..]) == Some(caps)
    ensures MatchAt(Render(pat, caps) + tail, pat) == Some(caps)
  {
    var head := if pat[0].Lit? then pat[0].text else [pat[0].c];
    var after := Render(pat[1..], caps) + tail;
    RenderFixedHead(pat, caps, head);
    assert Render(pat, caps) + tail == head + after;
    FixedHead(pat, head, after);
  }

  /** What is left after a literal or an optional character is still a
      well-formed pattern the same captures fit. */
  lemma FixedRest(pat: Pattern, caps: seq<string>, tail: string)
    requires WellFormed(pat) && CapturesFit(pat, caps)
    requires EndsInRun(pat) ==> tail == [] || !RunChar(true, tail[0])
    requires pat != [] && !IsRun(pat[0])
    ensures WellFormed(pat[1..]) && CapturesFit(pat[1..], caps)
    ensures EndsInRun(pat[1..]) ==> tail == [] || !RunChar(true, tail[0])
  {
    var rest := pat[1..];
    assert EndsInRun(rest) ==> EndsInRun(pat);
    assert CaptureKinds(rest) == CaptureKinds(pat);
  }

  lemma RenderFixedHead(pat: Pattern, caps: seq<string>, head: string)
    requires pat != [] && !IsRun(pat[0]) && |caps| == |CaptureKinds(pat)|
    requires head == if pat[0].Lit? then pat[0].text else [pat[0].c]
    ensures |caps| == |CaptureKinds(pat[1..])|
    ensures Render(pat, caps) == head + Render(pat[1..], caps)
  {
  }

  /** Matching a literal or a present optional character steps over it. */
  lemma FixedHead(pat: Pattern, head: string, after: string)
    requires pat != [] && !IsRun(pat[0])
    requires head == if pat[0].Lit? then pat[0].text else [pat[0].c]
    ensures MatchAt(head + after, pat) == MatchAt(after, pat[1..])
  {
    var s := head + after;
    assert s[..|head|] == head && s[|head|..] == after;
  }

  /** One step of `MatchRendered` over a captured run. */
  lemma RenderedRun(pat: Pattern, caps: seq<string>, tail: string, dots: bool)
    requires pat != [] && pat[0] == (if dots then DigitsDots else Digits)
    requires caps != [] && caps[0] != [] && AllRun(dots, caps[0])
    requires |caps[1..]| == |CaptureKinds(pat[1..])|
    requires Render(pat, caps) == caps[0] + Render(pat[1..], caps[1..])
    requires |pat| > 1 ==> pat[1].Lit? && pat[1].text != [] && !RunChar(true, pat[1].text[0])
    requires |pat| == 1 ==> tail == [] || !RunChar(true, tail[0])
    requires MatchAt(Render(pat[1..], caps[1..]) + tail, pat[1..]) == Some(caps[1..])
    ensures MatchAt(Render(pat, caps) + tail, pat) == Some(caps)
  {
    RunFollowedBy(pat, caps, tail, dots);
    RunStep(Render(pat, caps), tail, pat, dots, caps[0], Render(pat[1..], caps[1..]), caps[1..]);
    assert [caps[0]] + caps[1..] == caps;
  }

  /** What follows a run in rendered text cannot extend the run. */
  lemma RunFollowedBy(pat: Pattern, caps: seq<string>, tail: string, dots: bool)
    requires pat != [] && |caps| > 0 && |caps[1..]| == |CaptureKinds(pat[1..])|
    requires |pat| > 1 ==> pat[1].Lit? && pat[1].text != [] && !RunChar(true, pat[1].text[0])
    requires |pat| == 1 ==> tail == [] || !RunChar(true, tail[0])
    ensures var after := Render(pat[1..], caps[1..]) + tail;
      after == [] || !RunChar(dots, after[0])
  {
    var after := Render(pat[1..], caps[1..]) + tail;
    if |pat| > 1 {
      RenderFixedHead(pat[1..], caps[1..], pat[1].text);
      assert after[0] == pat[1].text[0];
    } else {
      assert after == tail;
    }
  }

  /** The greedy matcher takes exactly the run `w` and goes on with the rest. */
  lemma RunStep(x: string, tail: string, pat: Pattern, dots: bool, w: string, r: string, cs: seq<string>)
    requires pat != [] && pat[0] == (if dots then DigitsDots else Digits)
    requires x == w + r && w != [] && AllRun(dots, w)
    requires r + tail == [] || !RunChar(dots, (r + tail)[0])
    requires MatchAt(r + tail, pat[1..]) == Some(cs)
    ensures MatchAt(x + tail, pat) == Some([w] + cs)
  {
    var s := x + tail;
    assert s == w + (r + tail);
    RunEndsAt(s, dots, w, r + tail);
    MatchAtRun(s, pat, dots);
  }

  /** A run stops where its characters end. */
  lemma RunEndsAt(s: string, dots: bool, w: string, after: string)
    requires s == w + after && AllRun(dots, w)
    requires after == [] || !RunChar(dots, after[0])
    ensures RunLen(s, dots) == |w| && s[..|w|] == w && s[|w|..] == after
  {
    assert s[..|w|] == w && s[|w|..] == after;
    if after == [] {
      assert s == w;
      RunLenAtLeast(s, dots, w);
    } else {
      RunLenExact(s, dots, w);
    }
  }

  /** `MatchAt` on a pattern that starts with a run. */
  lemma MatchAtRun(s: string, pat: Pattern, dots: bool)
    requires pat != [] && pat[0] == (if dots then DigitsDots else Digits)
    ensures var k := RunLen(s, dots);
      MatchAt(s, pat) ==
        if k == 0 then None
        else match MatchAt(s[k..], pat[1..])
          case Some(caps) => Some([s[..k]] + caps)
          case None => None
  {
  }

  /** What is left after a run is a well-formed pattern the other captures fit. */
  lemma RunRest(pat: Pattern, caps: seq<string>, tail: string, dots: bool)
    requires WellFormed(pat) && CapturesFit(pat, caps)
    requires EndsInRun(pat) ==> tail == [] || !RunChar(true, tail[0])
    requires pat != [] && pat[0] == (if dots then DigitsDots else Digits)
    ensures caps != [] && caps[0] != [] && AllRun(dots, caps[0])
    ensures WellFormed(pat[1..]) && CapturesFit(pat[1..], caps[1..])
    ensures EndsInRun(pat[1..]) ==> tail == [] || !RunChar(true, tail[0])
    ensures Render(pat, caps) == caps[0] + Render(pat[1..], caps[1..])
    ensures |pat| > 1 ==> pat[1].Lit? && pat[1].text != [] && !RunChar(true, pat[1].text[0])
    ensures |pat| == 1 ==> tail == [] || !RunChar(true, tail[0])
  {
    var rest := pat[1..];
    assert CaptureKinds(pat)[0] == dots;
    assert CaptureKinds(rest) == CaptureKinds(pat)[1..];
    forall k | 0 <= k < |caps[1..]|
      ensures caps[1..][k] != [] && AllRun(CaptureKinds(rest)[k], caps[1..][k])
    {
      assert caps[1..][k] == caps[k + 1];
    }
    assert EndsInRun(rest) ==> EndsInRun(pat);
  }

  /** `re.search` finds the text a pattern describes after any text that
      cannot start the pattern's leading literal. */
  lemma SearchRendered(p: string, pat: Pattern, caps: seq<string>, tail: string)
    requires WellFormed(pat) && CapturesFit(pat, caps)
    requires EndsInRun(pat) ==> tail == [] || !RunChar(true, tail[0])
    requires pat != [] && pat[0].Lit? && pat[0].text != [] && pat[0].text[0] !in p
    ensures Search(p + Render(pat, caps) + tail, pat) == Some(caps)
  {
    var x := Render(pat, caps) + tail;
    assert p + Render(pat, caps) + tail == p + x;
    SearchSkips(p, x, pat);
    MatchRendered(pat, caps, tail);
  }

  // ---------------------------------------------------------------------
  // The patterns of dashboard/app.py
  // ---------------------------------------------------------------------

  /** `Starting run (\d+)` */
  const StartingRun: Pattern := [Lit("Starting run "), Digits]
  /** `num_rounds=(\d+)` */
  const NumRoundsSetting: Pattern := [Lit("num_rounds="), Digits]
  /** `\[ROUND (\d+)\]` */
  const RoundMarker: Pattern := [Lit("[ROUND "), Digits, Lit("]")]
  /** `aggregate_fit: received (\d+) results? and (\d+) failures?` */
  const FitAggregate: Pattern := AggregatePattern("aggregate_fit: received ")
  /** `aggregate_evaluate: received (\d+) results? and (\d+) failures?` */
  const EvaluateAggregate: Pattern := AggregatePattern("aggregate_evaluate: received ")
  /** `round (\d+): ([\d.]+)` */
  const HistoryValue: Pattern := [Lit("round "), Digits, Lit(": "), DigitsDots]
  /** `in ([\d.]+)s` */
  const Duration: Pattern := [Lit("in "), DigitsDots, Lit("s")]
  /** `node_id=(\d+)` */
  const NodeId: Pattern := [Lit("node_id="), Digits]
  /** `\[Fleet\.PullMessages\] node_id=(\d+)` */
  const FleetNodeId: Pattern := [Lit("[Fleet.PullMessages] node_id="), Digits]

  /** Every pattern of the dashboard is one the greedy matcher decides exactly. */
  lemma PatternsWellFormed()
    ensures WellFormed(StartingRun) && WellFormed(NumRoundsSetting) && WellFormed(RoundMarker)
    ensures WellFormed(FitAggregate) && WellFormed(EvaluateAggregate) && WellFormed(HistoryValue)
    ensures WellFormed(Duration) && WellFormed(NodeId) && WellFormed(FleetNodeId)
  {
    LitRunWellFormed("Starting run ");
    LitRunWellFormed("num_rounds=");
    LitRunWellFormed("node_id=");
    LitRunWellFormed("[Fleet.PullMessages] node_id=");
    LitRunLitWellFormed("[ROUND ", Digits, "]");
    LitRunLitWellFormed("in ", DigitsDots, "s");
    HistoryValueWellFormed();
    AggregateWellFormed("aggregate_fit: received ");
    AggregateWellFormed("aggregate_evaluate: received ");
  }

  lemma LitRunWellFormed(head: string)
    ensures WellFormed([Lit(head), Digits])
  {
    assert [Lit(head), Digits][1..] == [Digits];
    assert WellFormed([Digits]);
  }

  lemma LitRunLitWellFormed(head: string, run: Piece, stop: string)
    requires IsRun(run) && stop != [] && !RunChar(true, stop[0])
    ensures WellFormed([Lit(head), run, Lit(stop)])
  {
    var p := [Lit(head), run, Lit(stop)];
    assert p[2..] == [Lit(stop)] && p[2..][1..] == [];
    assert WellFormed(p[2..]);
    assert p[1..] == [run, Lit(stop)];
    assert WellFormed(p[1..]);
  }

  lemma HistoryValueWellFormed()
    ensures WellFormed(HistoryValue)
  {
    var p := HistoryValue;
    assert p[3..] == [DigitsDots] && p[3..][1..] == [];
    assert WellFormed(p[3..]);
    assert p[2..][1..] == p[3..];
    assert WellFormed(p[2..]);
    assert p[1..][1..] == p[2..];
    assert WellFormed(p[1..]);
  }

  function AggregatePattern(head: string): Pattern {
    [Lit(head), Digits, Lit(" result"), OptChar('s'), Lit(" and "), Digits, Lit(" failure"), OptChar('s')]
  }

  lemma AggregateWellFormed(head: string)
    ensures WellFormed(AggregatePattern(head))
  {
    var p := AggregatePattern(head);
    assert p[7..] == [OptChar('s')] && p[7..][1..] == [];
    assert WellFormed(p[7..]);
    assert p[6..][1..] == p[7..];
    assert WellFormed(p[6..]);
    assert p[5..][1..] == p[6..];
    assert WellFormed(p[5..]);
    assert p[4..][1..] == p[5..];
    assert WellFormed(p[4..]);
    assert p[3..][1..] == p[4..];
    assert WellFormed(p[3..]);
    assert p[2..][1..] == p[3..];
    assert WellFormed(p[2..]);
    assert p[1..][1..] == p[2..];
    assert WellFormed(p[1..]);
  }
}
