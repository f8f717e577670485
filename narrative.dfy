/** The language-model review of an applicant (`llm_evaluation`): up to
    three requests, each reply read line by line into a summary, a score,
    issues and follow-up questions, and a fixed fallback when every request
    fails. The model is an oracle: request `k` gets `reply(k)`. */
module Narrative {
  import opened Json
  import Retry

  datatype Evaluation = Evaluation(summary: string, score: int, issues: string, followUps: string)

  /** The dict a reply is read into before its first line. */
  const Blank: Evaluation := Evaluation("", 0, "", "")

  /** The dict returned when the last request fails. */
  const Fallback: Evaluation := Evaluation("LLM evaluation failed", 0, "API error", "Retry evaluation")

  /** The score recorded when the score line does not hold an integer. */
  const UnreadableScore: int := 5

  /** What follows a marker: every occurrence of the marker removed from the
      line, then surrounding whitespace. */
  function Value(line: string, marker: string): string
    requires marker != []
  {
    Strip(RemoveAll(line, marker))
  }

  /** The markers are tried in order; a line is of the first kind it
      matches. */
  predicate IsSummaryLine(line: string) { "Summary:" <= line }
  predicate IsScoreLine(line: string) { !IsSummaryLine(line) && "Score:" <= line }
  predicate IsIssuesLine(line: string) { !IsSummaryLine(line) && !("Score:" <= line) && "Issues:" <= line }
  predicate IsFollowUpsLine(line: string) {
    !IsSummaryLine(line) && !("Score:" <= line) && !("Issues:" <= line) && "Follow-Ups:" <= line
  }

  /** A line with no marker that starts with a bullet or '-'. */
  predicate IsBulletLine(line: string) {
    && !IsSummaryLine(line) && !("Score:" <= line) && !("Issues:" <= line) && !("Follow-Ups:" <= line)
    && ("\U{2022}" <= line || "-" <= line)
  }

  /** The score a score line gives. */
  function ScoreOf(line: string): int {
    match ParseInt(Value(line, "Score:"))
    case Some(n) => n
    case None => UnreadableScore
  }

  /** One line of the reply: the first marker it starts with sets its field
      (a later line with the same marker overwrites it); a line starting
      with a bullet or '-' is appended to the follow-ups on a new line;
      anything else is ignored. */
  function ParseLine(e: Evaluation, line: string): (r: Evaluation)
    ensures !IsSummaryLine(line) ==> r.summary == e.summary
    ensures !IsScoreLine(line) ==> r.score == e.score
    ensures !IsIssuesLine(line) ==> r.issues == e.issues
    ensures !IsFollowUpsLine(line) ==> r.followUps == e.followUps + BulletOf(line)
  {
    if IsSummaryLine(line) then e.(summary := Value(line, "Summary:"))
    else if "Score:" <= line then e.(score := ScoreOf(line))
    else if "Issues:" <= line then e.(issues := Value(line, "Issues:"))
    else if "Follow-Ups:" <= line then e.(followUps := Value(line, "Follow-Ups:"))
    else if "\U{2022}" <= line || "-" <= line then e.(followUps := e.followUps + ("\n" + Strip(line)))
    else e
  }

  /** The lines read in order, starting from the blank dict. */
  function ParseLines(lines: seq<string>): Evaluation {
    if lines == [] then Blank
    else ParseLine(ParseLines(lines[..|lines| - 1]), lines[|lines| - 1])
  }

  /** The lines of a reply: surrounding whitespace removed, split at
      newlines. */
  function Lines(text: string): seq<string> {
    SplitLines(Strip(text))
  }

  /** Reads a non-empty reply, line by line. */
  method ParseResponse(text: string) returns (e: Evaluation)
    ensures e == ParseLines(Lines(text))
  {
    var lines := Lines(text);
    e := Blank;
    for i := 0 to |lines|
      invariant e == ParseLines(lines[..i])
    {
      ParseLinesStep(lines, i);
      e := ParseLine(e, lines[i]);
    }
    assert lines[..|lines|] == lines;
  }

  lemma ParseLinesStep(lines: seq<string>, i: nat)
    requires i < |lines|
    ensures ParseLines(lines[..i + 1]) == ParseLine(ParseLines(lines[..i]), lines[i])
  {
    assert lines[..i + 1][..i] == lines[..i];
  }

  /** The summary is the value of the last summary line. */
  lemma {:induction false} LastSummaryWins(lines: seq<string>, j: nat)
    requires j < |lines| && IsSummaryLine(lines[j])
    requires forall i :: j < i < |lines| ==> !IsSummaryLine(lines[i])
    ensures ParseLines(lines).summary == Value(lines[j], "Summary:")
  {
    if j < |lines| - 1 {
      LastSummaryWins(lines[..|lines| - 1], j);
    }
  }

  /** Without a summary line the summary stays empty. */
  lemma {:induction false} NoSummary(lines: seq<string>)
    requires forall i :: 0 <= i < |lines| ==> !IsSummaryLine(lines[i])
    ensures ParseLines(lines).summary == ""
  {
    if lines != [] {
      NoSummary(lines[..|lines| - 1]);
    }
  }

  /** The score is that of the last score line. */
  lemma {:induction false} LastScoreWins(lines: seq<string>, j: nat)
    requires j < |lines| && IsScoreLine(lines[j])
    requires forall i :: j < i < |lines| ==> !IsScoreLine(lines[i])
    ensures ParseLines(lines).score == ScoreOf(lines[j])
  {
    if j < |lines| - 1 {
      LastScoreWins(lines[..|lines| - 1], j);
    }
  }

  /** Without a score line the score stays 0. */
  lemma {:induction false} NoScore(lines: seq<string>)
    requires forall i :: 0 <= i < |lines| ==> !IsScoreLine(lines[i])
    ensures ParseLines(lines).score == 0
  {
    if lines != [] {
      NoScore(lines[..|lines| - 1]);
    }
  }

  /** The issues are the value of the last issues line. */
  lemma {:induction false} LastIssuesWins(lines: seq<string>, j: nat)
    requires j < |lines| && IsIssuesLine(lines[j])
    requires forall i :: j < i < |lines| ==> !IsIssuesLine(lines[i])
    ensures ParseLines(lines).issues == Value(lines[j], "Issues:")
  {
    if j < |lines| - 1 {
      LastIssuesWins(lines[..|lines| - 1], j);
    }
  }

  /** Without an issues line the issues stay empty. */
  lemma {:induction false} NoIssues(lines: seq<string>)
    requires forall i :: 0 <= i < |lines| ==> !IsIssuesLine(lines[i])
    ensures ParseLines(lines).issues == ""
  {
    if lines != [] {
      NoIssues(lines[..|lines| - 1]);
    }
  }

  /** What a bullet line adds to the follow-ups. */
  function BulletOf(line: string): string {
    if IsBulletLine(line) then "\n" + Strip(line) else ""
  }

  /** Each bullet line of `lines`, stripped, on a new line. */
  function Bullets(lines: seq<string>): string {
    if lines == [] then ""
    else Bullets(lines[..|lines| - 1]) + BulletOf(lines[|lines| - 1])
  }

  /** The follow-ups are the value of the last follow-ups line, then the
      bullet lines after it; a bullet line before it is lost. */
  lemma {:induction false} LastFollowUpsWins(lines: seq<string>, j: nat)
    requires j < |lines| && IsFollowUpsLine(lines[j])
    requires forall i :: j < i < |lines| ==> !IsFollowUpsLine(lines[i])
    ensures ParseLines(lines).followUps == Value(lines[j], "Follow-Ups:") + Bullets(lines[j + 1..])
  {
    var n := |lines|;
    if j == n - 1 {
      assert lines[j + 1..] == [];
    } else {
      var init := lines[..n - 1];
      assert forall i :: j <= i < |init| ==> init[i] == lines[i];
      LastFollowUpsWins(init, j);
      FollowUpsStep(lines);
      BulletsStep(lines, j);
      AppendAfter(ParseLines(init).followUps, Value(lines[j], "Follow-Ups:"), Bullets(init[j + 1..]), BulletOf(lines[n - 1]));
    }
  }

  lemma AppendAfter(prev: string, v: string, b: string, x: string)
    requires prev == v + b
    ensures prev + x == v + (b + x)
  {
  }

  lemma FollowUpsStep(lines: seq<string>)
    requires lines != [] && !IsFollowUpsLine(lines[|lines| - 1])
    ensures ParseLines(lines).followUps == ParseLines(lines[..|lines| - 1]).followUps + BulletOf(lines[|lines| - 1])
  {
    var last := lines[|lines| - 1];
    assert ParseLines(lines) == ParseLine(ParseLines(lines[..|lines| - 1]), last);
  }

  lemma BulletsStep(lines: seq<string>, j: nat)
    requires j < |lines| - 1
    ensures Bullets(lines[j + 1..]) == Bullets(lines[..|lines| - 1][j + 1..]) + BulletOf(lines[|lines| - 1])
  {
    var after := lines[j + 1..];
    assert after[..|after| - 1] == lines[..|lines| - 1][j + 1..];
  }

  /** Without a follow-ups line the follow-ups are the bullet lines. */
  lemma {:induction false} NoFollowUps(lines: seq<string>)
    requires forall i :: 0 <= i < |lines| ==> !IsFollowUpsLine(lines[i])
    ensures ParseLines(lines).followUps == Bullets(lines)
  {
    if lines != [] {
      NoFollowUps(lines[..|lines| - 1]);
    }
  }

  /** Removing a marker from text that does not hold its first character
      changes nothing. */
  lemma {:induction false} RemoveAbsent(s: string, pat: string)
    requires pat != [] && forall i :: 0 <= i < |s| ==> s[i] != pat[0]
    ensures RemoveAll(s, pat) == s
    decreases |s|
  {
    if s != [] {
      RemoveAbsent(s[1..], pat);
    }
  }

  lemma IntTextHasNoSpace(n: int)
    ensures forall i :: 0 <= i < |IntToString(n)| ==> !IsSpace(IntToString(n)[i]) && IntToString(n)[i] != 'S'
  {
    var t := NatToString(if n < 0 then -n else n);
    assert forall i :: 0 <= i < |t| ==> IsDigit(t[i]);
    if n < 0 {
      assert forall i :: 1 <= i < |IntToString(n)| ==> IntToString(n)[i] == t[i - 1];
    }
  }

  /** A score line written as 'Score: <n>' is read back as n. */
  lemma ScoreRoundTrip(n: int)
    ensures ScoreOf("Score: " + IntToString(n)) == n
  {
    var s := IntToString(n);
    var line := "Score: " + s;
    IntTextHasNoSpace(n);
    assert "Score:" <= line;
    assert line[6..] == " " + s;
    RemoveAbsent(" " + s, "Score:");
    assert RemoveAll(line, "Score:") == " " + s;
    assert StripLeft(" " + s) == StripLeft(s);
    assert StripLeft(s) == s;
    assert StripRight(s) == s;
    IntRoundTrip(n);
  }

  /** A score that is not an integer reads as 5. */
  lemma FractionalScore()
    ensures ScoreOf("Score: 8/10") == UnreadableScore
  {
    FractionValue();
    FractionNotInteger();
  }

  lemma FractionValue()
    ensures Value("Score: 8/10", "Score:") == "8/10"
  {
    FractionMarkerRemoved();
    FractionStripped();
  }

  lemma FractionMarkerRemoved()
    ensures RemoveAll("Score: 8/10", "Score:") == " 8/10"
  {
    var line := "Score: 8/10";
    assert "Score:" <= line;
    assert line[6..] == " 8/10";
    RemoveAbsent(" 8/10", "Score:");
  }

  lemma FractionStripped()
    ensures Strip(" 8/10") == "8/10"
  {
    assert StripLeft(" 8/10") == StripLeft("8/10");
    assert StripLeft("8/10") == "8/10";
    assert StripRight("8/10") == "8/10";
  }

  lemma FractionNotInteger()
    ensures ParseInt("8/10") == None
  {
    assert !IsDigit("8/10"[1]) && "8/10"[1] != '_';
  }

  // ---------------------------------------------------------------------
  // The request loop

  /** What request `k` gets: the reply's text, or an exception. */
  datatype Reply = Text(text: string) | Raised

  /** How the evaluation ends, and the seconds slept between requests. The
      result is None when no request raised on the last try and no reply had
      text (the function then falls off its end). */
  datatype Run = Run(result: Option<Evaluation>, sleeps: seq<nat>)

  const MaxRequests: nat := 3

  /** The requests from number `k` on. An empty reply moves on to the next
      request at once; an exception sleeps 2^k seconds first, unless it is
      the last request, which gives the fallback. */
  function RequestsFrom(reply: nat -> Reply, k: nat): (r: Run)
    ensures |r.sleeps| <= MaxRequests - 1
    decreases MaxRequests - k
  {
    if k >= MaxRequests then Run(None, [])
    else
      match reply(k)
      case Text(text) =>
        if text != "" then Run(Some(ParseLines(Lines(text))), [])
        else RequestsFrom(reply, k + 1)
      case Raised =>
        if k == MaxRequests - 1 then Run(Some(Fallback), [])
        else
          var rest := RequestsFrom(reply, k + 1);
          Run(rest.result, [Retry.Pow2(k)] + rest.sleeps)
  }

  /** `llm_evaluation`. */
  method LlmEvaluation(reply: nat -> Reply) returns (result: Option<Evaluation>, sleeps: seq<nat>)
    ensures Run(result, sleeps) == RequestsFrom(reply, 0)
  {
    sleeps := [];
    var attempt: nat := 0;
    while attempt < MaxRequests
      invariant attempt <= MaxRequests
      invariant
        var rest := RequestsFrom(reply, attempt);
        RequestsFrom(reply, 0) == Run(rest.result, sleeps + rest.sleeps)
    {
      RequestStep(reply, attempt);
      match reply(attempt) {
        case Text(text) =>
          if text != "" {
            var e := ParseResponse(text);
            assert sleeps + [] == sleeps;
            return Some(e), sleeps;
          }
        case Raised =>
          if attempt == MaxRequests - 1 {
            assert sleeps + [] == sleeps;
            return Some(Fallback), sleeps;
          }
          RaisedStep(reply, attempt, sleeps);
          sleeps := sleeps + [Retry.Pow2(attempt)];
      }
      attempt := attempt + 1;
    }
    assert sleeps + [] == sleeps;
    result := None;
  }

  /** Request `k` on its own: a reply with text is read, an empty one moves
      on, and an exception on the last request gives the fallback. */
  lemma RequestStep(reply: nat -> Reply, k: nat)
    requires k < MaxRequests
    ensures reply(k).Text? && reply(k).text != "" ==> RequestsFrom(reply, k) == Run(Some(ParseLines(Lines(reply(k).text))), [])
    ensures reply(k) == Text("") ==> RequestsFrom(reply, k) == RequestsFrom(reply, k + 1)
    ensures reply(k) == Raised && k == MaxRequests - 1 ==> RequestsFrom(reply, k) == Run(Some(Fallback), [])
  {
  }

  /** A request that raised before the last moves its sleep from the rest
      of the run to the sleeps done so far. */
  lemma RaisedStep(reply: nat -> Reply, k: nat, sleeps: seq<nat>)
    requires k < MaxRequests - 1 && reply(k) == Raised
    ensures var r := RequestsFrom(reply, k);
            var rest := RequestsFrom(reply, k + 1);
            r.result == rest.result && sleeps + r.sleeps == (sleeps + [Retry.Pow2(k)]) + rest.sleeps
  {
    var rest := RequestsFrom(reply, k + 1);
    assert sleeps + ([Retry.Pow2(k)] + rest.sleeps) == (sleeps + [Retry.Pow2(k)]) + rest.sleeps;
  }

  /** Three failed requests give the fallback after sleeping 1 and then 2
      seconds. */
  lemma AllRequestsFail(reply: nat -> Reply)
    requires forall k: nat :: k < MaxRequests ==> reply(k) == Raised
    ensures RequestsFrom(reply, 0) == Run(Some(Fallback), [1, 2])
  {
    assert Retry.Pow2(1) == 2;
  }

  /** Three empty replies give None without sleeping. */
  lemma AllRepliesEmpty(reply: nat -> Reply)
    requires forall k: nat :: k < MaxRequests ==> reply(k) == Text("")
    ensures RequestsFrom(reply, 0) == Run(None, [])
  {
  }

  /** The first reply with text is the one read, after a sleep for each
      request that raised before it. */
  lemma {:induction false} FirstTextRead(reply: nat -> Reply, k: nat, j: nat)
    requires k <= j < MaxRequests && reply(j).Text? && reply(j).text != ""
    requires forall i :: k <= i < j ==> reply(i) == Raised || reply(i) == Text("")
    ensures RequestsFrom(reply, k).result == Some(ParseLines(Lines(reply(j).text)))
    decreases j - k
  {
    var r := RequestsFrom(reply, k);
    if k < j {
      FirstTextRead(reply, k + 1, j);
      if reply(k) == Raised {
        assert k != MaxRequests - 1;
        assert r.result == RequestsFrom(reply, k + 1).result;
      } else {
        assert reply(k) == Text("");
        assert r == RequestsFrom(reply, k + 1);
      }
    } else {
      var text := reply(j).text;
      assert reply(k) == Text(text);
      assert r == Run(Some(ParseLines(Lines(text))), []);
    }
  }
}
