/** The quality evaluator: it asks the text generator to review one channel's
    content, then reads an overall score, a recommendation and feedback out of
    the reply by scanning for literal markers, and decides approval. The
    generator call is an oracle: its reply arrives as an `EvalResponse`, and
    Python's `float()` is the `NumberParser` oracle. */
module Quality {
  import opened Wrappers
  import opened Text

  /** Python's `float(text)`: `None` where `float` raises. */
  type NumberParser = string -> Option<real>

  /** What the generation call did: returned a reply, or raised. */
  datatype EvalResponse = Returned(text: string) | Raised(message: string)

  /** The dictionary `evaluate` returns. */
  datatype Verdict = Verdict(
    success: bool,
    platform: string,
    evaluation: string,
    overallScore: real,
    recommendation: string,
    feedback: string,
    approved: bool)

  const ScoreMarker: string := "OVERALL SCORE:"
  const RecommendationMarker: string := "RECOMMENDATION:"
  const FeedbackMarker: string := "FEEDBACK:"
  const Approve: string := "APPROVE"
  /** The lowest raw score that is approved. */
  const ApprovalThreshold: real := 7.5
  /** The score reported when no positive score was read. */
  const DefaultScore: real := 8.0
  const ErrorFeedback: string := "Evaluation could not be completed due to an error."
  const ErrorPrefix: string := "Evaluation error: "

  /** `evaluation.split('\n')`. */
  function Lines(text: string): seq<string>
  {
    Split(text, '\n')
  }

  /** Line `i` is the first line that contains `marker`. */
  predicate FirstMarked(lines: seq<string>, marker: string, i: nat)
  {
    i < |lines| && Contains(lines[i], marker)
    && forall j :: 0 <= j < i ==> !Contains(lines[j], marker)
  }

  /** No line contains `marker`. */
  predicate NoneMarked(lines: seq<string>, marker: string)
  {
    forall j :: 0 <= j < |lines| ==> !Contains(lines[j], marker)
  }

  /** The scan `for line in lines: if marker in line: ...`, from line `from` on:
      the index of the first line containing `marker`. */
  function FindMarkedLine(lines: seq<string>, marker: string, from: nat): (r: Option<nat>)
    requires from <= |lines|
    requires forall j :: 0 <= j < from ==> !Contains(lines[j], marker)
    ensures r.Some? ==> FirstMarked(lines, marker, r.value)
    ensures r.None? ==> NoneMarked(lines, marker)
    decreases |lines| - from
  {
    if from == |lines| then None
    else if Contains(lines[from], marker) then Some(from)
    else FindMarkedLine(lines, marker, from + 1)
  }

  /** The scan from the top finds the first marked line, whichever it is. */
  lemma FindsFirstMarked(lines: seq<string>, marker: string)
    ensures forall i: nat :: FirstMarked(lines, marker, i) ==> FindMarkedLine(lines, marker, 0) == Some(i)
  {
    var r := FindMarkedLine(lines, marker, 0);
    forall i: nat | FirstMarked(lines, marker, i)
      ensures r == Some(i)
    {
    }
  }

  /** The text of a score line that `float` is given: the piece between the
      first and second `:`, stripped, then cut before the first `/`. `None`
      (the `IndexError` the code catches) when the line has no `:`. */
  function ScoreText(line: string): (t: Option<string>)
    ensures t.Some? <==> ':' in line
    ensures t.Some? ==> ':' !in t.value && '/' !in t.value
  {
    var fields := Split(line, ':');
    if |fields| < 2 then None
    else
      var stripped := Strip(fields[1]);
      assert ':' !in stripped;
      Some(Split(stripped, '/')[0])
  }

  /** The score read from one line; 0.0 when `float` or the indexing raises. */
  function ScoreOfLine(line: string, parse: NumberParser): (score: real)
    ensures ':' !in line ==> score == 0.0
    ensures ':' in line ==>
              var t := ScoreText(line).value;
              score == if parse(t).Some? then parse(t).value else 0.0
  {
    match ScoreText(line)
    case None => 0.0
    case Some(t) => parse(t).GetOr(0.0)
  }

  /** `_extract_overall_score`: the score of the first line that contains
      "OVERALL SCORE:", never of a later one, and 0.0 when no line does. */
  function ExtractOverallScore(evaluation: string, parse: NumberParser): (score: real)
    ensures NoneMarked(Lines(evaluation), ScoreMarker) ==> score == 0.0
    ensures forall i: nat :: FirstMarked(Lines(evaluation), ScoreMarker, i) ==>
              score == ScoreOfLine(Lines(evaluation)[i], parse)
  {
    var lines := Lines(evaluation);
    FindsFirstMarked(lines, ScoreMarker);
    match FindMarkedLine(lines, ScoreMarker, 0)
    case None => 0.0
    case Some(i) => ScoreOfLine(lines[i], parse)
  }

  /** The recommendation read from one line: the piece between the first and
      second `:`, stripped and upper-cased; `None` when the line has no `:`. */
  function RecommendationOfLine(line: string): (r: Option<string>)
    ensures r.Some? <==> ':' in line
    ensures r.Some? ==> ':' !in r.value
    ensures r.Some? ==> forall k :: 0 <= k < |r.value| ==> !('a' <= r.value[k] <= 'z')
    ensures r.Some? ==> IsStripped(r.value)
  {
    var fields := Split(line, ':');
    if |fields| < 2 then None
    else
      var stripped := Strip(fields[1]);
      UpperProperties(stripped);
      Some(Upper(stripped))
  }

  /** `_extract_recommendation`: read from the first line that contains
      "RECOMMENDATION:", and "APPROVE" when no line does. */
  function ExtractRecommendation(evaluation: string): (rec: string)
    ensures NoneMarked(Lines(evaluation), RecommendationMarker) ==> rec == Approve
    ensures forall i: nat :: FirstMarked(Lines(evaluation), RecommendationMarker, i) ==>
              RecommendationOfLine(Lines(evaluation)[i]) == Some(rec)
    ensures ':' !in rec
    ensures forall k :: 0 <= k < |rec| ==> !('a' <= rec[k] <= 'z')
  {
    var lines := Lines(evaluation);
    FindsFirstMarked(lines, RecommendationMarker);
    match FindMarkedLine(lines, RecommendationMarker, 0)
    case None => Approve
    case Some(i) =>
      CharOfOccurrence(lines[i], RecommendationMarker, ':');
      RecommendationOfLine(lines[i]).GetOr(Approve)
  }

  /** `_extract_feedback`: the stripped text after the first "FEEDBACK:", cut
      before the next "FEEDBACK:" (that is `split("FEEDBACK:")[1]`) and before
      the first "RECOMMENDATION:" in what is left; "" when there is no
      "FEEDBACK:". Neither marker survives in the result. */
  function ExtractFeedback(evaluation: string): (feedback: string)
    ensures !Contains(evaluation, FeedbackMarker) ==> feedback == ""
    ensures !Contains(feedback, FeedbackMarker) && !Contains(feedback, RecommendationMarker)
    ensures IsStripped(feedback)
  {
    if !Contains(evaluation, FeedbackMarker) then ""
    else
      var section := Before(After(evaluation, FeedbackMarker), FeedbackMarker);
      var body := Before(section, RecommendationMarker);
      NotContainsSlice(section, FeedbackMarker, 0, |body|);
      NotContainsStrip(body, FeedbackMarker);
      NotContainsStrip(body, RecommendationMarker);
      Strip(body)
  }

  /** `evaluate`: on a reply, the raw score and recommendation decide approval,
      while the reported score and recommendation fall back to 8.0 and
      "APPROVE" when the raw ones are not positive or empty; when the call
      raises, a fixed approving verdict. Both paths report success. */
  function Evaluate(platform: string, response: EvalResponse, parse: NumberParser): (v: Verdict)
    ensures v.success && v.platform == platform
    ensures v.overallScore > 0.0 && v.recommendation != ""
    ensures v.approved ==> v.recommendation == Approve && v.overallScore >= ApprovalThreshold
    ensures response.Raised? ==>
              v.approved && v.overallScore == DefaultScore && v.recommendation == Approve
              && v.feedback == ErrorFeedback && v.evaluation == ErrorPrefix + response.message
    // on a reply: the raw values decide approval, the reported ones fall back
    // to the defaults only when the raw ones are not positive or empty
    ensures response.Returned? ==>
              var score := ExtractOverallScore(response.text, parse);
              var rec := ExtractRecommendation(response.text);
              && v.evaluation == response.text
              && v.overallScore == (if score > 0.0 then score else DefaultScore)
              && v.recommendation == (if rec != "" then rec else Approve)
              && (v.approved <==> rec == Approve && score >= ApprovalThreshold)
              && v.feedback == ExtractFeedback(response.text)
  {
    match response
    case Raised(message) =>
      Verdict(true, platform, ErrorPrefix + message, DefaultScore, Approve, ErrorFeedback, true)
    case Returned(text) =>
      var score := ExtractOverallScore(text, parse);
      var recommendation := ExtractRecommendation(text);
      Verdict(
        true,
        platform,
        text,
        if score > 0.0 then score else DefaultScore,
        if recommendation != "" then recommendation else Approve,
        ExtractFeedback(text),
        recommendation == Approve && score >= ApprovalThreshold)
  }

  // ---------------------------------------------------------------------------
  // Properties of the verdict
  // ---------------------------------------------------------------------------

  /** A reply without an "OVERALL SCORE:" line reports 8.0 yet is not approved:
      approval looks at the raw score 0.0, not at the reported default. */
  lemma MissingScoreReportsDefaultButRejects(platform: string, text: string, parse: NumberParser)
    requires NoneMarked(Lines(text), ScoreMarker)
    ensures Evaluate(platform, Returned(text), parse).overallScore == DefaultScore
    ensures !Evaluate(platform, Returned(text), parse).approved
  {
  }

  /** The same holds when the score line is there but `float` rejects it. */
  lemma UnparsableScoreReportsDefaultButRejects(platform: string, text: string, parse: NumberParser, i: nat)
    requires FirstMarked(Lines(text), ScoreMarker, i)
    requires ScoreText(Lines(text)[i]).Some? && parse(ScoreText(Lines(text)[i]).value).None?
    ensures Evaluate(platform, Returned(text), parse).overallScore == DefaultScore
    ensures !Evaluate(platform, Returned(text), parse).approved
  {
  }

  /** A reply whose first recommendation line reads REVISE is never approved,
      whatever its score. */
  lemma ReviseIsNeverApproved(platform: string, text: string, parse: NumberParser, i: nat)
    requires FirstMarked(Lines(text), RecommendationMarker, i)
    requires RecommendationOfLine(Lines(text)[i]) == Some("REVISE")
    ensures !Evaluate(platform, Returned(text), parse).approved
  {
  }

  /** A first recommendation line with nothing after its `:` reports APPROVE,
      yet the reply is not approved: approval reads the raw, empty value. */
  lemma EmptyRecommendationReportsApproveButRejects(platform: string, text: string, parse: NumberParser, i: nat)
    requires FirstMarked(Lines(text), RecommendationMarker, i)
    requires RecommendationOfLine(Lines(text)[i]) == Some("")
    ensures Evaluate(platform, Returned(text), parse).recommendation == Approve
    ensures !Evaluate(platform, Returned(text), parse).approved
  {
  }

  /** With a raw APPROVE, approval is exactly "raw score at least 7.5", and an
      approved verdict reports the raw score unchanged. */
  lemma ApprovalThresholdRule(platform: string, text: string, parse: NumberParser)
    requires ExtractRecommendation(text) == Approve
    ensures (Evaluate(platform, Returned(text), parse).approved
             <==> ExtractOverallScore(text, parse) >= ApprovalThreshold)
    ensures Evaluate(platform, Returned(text), parse).approved ==>
              Evaluate(platform, Returned(text), parse).overallScore == ExtractOverallScore(text, parse)
  {
  }

  /** The feedback is the stripped text between the first "FEEDBACK:" (at `i`)
      and the first "RECOMMENDATION:" after it (at `j`), provided no second
      "FEEDBACK:" starts before that "RECOMMENDATION:" ends. */
  lemma FeedbackBetweenMarkers(e: string, i: nat, j: nat)
    requires OccursAt(e, FeedbackMarker, i)
    requires forall k: nat :: k < i ==> !OccursAt(e, FeedbackMarker, k)
    requires i + |FeedbackMarker| <= j && OccursAt(e, RecommendationMarker, j)
    requires forall k: nat :: i + |FeedbackMarker| <= k < j ==> !OccursAt(e, RecommendationMarker, k)
    requires forall k: nat :: i + |FeedbackMarker| <= k < j + |RecommendationMarker| ==> !OccursAt(e, FeedbackMarker, k)
    ensures ExtractFeedback(e) == Strip(e[i + |FeedbackMarker|..j])
  {
    var a := i + |FeedbackMarker|;
    FirstOccurrence(e, FeedbackMarker, i);
    var section := Before(After(e, FeedbackMarker), FeedbackMarker);
    SectionReaches(e, i, j + |RecommendationMarker|);
    var b := a + |section|;
    assert section == e[a..b];
    BeforeInSlice(e, RecommendationMarker, a, b, j);
    FeedbackOfSection(e);
  }

  /** The section after the first "FEEDBACK:" (at `i`) runs at least to `b`
      when no second "FEEDBACK:" starts before `b`. */
  lemma SectionReaches(e: string, i: nat, b: nat)
    requires OccursAt(e, FeedbackMarker, i) && IndexOf(e, FeedbackMarker) == Some(i)
    requires i + |FeedbackMarker| <= b <= |e|
    requires forall k: nat :: i + |FeedbackMarker| <= k < b ==> !OccursAt(e, FeedbackMarker, k)
    ensures var section := Before(After(e, FeedbackMarker), FeedbackMarker);
            && i + |FeedbackMarker| + |section| <= |e|
            && section == e[i + |FeedbackMarker|..i + |FeedbackMarker| + |section|]
            && b <= i + |FeedbackMarker| + |section|
  {
    var a := i + |FeedbackMarker|;
    var after := After(e, FeedbackMarker);
    assert after == e[a..] == e[a..|e|];
    var section := Before(after, FeedbackMarker);
    if |section| < b - a {
      assert Contains(after, FeedbackMarker);
      var m := IndexOf(after, FeedbackMarker).value;
      OccursInSlice(e, FeedbackMarker, a, |e|, m);
      assert false;
    }
    assert section == e[a..a + |section|];
  }

  /** When "FEEDBACK:" occurs, the feedback is the stripped text of the
      section after it, cut before "RECOMMENDATION:". */
  lemma FeedbackOfSection(e: string)
    requires Contains(e, FeedbackMarker)
    ensures ExtractFeedback(e)
            == Strip(Before(Before(After(e, FeedbackMarker), FeedbackMarker), RecommendationMarker))
  {
  }

  /** With no "RECOMMENDATION:" and no second "FEEDBACK:" after the first
      "FEEDBACK:" (at `i`), the feedback is the stripped rest of the text. */
  lemma FeedbackToEnd(e: string, i: nat)
    requires OccursAt(e, FeedbackMarker, i)
    requires forall k: nat :: k < i ==> !OccursAt(e, FeedbackMarker, k)
    requires forall k: nat :: i + |FeedbackMarker| <= k ==>
               !OccursAt(e, RecommendationMarker, k) && !OccursAt(e, FeedbackMarker, k)
    ensures ExtractFeedback(e) == Strip(e[i + |FeedbackMarker|..])
  {
    var a := i + |FeedbackMarker|;
    FirstOccurrence(e, FeedbackMarker, i);
    var after := After(e, FeedbackMarker);
    assert after == e[a..] == e[a..|e|];
    if Contains(after, FeedbackMarker) {
      OccursInSlice(e, FeedbackMarker, a, |e|, IndexOf(after, FeedbackMarker).value);
      assert false;
    }
    if Contains(after, RecommendationMarker) {
      OccursInSlice(e, RecommendationMarker, a, |e|, IndexOf(after, RecommendationMarker).value);
      assert false;
    }
  }

  /** A score line in the documented layout, `OVERALL SCORE: <t>/10`, gives
      `float` exactly `t`, when `t` holds no `:` or `/` and is already stripped. */
  lemma DocumentedScoreLine(t: string)
    requires ':' !in t && '/' !in t && IsStripped(t)
    ensures ScoreText(ScoreMarker + " " + t + "/10") == Some(t)
  {
    ScoreLineFields(t);
    ScoreFieldText(t);
  }

  lemma ScoreLineFields(t: string)
    requires ':' !in t
    ensures Split(ScoreMarker + " " + t + "/10", ':') == ["OVERALL SCORE", " " + (t + "/10")]
  {
    var head, tail := "OVERALL SCORE", "/10";
    assert ':' !in head && ':' !in tail;
    var field := " " + (t + tail);
    assert ':' !in field;
    TwoFields(head, ':', field);
    assert ScoreMarker == head + [':'];
    RegroupRight(head + [':'], " ", t, tail);
  }

  lemma ScoreFieldText(t: string)
    requires '/' !in t && IsStripped(t)
    ensures Split(Strip(" " + (t + "/10")), '/')[0] == t
  {
    var tail := "10";
    assert '/' !in tail;
    var rest := t + ['/'] + tail;
    TwoFields(t, '/', tail);
    assert t + "/10" == rest;
    assert IsStripped(rest) by {
      assert rest[|rest| - 1] == '0';
      assert rest[0] == if t == [] then '/' else t[0];
    }
    StripPadded(rest);
  }

  /** A recommendation line in the documented layout, `RECOMMENDATION: <r>`,
      gives `r` upper-cased, when `r` holds no `:` and is already stripped. */
  lemma DocumentedRecommendationLine(r: string)
    requires ':' !in r && IsStripped(r)
    ensures RecommendationOfLine(RecommendationMarker + " " + r) == Some(Upper(r))
  {
    var field := " " + r;
    assert RecommendationMarker + " " + r == "RECOMMENDATION" + [':'] + field;
    TwoFields("RECOMMENDATION", ':', field);
    StripPadded(r);
  }

  /** For a reply whose first score line and first recommendation line follow
      the documented layout, approval is exactly: the recommendation reads
      APPROVE (in any letter case) and `float` reads a score of at least 7.5.
      So 7.5 is approved, 7.49 is not, and REVISE never is. */
  lemma DocumentedReplyApproval(platform: string, text: string, parse: NumberParser,
                                i: nat, t: string, j: nat, r: string)
    requires ':' !in t && '/' !in t && IsStripped(t)
    requires ':' !in r && IsStripped(r)
    requires FirstMarked(Lines(text), ScoreMarker, i) && Lines(text)[i] == ScoreMarker + " " + t + "/10"
    requires FirstMarked(Lines(text), RecommendationMarker, j) && Lines(text)[j] == RecommendationMarker + " " + r
    ensures (Evaluate(platform, Returned(text), parse).approved
             <==> Upper(r) == Approve && parse(t).Some? && parse(t).value >= ApprovalThreshold)
  {
    DocumentedScoreLine(t);
    DocumentedRecommendationLine(r);
  }
}
