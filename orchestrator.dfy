/** The content pipeline: research, strategy, content for four channels, then
    a quality gate that sends the channels it rejects back for regeneration at
    most twice, and finally the best-scoring attempt of each channel. The
    research provider, the strategy writer, the channel writers and the
    evaluator's generation call are oracles gathered in `Services`. */
module Orchestrator {
  import opened Wrappers
  import opened Quality
  import opened Research

  datatype Channel = Twitter | LinkedIn | Instagram | Newsletter

  /** The platform name the evaluator is given for a channel. */
  function PlatformName(c: Channel): (name: string)
    ensures |name| > 0
  {
    match c
    case Twitter => "Twitter"
    case LinkedIn => "LinkedIn"
    case Instagram => "Instagram"
    case Newsletter => "Newsletter"
  }

  /** Each channel is evaluated under a name of its own. */
  lemma PlatformNamesDistinct(c: Channel, d: Channel)
    requires PlatformName(c) == PlatformName(d)
    ensures c == d
  {
  }

  /** One entry of a channel's attempts list: `{"content": ..., "score": ...}`. */
  datatype Attempt = Attempt(content: string, score: real)

  /** The arguments of a channel writer's `generate`. */
  datatype GenerationRequest = GenerationRequest(
    researchReport: string,
    strategy: string,
    brandInfo: string,
    topic: string,
    brandTone: string,
    feedback: string)

  /** The arguments of the evaluator's generation call. */
  datatype EvaluationRequest = EvaluationRequest(
    platform: string,
    content: string,
    strategy: string,
    brandTone: string)

  /** The arguments of `create_strategy`. */
  datatype StrategyRequest = StrategyRequest(
    researchReport: string,
    brandInfo: string,
    topic: string,
    targetAudience: string,
    brandTone: string)

  /** A channel writer: the content it produces for a request on a given pass
      (the pass number lets the same request be answered differently later). */
  type Generator = (Channel, GenerationRequest, nat) -> string
  /** The evaluator's generation call on a given quality-check pass. */
  type EvaluationCall = (EvaluationRequest, nat) -> EvalResponse
  /** The quality agent's `evaluate` on a given quality-check pass. */
  type QualityAgent = (EvaluationRequest, nat) -> Verdict
  /** The strategy writer: `None` when it fails and returns no strategy. */
  type Strategist = StrategyRequest -> Option<string>

  datatype Services = Services(
    search: SearchProvider,
    synthesize: Synthesizer,
    strategize: Strategist,
    generate: Generator,
    review: QualityAgent)

  /** The quality agent of the pipeline: its generation call, then the verdict
      `Evaluate` reads out of the reply (or builds for the error). */
  function QualityAgentOf(call: EvaluationCall, parse: NumberParser): QualityAgent
  {
    (request: EvaluationRequest, pass: nat) => Evaluate(request.platform, call(request, pass), parse)
  }

  /** Every verdict of the pipeline's quality agent names the platform it was
      asked about and reports a positive score, and an approved one reports
      APPROVE and a score of at least 7.5; so every attempt it scores carries
      a positive score. */
  lemma QualityAgentVerdicts(call: EvaluationCall, parse: NumberParser, request: EvaluationRequest, pass: nat)
    ensures var v := QualityAgentOf(call, parse)(request, pass);
            && v.platform == request.platform && v.overallScore > 0.0
            && (v.approved ==> v.recommendation == Approve && v.overallScore >= ApprovalThreshold)
            && v == Evaluate(request.platform, call(request, pass), parse)
  {
    var v := Evaluate(request.platform, call(request, pass), parse);
    assert QualityAgentOf(call, parse)(request, pass) == v;
  }

  /** The two labels `_should_retry` returns. */
  datatype Route = End | Retry

  /** Regenerations allowed after the first quality check. */
  const MaxRetries: nat := 2

  /** `quality.get("approved", False)`; `None` is the empty dictionary the
      state starts with. */
  function Approved(q: Option<Verdict>): (approved: bool)
    ensures q.None? ==> !approved
    ensures q.Some? ==> (approved <==> q.value.approved)
  {
    q.Some? && q.value.approved
  }

  /** `quality.get("feedback", "")`. */
  function FeedbackOf(q: Option<Verdict>): (feedback: string)
    ensures q.None? ==> feedback == ""
    ensures q.Some? ==> feedback == q.value.feedback
  {
    if q.Some? then q.value.feedback else ""
  }

  /** One value per channel: the `twitter_*`, `linkedin_*`, `instagram_*` and
      `newsletter_*` keys of one kind in the state record. */
  datatype PerChannel<T> = PerChannel(twitter: T, linkedIn: T, instagram: T, newsletter: T) {

    function Get(c: Channel): T
    {
      match c
      case Twitter => twitter
      case LinkedIn => linkedIn
      case Instagram => instagram
      case Newsletter => newsletter
    }

    /** The record with channel `c`'s value replaced and the others kept. */
    function Set(c: Channel, v: T): (r: PerChannel<T>)
      ensures r.Get(c) == v
      ensures forall d: Channel :: d != c ==> r.Get(d) == Get(d)
    {
      match c
      case Twitter => this.(twitter := v)
      case LinkedIn => this.(linkedIn := v)
      case Instagram => this.(instagram := v)
      case Newsletter => this.(newsletter := v)
    }
  }

  /** Every channel is approved exactly when each of the four is. */
  lemma EveryChannelApproved(quality: PerChannel<Option<Verdict>>)
    ensures (forall c: Channel :: Approved(quality.Get(c)))
            <==> Approved(quality.twitter) && Approved(quality.linkedIn)
                 && Approved(quality.instagram) && Approved(quality.newsletter)
  {
    assert quality.Get(Twitter) == quality.twitter && quality.Get(LinkedIn) == quality.linkedIn;
    assert quality.Get(Instagram) == quality.instagram && quality.Get(Newsletter) == quality.newsletter;
    if Approved(quality.twitter) && Approved(quality.linkedIn)
       && Approved(quality.instagram) && Approved(quality.newsletter) {
      forall c: Channel
        ensures Approved(quality.Get(c))
      {
        match c {
          case Twitter =>
          case LinkedIn =>
          case Instagram =>
          case Newsletter =>
        }
      }
    }
  }

  /** The same value for every channel. */
  function Same<T>(v: T): (r: PerChannel<T>)
    ensures forall c: Channel :: r.Get(c) == v
  {
    PerChannel(v, v, v, v)
  }

  // ---------------------------------------------------------------------------
  // Choosing the best attempt
  // ---------------------------------------------------------------------------

  /** Entry `k` has the highest score and every earlier entry scores less:
      the entry Python's `max` picks, since it keeps the first of equal keys. */
  predicate IsStableMax(attempts: seq<Attempt>, k: nat)
  {
    && k < |attempts|
    && (forall j :: 0 <= j < |attempts| ==> attempts[j].score <= attempts[k].score)
    && (forall j :: 0 <= j < k ==> attempts[j].score < attempts[k].score)
  }

  /** At most one entry is the stable maximum. */
  lemma StableMaxUnique(attempts: seq<Attempt>, k1: nat, k2: nat)
    requires IsStableMax(attempts, k1) && IsStableMax(attempts, k2)
    ensures k1 == k2
  {
    assert attempts[k1].score <= attempts[k2].score;
    assert attempts[k2].score <= attempts[k1].score;
  }

  /** `max(attempts, key=score)` as Python computes it: a left-to-right scan
      that replaces the current best only on a strictly higher score. */
  function BestIndex(attempts: seq<Attempt>): (k: nat)
    requires |attempts| > 0
    ensures IsStableMax(attempts, k)
    decreases |attempts|
  {
    if |attempts| == 1 then 0
    else
      var k := BestIndex(attempts[..|attempts| - 1]);
      if attempts[|attempts| - 1].score > attempts[k].score then |attempts| - 1 else k
  }

  /** `choose_best`: "" for no attempts, otherwise the content of the first
      attempt with the highest score. */
  function ChooseBest(attempts: seq<Attempt>): (best: string)
    ensures |attempts| == 0 ==> best == ""
    ensures |attempts| > 0 ==> exists k: nat :: IsStableMax(attempts, k) && best == attempts[k].content
    ensures forall k: nat :: IsStableMax(attempts, k) ==> best == attempts[k].content
  {
    if |attempts| == 0 then ""
    else
      var k := BestIndex(attempts);
      assert forall j: nat :: IsStableMax(attempts, j) ==> j == k by {
        forall j: nat | IsStableMax(attempts, j)
          ensures j == k
        {
          StableMaxUnique(attempts, j, k);
        }
      }
      attempts[k].content
  }

  // ---------------------------------------------------------------------------
  // The pipeline state
  // ---------------------------------------------------------------------------

  /** The state record that flows through the graph. `verdicts` is the
      history of every verdict each channel received, one per quality-check
      pass (kept for the proofs). */
  class PipelineState {
    const brandInfo: string
    const industry: string
    const targetAudience: string
    const topic: string
    const brandTone: string

    var researchReport: string
    var researchSources: nat
    var strategy: string
    var content: PerChannel<string>
    var quality: PerChannel<Option<Verdict>>
    var attempts: PerChannel<seq<Attempt>>
    var allApproved: bool
    var retryCount: nat

    ghost var verdicts: PerChannel<seq<Verdict>>

    /** The initial state of `run`: the inputs, empty texts, no verdicts, no
        attempts, not approved, no retries. */
    constructor (brandInfo: string, industry: string, targetAudience: string, topic: string, brandTone: string)
      ensures this.brandInfo == brandInfo && this.industry == industry
      ensures this.targetAudience == targetAudience && this.topic == topic
      ensures this.brandTone == brandTone
      ensures researchReport == "" && researchSources == 0 && strategy == ""
      ensures forall c: Channel :: content.Get(c) == "" && quality.Get(c) == None && attempts.Get(c) == []
      ensures forall c: Channel :: verdicts.Get(c) == []
      ensures !allApproved && retryCount == 0
    {
      this.brandInfo := brandInfo;
      this.industry := industry;
      this.targetAudience := targetAudience;
      this.topic := topic;
      this.brandTone := brandTone;
      researchReport := "";
      researchSources := 0;
      strategy := "";
      content := Same("");
      quality := Same(None);
      attempts := Same([]);
      allApproved := false;
      retryCount := 0;
      verdicts := Same([]);
    }

    /** What a channel writer is asked for, with the given feedback. */
    function RequestWith(feedback: string): GenerationRequest
      reads this`researchReport, this`strategy
    {
      GenerationRequest(researchReport, strategy, brandInfo, topic, brandTone, feedback)
    }

    /** The verdict the quality agent gives channel `c`'s current content on
        this pass. */
    function VerdictFor(c: Channel, services: Services): Verdict
      reads this`content, this`strategy, this`retryCount
    {
      var platform := PlatformName(c);
      services.review(EvaluationRequest(platform, content.Get(c), strategy, brandTone), retryCount)
    }

    /** `_research_node`: stores the report and the source count; `false` when
        the synthesis call raised (the run stops there). */
    method ResearchNode(services: Services) returns (ok: bool)
      modifies `researchReport, `researchSources
      ensures var r := Researched(topic, brandInfo, targetAudience, services.search, services.synthesize);
              && ok == r.Some?
              && (ok ==> researchReport == r.value.researchReport && researchSources == r.value.totalSources)
              && (!ok ==> researchReport == old(researchReport) && researchSources == old(researchSources))
    {
      var result := ConductResearch(topic, brandInfo, targetAudience, industry, services.search, services.synthesize);
      if result.None? {
        return false;
      }
      researchReport := result.value.researchReport;
      researchSources := result.value.totalSources;
      ok := true;
    }

    /** `_strategy_node`: stores the strategy; `false` when the strategy
        writer failed (the run stops there). */
    method StrategyNode(services: Services) returns (ok: bool)
      modifies `strategy
      ensures var r := services.strategize(StrategyRequest(researchReport, brandInfo, topic, targetAudience, brandTone));
              && ok == r.Some?
              && (ok ==> strategy == r.value)
              && (!ok ==> strategy == old(strategy))
    {
      var result := services.strategize(StrategyRequest(researchReport, brandInfo, topic, targetAudience, brandTone));
      if result.None? {
        return false;
      }
      strategy := result.value;
      ok := true;
    }

    /** `_generate_content_node`: every channel is written with empty feedback. */
    method GenerateNode(services: Services)
      modifies `content
      ensures forall c: Channel :: content.Get(c) == services.generate(c, RequestWith(""), retryCount)
    {
      content := PerChannel(
        services.generate(Twitter, RequestWith(""), retryCount),
        services.generate(LinkedIn, RequestWith(""), retryCount),
        services.generate(Instagram, RequestWith(""), retryCount),
        services.generate(Newsletter, RequestWith(""), retryCount));
    }

    /** `_quality_check_node`: each channel gets a fresh verdict and exactly one
        new attempt holding its current content and reported score; the run is
        approved when every channel is. */
    method QualityCheckNode(services: Services)
      modifies `quality, `attempts, `verdicts, `allApproved
      ensures forall c: Channel :: quality.Get(c) == Some(VerdictFor(c, services))
      ensures forall c: Channel ::
                attempts.Get(c) == old(attempts.Get(c)) + [Attempt(content.Get(c), VerdictFor(c, services).overallScore)]
      ensures forall c: Channel :: verdicts.Get(c) == old(verdicts.Get(c)) + [VerdictFor(c, services)]
      ensures allApproved <==> forall c: Channel :: Approved(quality.Get(c))
    {
      var twitter := VerdictFor(Twitter, services);
      var linkedIn := VerdictFor(LinkedIn, services);
      var instagram := VerdictFor(Instagram, services);
      var newsletter := VerdictFor(Newsletter, services);
      quality := PerChannel(Some(twitter), Some(linkedIn), Some(instagram), Some(newsletter));
      attempts := PerChannel(
        attempts.twitter + [Attempt(content.twitter, twitter.overallScore)],
        attempts.linkedIn + [Attempt(content.linkedIn, linkedIn.overallScore)],
        attempts.instagram + [Attempt(content.instagram, instagram.overallScore)],
        attempts.newsletter + [Attempt(content.newsletter, newsletter.overallScore)]);
      verdicts := PerChannel(
        verdicts.twitter + [twitter],
        verdicts.linkedIn + [linkedIn],
        verdicts.instagram + [instagram],
        verdicts.newsletter + [newsletter]);
      allApproved := Approved(quality.twitter) && Approved(quality.linkedIn)
                     && Approved(quality.instagram) && Approved(quality.newsletter);
      EveryChannelApproved(quality);
      forall c: Channel
        ensures quality.Get(c) == Some(VerdictFor(c, services))
        ensures attempts.Get(c) == old(attempts.Get(c)) + [Attempt(content.Get(c), VerdictFor(c, services).overallScore)]
        ensures verdicts.Get(c) == old(verdicts.Get(c)) + [VerdictFor(c, services)]
      {
        match c {
          case Twitter =>
          case LinkedIn =>
          case Instagram =>
          case Newsletter =>
        }
      }
    }

    /** One channel's block of `_regenerate_content_node`. */
    method RegenerateChannel(c: Channel, services: Services)
      modifies `content
      ensures content == old(content).Set(c,
                if Approved(quality.Get(c)) then old(content.Get(c))
                else services.generate(c, RequestWith(FeedbackOf(quality.Get(c))), retryCount))
    {
      if !Approved(quality.Get(c)) {
        var feedback := FeedbackOf(quality.Get(c));
        content := content.Set(c, services.generate(c, RequestWith(feedback), retryCount));
      }
    }

    /** `_regenerate_content_node`: one more retry; a channel whose latest
        verdict approved it keeps its content, every other channel is rewritten
        with that verdict's feedback. */
    method RegenerateNode(services: Services)
      modifies `retryCount, `content
      ensures retryCount == old(retryCount) + 1
      ensures forall c: Channel :: Approved(quality.Get(c)) ==> content.Get(c) == old(content.Get(c))
      ensures forall c: Channel :: !Approved(quality.Get(c)) ==>
                content.Get(c) == services.generate(c, RequestWith(FeedbackOf(quality.Get(c))), retryCount)
    {
      retryCount := retryCount + 1;
      RegenerateChannel(Twitter, services);
      RegenerateChannel(LinkedIn, services);
      RegenerateChannel(Instagram, services);
      RegenerateChannel(Newsletter, services);
    }

    /** `_should_retry`: stop once everything is approved or two retries have
        been spent, otherwise retry. */
    function ShouldRetry(): (route: Route)
      reads this`allApproved, this`retryCount
      ensures route == End <==> allApproved || retryCount >= MaxRetries
    {
      if allApproved then End
      else if retryCount >= MaxRetries then End
      else Retry
    }

    /** The end of `run`: each channel's content becomes its best attempt; the
        verdicts are left as they are. */
    method SelectBest()
      modifies `content
      ensures forall c: Channel :: content.Get(c) == ChooseBest(attempts.Get(c))
    {
      content := PerChannel(
        ChooseBest(attempts.twitter),
        ChooseBest(attempts.linkedIn),
        ChooseBest(attempts.instagram),
        ChooseBest(attempts.newsletter));
    }

    /** What holds from the first quality check on: the state is the
        `History` of the passes so far, with `all_approved` telling whether the
        latest pass approved every channel. */
    ghost predicate Consistent(services: Services)
      reads this`retryCount, this`attempts, this`verdicts, this`allApproved, this`quality
      reads this`researchReport, this`strategy
    {
      History(attempts, verdicts, quality, allApproved, retryCount, services, RequestWith(""))
    }

    /** Each channel's latest attempt holds its current content. */
    ghost predicate LatestIsCurrent()
      reads this`attempts, this`content
    {
      forall c: Channel :: |attempts.Get(c)| > 0 && attempts.Get(c)[|attempts.Get(c)| - 1].content == content.Get(c)
    }

    /** The fixed start of the graph after research and strategy: generate
        every channel, then the first quality check. */
    method FirstPass(services: Services)
      requires retryCount == 0
      requires forall c: Channel :: attempts.Get(c) == [] && verdicts.Get(c) == []
      modifies `content, `quality, `attempts, `verdicts, `allApproved
      ensures Consistent(services) && LatestIsCurrent()
    {
      GenerateNode(services);
      QualityCheckNode(services);
      forall c: Channel
        ensures ChannelHistory(c, attempts.Get(c), verdicts.Get(c), quality.Get(c), 0, services, RequestWith(""))
      {
        assert attempts.Get(c) == [Attempt(content.Get(c), VerdictFor(c, services).overallScore)];
        assert verdicts.Get(c) == [VerdictFor(c, services)];
        ChannelStarted(c, content.Get(c), VerdictFor(c, services), services, RequestWith(""));
      }
    }

    /** The retry edge: regenerate the rejected channels, then check again. */
    method RetryPass(services: Services)
      requires Consistent(services) && LatestIsCurrent() && ShouldRetry() == Retry
      modifies `retryCount, `content, `quality, `attempts, `verdicts, `allApproved
      ensures Consistent(services) && LatestIsCurrent()
      ensures retryCount == old(retryCount) + 1
    {
      ghost var attempts0, verdicts0, quality0, content0 := attempts, verdicts, quality, content;
      Redraft(services);
      ghost var drafts := content;
      QualityCheckNode(services);
      PassRecorded(services, attempts0, verdicts0, quality0, content0, drafts);
    }

    /** A quality check after a redraft of every channel extends the history
        of a pass that did not approve every channel by one pass. */
    lemma PassRecorded(services: Services, attempts0: PerChannel<seq<Attempt>>, verdicts0: PerChannel<seq<Verdict>>,
                       quality0: PerChannel<Option<Verdict>>, content0: PerChannel<string>, drafts: PerChannel<string>)
      requires retryCount > 0
      requires History(attempts0, verdicts0, quality0, false, retryCount - 1, services, RequestWith(""))
      requires retryCount <= MaxRetries
      requires forall c: Channel :: attempts0.Get(c)[retryCount - 1].content == content0.Get(c)
      requires forall c: Channel :: drafts.Get(c)
                 == Redrafted(services, RequestWith(""), c, verdicts0.Get(c)[retryCount - 1], content0.Get(c), retryCount)
      requires forall c: Channel ::
                 attempts.Get(c) == attempts0.Get(c) + [Attempt(drafts.Get(c), VerdictFor(c, services).overallScore)]
      requires forall c: Channel :: verdicts.Get(c) == verdicts0.Get(c) + [VerdictFor(c, services)]
      requires forall c: Channel :: quality.Get(c) == Some(VerdictFor(c, services))
      requires allApproved <==> forall c: Channel :: Approved(quality.Get(c))
      requires forall c: Channel :: content.Get(c) == drafts.Get(c)
      ensures Consistent(services)
    {
      var n, request := retryCount - 1, RequestWith("");
      forall c: Channel
        ensures ChannelHistory(c, attempts.Get(c), verdicts.Get(c), quality.Get(c), n + 1, services, request)
        ensures verdicts0.Get(c) < verdicts.Get(c)
      {
        ChannelExtended(c, attempts0.Get(c), verdicts0.Get(c), quality0.Get(c), n, services, request,
                        drafts.Get(c), VerdictFor(c, services));
      }
      RejectedExtended(verdicts0, verdicts, n);
    }

    /** `_regenerate_content_node` seen from the history: each channel's
        content becomes its previous content redrafted after its latest
        verdict. */
    method Redraft(services: Services)
      requires Consistent(services)
      modifies `retryCount, `content
      ensures retryCount == old(retryCount) + 1
      ensures forall c: Channel :: content.Get(c)
                == Redrafted(services, RequestWith(""), c, verdicts.Get(c)[old(retryCount)], old(content.Get(c)), retryCount)
    {
      ghost var n := retryCount;
      RegenerateNode(services);
      forall c: Channel
        ensures content.Get(c)
                == Redrafted(services, RequestWith(""), c, verdicts.Get(c)[n], old(content.Get(c)), retryCount)
      {
        assert quality.Get(c) == Some(verdicts.Get(c)[n]);
        assert RequestWith("").(feedback := verdicts.Get(c)[n].feedback) == RequestWith(verdicts.Get(c)[n].feedback);
      }
    }

    /** The graph after strategy: generate, check, and regenerate and check
        again while `_should_retry` says so; then, as `run` does once the graph
        is done, each channel's content becomes its best attempt. */
    method ContentLoop(services: Services)
      requires retryCount == 0
      requires forall c: Channel :: attempts.Get(c) == [] && verdicts.Get(c) == []
      modifies `retryCount, `content, `quality, `attempts, `verdicts, `allApproved
      ensures Consistent(services)
      ensures allApproved || retryCount == MaxRetries
      ensures forall c: Channel :: content.Get(c) == ChooseBest(attempts.Get(c))
    {
      FirstPass(services);
      RetryLoop(services);
      SelectBest();
    }

    /** The conditional edge out of the quality check, taken until
        `_should_retry` says to end. */
    method RetryLoop(services: Services)
      requires Consistent(services) && LatestIsCurrent()
      modifies `retryCount, `content, `quality, `attempts, `verdicts, `allApproved
      ensures Consistent(services)
      ensures allApproved || retryCount == MaxRetries
    {
      while ShouldRetry() == Retry
        invariant Consistent(services) && LatestIsCurrent()
        decreases MaxRetries - retryCount
      {
        RetryPass(services);
      }
    }
  }

  /** In quality-check pass `pass` every channel was approved. */
  predicate ApprovedAt(verdicts: PerChannel<seq<Verdict>>, pass: nat)
  {
    forall c: Channel :: pass < |verdicts.Get(c)| && verdicts.Get(c)[pass].approved
  }

  /** Extending every channel's history leaves the outcome of past passes as
      it was. */
  lemma ApprovalsKept(before: PerChannel<seq<Verdict>>, after: PerChannel<seq<Verdict>>, pass: nat)
    requires forall c: Channel :: before.Get(c) <= after.Get(c)
    requires forall c: Channel :: pass < |before.Get(c)|
    ensures ApprovedAt(after, pass) == ApprovedAt(before, pass)
  {
    forall c: Channel
      ensures after.Get(c)[pass] == before.Get(c)[pass]
    {
    }
  }

  /** The content a channel has after regeneration pass `pass` that followed
      `verdict`: unchanged when approved, otherwise rewritten for `request`
      with that verdict's feedback. */
  function Redrafted(services: Services, request: GenerationRequest, c: Channel, verdict: Verdict,
                     previous: string, pass: nat): string
  {
    if verdict.approved then previous
    else services.generate(c, request.(feedback := verdict.feedback), pass)
  }

  /** One channel's history after pass `n`: one attempt and one verdict per
      pass, each verdict the quality agent's on that pass's draft, each
      attempt scored by its pass's verdict, the latest verdict the stored one,
      the first draft written for `request` without feedback, and each later
      draft the previous one redrafted after the previous verdict. */
  ghost predicate ChannelHistory(c: Channel, attempts: seq<Attempt>, verdicts: seq<Verdict>, latest: Option<Verdict>,
                                 n: nat, services: Services, request: GenerationRequest)
  {
    && |attempts| == n + 1 && |verdicts| == n + 1
    && latest == Some(verdicts[n])
    && attempts[0].content == services.generate(c, request.(feedback := ""), 0)
    && (forall i :: 0 <= i <= n ==> attempts[i].score == verdicts[i].overallScore)
    && (forall i :: 0 <= i <= n ==> verdicts[i] == Reviewed(services, request, c, attempts[i].content, i))
    && (forall i :: 0 <= i < n ==>
          attempts[i + 1].content == Redrafted(services, request, c, verdicts[i], attempts[i].content, i + 1))
  }

  /** The quality agent's verdict on draft `draft` of channel `c` on pass
      `pass`, judged against the strategy and tone of `request`. */
  function Reviewed(services: Services, request: GenerationRequest, c: Channel, draft: string, pass: nat): Verdict
  {
    services.review(EvaluationRequest(PlatformName(c), draft, request.strategy, request.brandTone), pass)
  }

  /** The first quality check starts every channel's history. */
  lemma ChannelStarted(c: Channel, draft: string, verdict: Verdict, services: Services, request: GenerationRequest)
    requires draft == services.generate(c, request.(feedback := ""), 0)
    requires verdict == Reviewed(services, request, c, draft, 0)
    ensures ChannelHistory(c, [Attempt(draft, verdict.overallScore)], [verdict], Some(verdict), 0, services, request)
  {
  }

  /** A new pass whose draft is the previous content redrafted after the
      previous verdict, scored by the new verdict, extends the history. */
  lemma {:induction false} ChannelExtended(c: Channel, attempts: seq<Attempt>, verdicts: seq<Verdict>,
                                           latest: Option<Verdict>, n: nat, services: Services,
                                           request: GenerationRequest, draft: string, verdict: Verdict)
    requires ChannelHistory(c, attempts, verdicts, latest, n, services, request)
    requires draft == Redrafted(services, request, c, verdicts[n], attempts[n].content, n + 1)
    requires verdict == Reviewed(services, request, c, draft, n + 1)
    ensures ChannelHistory(c, attempts + [Attempt(draft, verdict.overallScore)], verdicts + [verdict],
                           Some(verdict), n + 1, services, request)
  {
    var attempts', verdicts' := attempts + [Attempt(draft, verdict.overallScore)], verdicts + [verdict];
    forall i | 0 <= i <= n + 1
      ensures attempts'[i].score == verdicts'[i].overallScore
      ensures verdicts'[i] == Reviewed(services, request, c, attempts'[i].content, i)
    {
      if i <= n {
        assert attempts'[i] == attempts[i] && verdicts'[i] == verdicts[i];
      } else {
        assert attempts'[i] == Attempt(draft, verdict.overallScore) && verdicts'[i] == verdict;
      }
    }
    forall i | 0 <= i < n + 1
      ensures attempts'[i + 1].content == Redrafted(services, request, c, verdicts'[i], attempts'[i].content, i + 1)
    {
      assert attempts'[i] == attempts[i] && verdicts'[i] == verdicts[i];
      if i < n {
        assert attempts'[i + 1] == attempts[i + 1];
      }
    }
  }

  /** No pass before pass `n` approved every channel. */
  ghost predicate Rejected(verdicts: PerChannel<seq<Verdict>>, n: nat)
  {
    forall pass: nat :: pass < n ==> !ApprovedAt(verdicts, pass)
  }

  /** The state of the quality loop after pass `n`: at most two retries, the
      history of every channel, no earlier pass that approved every channel,
      and `approved` telling whether the latest pass did. */
  ghost predicate History(attempts: PerChannel<seq<Attempt>>, verdicts: PerChannel<seq<Verdict>>,
                          quality: PerChannel<Option<Verdict>>, approved: bool, n: nat,
                          services: Services, request: GenerationRequest)
  {
    && n <= MaxRetries
    && (forall c: Channel ::
          ChannelHistory(c, attempts.Get(c), verdicts.Get(c), quality.Get(c), n, services, request))
    && Rejected(verdicts, n)
    && (approved <==> ApprovedAt(verdicts, n))
  }

  /** After pass `n` there were `n + 1` quality checks, at most three: every
      channel has one attempt and one verdict per check, and its stored
      verdict is the latest. */
  lemma HistoryLengths(attempts: PerChannel<seq<Attempt>>, verdicts: PerChannel<seq<Verdict>>,
                       quality: PerChannel<Option<Verdict>>, approved: bool, n: nat,
                       services: Services, request: GenerationRequest)
    requires History(attempts, verdicts, quality, approved, n, services, request)
    ensures n <= MaxRetries
    ensures forall c: Channel :: |attempts.Get(c)| == n + 1 && |verdicts.Get(c)| == n + 1
    ensures forall c: Channel :: quality.Get(c) == Some(verdicts.Get(c)[n])
  {
  }

  /** With the pipeline's quality agent, every recorded attempt carries a
      positive score, and when the latest pass approved every channel, every
      channel's latest attempt scored at least 7.5. */
  lemma {:induction false} AgentScores(attempts: PerChannel<seq<Attempt>>, verdicts: PerChannel<seq<Verdict>>,
                                       quality: PerChannel<Option<Verdict>>, approved: bool, n: nat,
                                       services: Services, request: GenerationRequest,
                                       call: EvaluationCall, parse: NumberParser)
    requires History(attempts, verdicts, quality, approved, n, services, request)
    requires services.review == QualityAgentOf(call, parse)
    ensures forall c: Channel, i :: 0 <= i < |attempts.Get(c)| ==> attempts.Get(c)[i].score > 0.0
    ensures approved ==> forall c: Channel :: attempts.Get(c)[n].score >= ApprovalThreshold
  {
    forall c: Channel, i | 0 <= i < |attempts.Get(c)|
      ensures attempts.Get(c)[i].score > 0.0
    {
      var draft := attempts.Get(c)[i].content;
      QualityAgentVerdicts(call, parse, EvaluationRequest(PlatformName(c), draft, request.strategy, request.brandTone), i);
    }
    if approved {
      forall c: Channel
        ensures attempts.Get(c)[n].score >= ApprovalThreshold
      {
        var draft := attempts.Get(c)[n].content;
        QualityAgentVerdicts(call, parse, EvaluationRequest(PlatformName(c), draft, request.strategy, request.brandTone), n);
      }
    }
  }

  /** A pass that follows a pass not approving every channel extends the
      run of rejected passes. */
  lemma {:induction false} RejectedExtended(verdicts0: PerChannel<seq<Verdict>>, verdicts: PerChannel<seq<Verdict>>, n: nat)
    requires Rejected(verdicts0, n) && !ApprovedAt(verdicts0, n)
    requires forall c: Channel :: verdicts0.Get(c) < verdicts.Get(c) && |verdicts0.Get(c)| == n + 1
    ensures Rejected(verdicts, n + 1)
  {
    forall pass: nat | pass < n + 1
      ensures !ApprovedAt(verdicts, pass)
    {
      ApprovalsKept(verdicts0, verdicts, pass);
    }
  }

  /** Where a run stopped early. */
  datatype Stage = ResearchStage | StrategyStage

  datatype Status = Finished | Aborted(stage: Stage)

  /** `run`: the initial state, then research, strategy, generation and the
      quality check, then regeneration and a new quality check for as long as
      `_should_retry` says so, then the best attempt of every channel. */
  method Run(brandInfo: string, industry: string, targetAudience: string, topic: string, brandTone: string,
             services: Services)
    returns (s: PipelineState, status: Status)
    ensures fresh(s)
    ensures s.brandInfo == brandInfo && s.topic == topic && s.targetAudience == targetAudience
    ensures s.brandTone == brandTone && s.industry == industry
    ensures var research := Researched(topic, brandInfo, targetAudience, services.search, services.synthesize);
            && (status == Aborted(ResearchStage) <==> research.None?)
            && (research.Some? ==> s.researchReport == research.value.researchReport
                                   && s.researchSources == research.value.totalSources)
    // a run that stops early generated and checked nothing
    ensures status != Finished ==>
              s.retryCount == 0 && !s.allApproved
              && forall c: Channel :: s.attempts.Get(c) == [] && s.content.Get(c) == "" && s.quality.Get(c) == None
    ensures status == Aborted(StrategyStage) <==>
              status != Aborted(ResearchStage)
              && services.strategize(StrategyRequest(s.researchReport, brandInfo, topic, targetAudience, brandTone)).None?
    ensures status == Finished ==>
              s.strategy == services.strategize(StrategyRequest(s.researchReport, brandInfo, topic, targetAudience, brandTone)).value
    // the quality loop's history; it stopped because everything was approved
    // or because both retries were spent
    ensures status == Finished ==> s.Consistent(services)
    ensures status == Finished ==> s.allApproved || s.retryCount == MaxRetries
    // one attempt per quality check, at most three checks
    ensures status == Finished ==>
              s.retryCount <= MaxRetries && forall c: Channel :: |s.attempts.Get(c)| == s.retryCount + 1
    // the final content is the best attempt
    ensures status == Finished ==> forall c: Channel :: s.content.Get(c) == ChooseBest(s.attempts.Get(c))
  {
    s := new PipelineState(brandInfo, industry, targetAudience, topic, brandTone);
    var ok := s.ResearchNode(services);
    if !ok {
      return s, Aborted(ResearchStage);
    }
    ok := s.StrategyNode(services);
    if !ok {
      return s, Aborted(StrategyStage);
    }
    s.ContentLoop(services);
    HistoryLengths(s.attempts, s.verdicts, s.quality, s.allApproved, s.retryCount, services, s.RequestWith(""));
    status := Finished;
  }
}
