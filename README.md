# AI Content Repurposer: the quality-gated content pipeline in Dafny

This project models the core of the AI Content Repurposer. That core is a pipeline that takes a brand, an audience, a topic and a tone, and produces content for four channels: Twitter, LinkedIn, Instagram and a newsletter. It runs these steps:

- **research**: six templated web searches, formatted and synthesised into a report;
- **strategy**: a content strategy written from the report;
- **generation**: one draft per channel;
- **quality gate**: an evaluator scores each draft and recommends APPROVE or REVISE.

Every quality check records one `{content, score}` attempt per channel. While some channel is rejected and fewer than two retries have been spent, the rejected channels (and only those) are rewritten with the evaluator's feedback, and then every channel is checked again. At the end each channel's content becomes its best-scoring attempt, the first one on ties.

The project has five modules, one file each:

- `Wrappers` (`wrappers.dfy`): `Option`, for `None`, missing dictionary keys and calls that raise.
- `Text` (`text.dfy`): the Python `str` operations the core relies on: `split`, `join`, `in`, `strip`, `upper`, slicing and `str(n)`.
- `Quality` (`quality.dfy`): the evaluator's reply parser and approval rule, as pure functions.
- `Research` (`research.dfy`): query construction, result gathering (a loop) and result formatting (a loop).
- `Orchestrator` (`orchestrator.dfy`): the state record as the class `PipelineState`. The graph nodes are its methods and the graph's edges are a loop.

Every call into a language model or search client is an oracle. Each is a function-typed field of `Orchestrator.Services` or a parameter:

- the search provider;
- the research synthesis;
- the strategy writer;
- the channel writers;
- the quality agent.

`Orchestrator.QualityAgentOf` builds the quality agent from the evaluator's generation call and `Quality.Evaluate`. Python's `float()` is the oracle `Quality.NumberParser`. Scores are `real`.

The main results:

- The run stops once every channel is approved, or after exactly two retries. So there are at most three quality checks.
- Every attempts list has one entry per check.
- The state after the loop is the `History` of the passes:
  - each channel's first draft was written with empty feedback;
  - each later draft is the previous content, kept when the previous verdict approved it and otherwise rewritten with that verdict's feedback;
  - every verdict is the quality agent's verdict on that pass's draft, under the channel's platform name, and every attempt carries its own check's score;
  - no check before the last one approved every channel.
- The chosen content is the stable maximum of the attempts.
- The verdict parser reads only the first marked line, applies the 7.5 threshold to the raw (not the defaulted) score, and approves nothing whose first recommendation line reads REVISE.
- Research issues six queries that all mention the topic, gathers their results in order, and counts them exactly.

Behaviour of the code worth knowing, which the model keeps as written:

- **Unparsable score.** The comment on `src/agents/quality_agent.py:82` says the score defaults to 8.0 "if parsing fails". But `approved` on line 85 reads the raw values. So a reply with no score line, or with one that `float` rejects, reports 8.0 and is **not** approved. Only the raised-exception path (lines 87-97) approves unconditionally.
- **Empty recommendation.** Likewise, a `RECOMMENDATION:` line with nothing after it reports `APPROVE` (line 83) but is not approved (line 85).
- **Recommendation word.** The word that approves is `APPROVE` (line 85), compared after upper-casing (line 115).
- **Feedback section.** The comment on line 124 says the feedback ends at the next `RECOMMENDATION:`. Line 123 takes `split("FEEDBACK:")[1]`, so the feedback also ends at a second `FEEDBACK:`.
- **Failed generation.** The channel writers the orchestrator calls return no `content` key when they fail, so `src/orchestrator.py:157` would raise (see "Left out").

## Model

| member | source | states |
|---|---|---|
| Text.Split | src/agents/quality_agent.py:102-104 | `s.split(c)`: at least one piece, two or more exactly when the separator occurs, no piece holds it, and pieces hold only characters of the text |
| Text.SplitJoin | src/agents/quality_agent.py:102 | joining the pieces of a split with the separator gives the text back |
| Text.Before | src/agents/quality_agent.py:123-125 | `s.split(pat)[0]` is a prefix of `s` with no `pat` in it, and is all of `s` when `pat` is absent |
| Text.After | src/agents/quality_agent.py:123 | the text after the first occurrence is a suffix of `s` |
| Text.AfterRoundTrip | src/agents/quality_agent.py:123 | the text before the first `pat`, `pat` itself and `After` give `s` back, so `After` starts right where the first occurrence ends |
| Text.IndexOfFrom | src/agents/quality_agent.py:123-125 | the search behind `split(pat)`: the first occurrence at or after `from`, or none when there is none |
| Text.FirstOccurrence | src/agents/quality_agent.py:123-125 | `IndexOf` finds whichever occurrence has no earlier one |
| Text.ContainsIffOccurs | src/agents/quality_agent.py:103 | `pat in s` (`Text.Contains`, as on lines 103 and 114) holds exactly when `pat` occurs somewhere in `s` |
| Text.WhitespaceSet | src/agents/quality_agent.py:104 | `Text.IsWhitespace` is `str.isspace`: space, tab, line feed and carriage return count, and no digit, ASCII letter, `:`, `/` or `.` does |
| Text.Strip | src/agents/quality_agent.py:104 | `strip()` gives the middle slice of the text, with only whitespace removed on either side, and it neither starts nor ends with whitespace |
| Text.StripPadded | src/agents/quality_agent.py:104 | a stripped value after one space (as in `KEY: value`) strips back to itself |
| Text.UpperProperties | src/agents/quality_agent.py:115 | `upper()` leaves no lower-case ASCII letter, keeps whitespace in place and introduces no `:` |
| Text.Take | src/agents/research_agent.py:124 | `s[:n]` is a prefix of `s`: all of `s` when it is short enough, otherwise exactly `n` characters |
| Text.JoinEnds | src/agents/research_agent.py:128 | `sep.join(parts)` (`Text.Join`): a join of no parts is ""; otherwise it starts with the first part and ends with the last |
| Text.Upper | src/agents/quality_agent.py:115 | `upper()` keeps the length and upper-cases character by character |
| Text.NatToString | src/agents/research_agent.py:121 | `str(n)` is a non-empty run of decimal digits with no leading zero |
| Text.NatToStringInjective | src/agents/research_agent.py:121 | different source numbers are written as different decimal texts |
| Quality.FindMarkedLine | src/agents/quality_agent.py:102-103 | the first-match scan returns the first line holding the marker, or none when no line does |
| Quality.FindsFirstMarked | src/agents/quality_agent.py:102-105 | whichever line is the first marked one is the one the scan finds |
| Quality.ScoreText | src/agents/quality_agent.py:104 | the text given to `float` exists exactly when the line has a `:` (otherwise the `IndexError` is caught) and holds no `:` or `/` |
| Quality.ScoreOfLine | src/agents/quality_agent.py:104-108 | a line without `:` scores 0.0 (the `IndexError` is caught); otherwise `float` of the score text, 0.0 when `float` fails |
| Quality.ExtractOverallScore | src/agents/quality_agent.py:99-108 | the score of the first "OVERALL SCORE:" line only, 0.0 when there is none or `float` fails |
| Quality.RecommendationOfLine | src/agents/quality_agent.py:115 | the field after the first `:` exists exactly when the line has a `:`, and is stripped, upper-case and `:`-free |
| Quality.ExtractRecommendation | src/agents/quality_agent.py:110-118 | read from the first "RECOMMENDATION:" line, "APPROVE" when there is none; never holds `:` or lower-case letters |
| Quality.ExtractFeedback | src/agents/quality_agent.py:120-127 | "" without "FEEDBACK:"; otherwise stripped and free of both markers |
| Quality.Evaluate | src/agents/quality_agent.py:62-97 | always `success` with the given platform. On a reply: the reported score is the raw score if positive, else 8.0; the reported recommendation is the raw one if non-empty, else APPROVE; approved exactly when the raw recommendation is APPROVE and the raw score is at least 7.5; the feedback is the extracted feedback. When the call raises: 8.0, APPROVE, approved, the fixed feedback |
| Quality.MissingScoreReportsDefaultButRejects | src/agents/quality_agent.py:82-85 | no score line: reports 8.0 and is not approved |
| Quality.UnparsableScoreReportsDefaultButRejects | src/agents/quality_agent.py:104-108 | a score line `float` rejects: reports 8.0 and is not approved |
| Quality.EmptyRecommendationReportsApproveButRejects | src/agents/quality_agent.py:83-85 | an empty first recommendation reports APPROVE and is not approved |
| Quality.ReviseIsNeverApproved | src/agents/quality_agent.py:85 | a first recommendation line reading REVISE is never approved |
| Quality.ApprovalThresholdRule | src/agents/quality_agent.py:82-85 | with a raw APPROVE, approved exactly when the raw score is at least 7.5, and an approved verdict reports the raw score |
| Quality.FeedbackBetweenMarkers | src/agents/quality_agent.py:123-125 | the feedback is the stripped text between the first "FEEDBACK:" and the next "RECOMMENDATION:" |
| Quality.SectionReaches | src/agents/quality_agent.py:123 | `split("FEEDBACK:")[1]` is the slice after the first marker and reaches at least to the next marker |
| Quality.FeedbackToEnd | src/agents/quality_agent.py:123-125 | with no later marker, the feedback is the stripped rest of the reply |
| Quality.DocumentedScoreLine | src/agents/quality_agent.py:104 | a line `OVERALL SCORE: t/10` gives `float` exactly `t` |
| Quality.DocumentedRecommendationLine | src/agents/quality_agent.py:115 | a line `RECOMMENDATION: r` yields `r` upper-cased |
| Quality.DocumentedReplyApproval | src/agents/quality_agent.py:85 | for replies in the requested layout, approved exactly when the word is APPROVE in any case and `float` reads at least 7.5 |
| Research.GenerateSearchQueries | src/agents/research_agent.py:53-65 | six queries, each mentioning the topic; the third is "topic for audience", the fourth "brand topic" |
| Research.GatheredLength | src/agents/research_agent.py:83-88 | the gathered list is as long as the per-query result counts added up |
| Research.GatheredBound | src/agents/research_agent.py:86 | a provider honouring `max_results=3` yields at most three results per query |
| Research.Excerpt | src/agents/research_agent.py:124 | a prefix of the content: all of it when it has at most 500 characters, otherwise exactly 500; "N/A" when missing |
| Research.FieldOr | src/agents/research_agent.py:122-123 | `result.get(key, 'N/A')`: "N/A" when the field is missing, otherwise its value |
| Research.SourceBlock | src/agents/research_agent.py:120-126 | a result's block opens with "\nSource " and its number, up to the first `:` |
| Research.Blocks | src/agents/research_agent.py:118-126 | one block per result, block `k` numbered `k + 1`, in input order |
| Research.BlockNumbersDistinct | src/agents/research_agent.py:121 | blocks with different numbers are different texts |
| Research.FormatSearchResults | src/agents/research_agent.py:114-128 | the loop builds the numbered blocks and joins them with "\n"; no results give "" |
| Research.ConductResearch | src/agents/research_agent.py:67-112 | the loop extends the list with each query's results in query order; the result is `Researched` |
| Research.ResearchedReport | src/agents/research_agent.py:104-112 | success and the echoed inputs; the raw results are those gathered and `total_sources` their count; fails exactly when the synthesis raises |
| Research.ResearchedSourceBound | src/agents/research_agent.py:86 | with a provider honouring its cap, at most 18 sources |
| Orchestrator.QualityAgentVerdicts | src/agents/quality_agent.py:62-97 | the pipeline's quality agent is `Evaluate` over the generation call: its verdicts name the platform asked about, score above 0, and approve only with APPROVE and at least 7.5 |
| Orchestrator.AgentScores | src/orchestrator.py:205-245 | in a history whose quality agent is `QualityAgentOf`, every attempt scores above 0, and a run that ended approved scored every channel's last attempt at least 7.5 |
| Orchestrator.PlatformName | src/orchestrator.py:199-236 | every channel is evaluated under a non-empty platform name |
| Orchestrator.PlatformNamesDistinct | src/orchestrator.py:199-236 | no two channels share a platform name |
| Orchestrator.Approved | src/orchestrator.py:270-283 | `quality.get("approved", False)`: false while a channel has no verdict, otherwise the verdict's flag |
| Orchestrator.FeedbackOf | src/orchestrator.py:285 | `quality.get("feedback", "")`: "" while a channel has no verdict, otherwise the verdict's feedback |
| Orchestrator.PerChannel.Set | src/orchestrator.py:294 | replacing one channel's value keeps the other three |
| Orchestrator.EveryChannelApproved | src/orchestrator.py:248-253 | "every channel approved" is the conjunction of the four flags |
| Orchestrator.StableMaxUnique | src/orchestrator.py:396 | at most one attempt is the first of the highest-scoring ones |
| Orchestrator.BestIndex | src/orchestrator.py:396 | `max(..., key=score)` picks the first attempt with the highest score |
| Orchestrator.ChooseBest | src/orchestrator.py:392-397 | "" for no attempts, otherwise the content of the first highest-scoring attempt |
| Orchestrator.PipelineState.constructor | src/orchestrator.py:362-383 | the inputs, empty texts, empty verdicts and attempts, not approved, no retries |
| Orchestrator.PipelineState.ResearchNode | src/orchestrator.py:104-121 | stores the report and source count of the research step; the run stops when the synthesis raises |
| Orchestrator.PipelineState.StrategyNode | src/orchestrator.py:123-140 | stores the strategy; the run stops when the writer returns none |
| Orchestrator.PipelineState.GenerateNode | src/orchestrator.py:142-190 | every channel is written with empty feedback |
| Orchestrator.PipelineState.QualityCheckNode | src/orchestrator.py:192-255 | a fresh verdict per channel, exactly one appended attempt (current content, reported score), `all_approved` the conjunction |
| Orchestrator.PipelineState.RegenerateChannel | src/orchestrator.py:283-294 | one channel is rewritten with its feedback only when its verdict does not approve it |
| Orchestrator.PipelineState.RegenerateNode | src/orchestrator.py:257-336 | retry count up by one; approved channels unchanged, the others rewritten with their latest feedback (a missing verdict counts as not approved) |
| Orchestrator.PipelineState.ShouldRetry | src/orchestrator.py:338-350 | ends exactly when all are approved or two retries have been spent |
| Orchestrator.PipelineState.SelectBest | src/orchestrator.py:399-402 | each channel's content becomes its best attempt; the verdicts stay as they were |
| Orchestrator.PipelineState.FirstPass | src/orchestrator.py:84-88 | generation then the first quality check start the history: each channel's first verdict is the quality agent's verdict, at pass 0, on the first draft |
| Orchestrator.PipelineState.RetryPass | src/orchestrator.py:90-100 | regeneration then a new check extend the history by one pass, whose verdicts are the quality agent's on the redrafted content |
| Orchestrator.PipelineState.PassRecorded | src/orchestrator.py:205-244 | a check of the current drafts after a redraft of a rejected pass adds one pass to the history |
| Orchestrator.PipelineState.Redraft | src/orchestrator.py:283-333 | each channel's content becomes its previous content redrafted after its latest verdict |
| Orchestrator.PipelineState.RetryLoop | src/orchestrator.py:90-100 | the retry edge is taken until every channel is approved or two retries are spent, keeping the history, in which every verdict is the quality agent's on that pass's content |
| Orchestrator.PipelineState.ContentLoop | src/orchestrator.py:86-100 | the graph after strategy, then the best attempt per channel; every verdict in the history is the quality agent's on that pass's content |
| Orchestrator.ApprovalsKept | src/orchestrator.py:205-244 | appending to every history leaves the outcome of earlier checks as it was |
| Orchestrator.ChannelStarted | src/orchestrator.py:149-157 | the first draft, written with empty feedback and judged by the quality agent at pass 0, starts a channel's history |
| Orchestrator.ChannelExtended | src/orchestrator.py:283-294 | a redraft after the latest verdict, judged by the quality agent at the next pass and scored by that verdict, extends a channel's history |
| Orchestrator.HistoryLengths | src/orchestrator.py:205-208 | after pass `n`: `n + 1` attempts and verdicts per channel, `n` at most 2, the stored verdict the latest |
| Orchestrator.RejectedExtended | src/orchestrator.py:342-350 | a new check after a check that did not approve everything keeps "no earlier check approved everything" |
| Orchestrator.Run | src/orchestrator.py:352-404 | the caller's brand, industry, audience, topic and tone are kept in the state (and through it reach every writer and quality-agent request); research, then strategy (each may abort the run, and an aborted run generated and checked nothing), then the quality loop; at the end every channel has `retry_count + 1` attempts, at most three, the loop stopped on full approval or after two retries, every verdict is the quality agent's on that pass's content, and the content is the best attempt |

## Left out

- The language-model and search calls are oracles with no contract, and so are the prompt templates and the agents behind them. The strategy writer, the channel writers and the quality-agent implementations are not part of this model, and neither are the search-tool wrappers.
- The quality agent in `Services` is any function from request and pass to verdict. `QualityAgentOf` is the intended instance: `Quality.Evaluate` over the evaluator's generation call, and `QualityAgentVerdicts` states what its verdicts guarantee. The pipeline's own proofs do not depend on how verdicts are computed, so they hold for that instance too.
- Oracles receive the pass number, standing in for the randomness of a model: the same request may get a different reply on a later pass.
- Python's `float()` is the `NumberParser` oracle, and floating-point arithmetic is replaced by `real`.
- Text.UpperChar: upper-cases ASCII letters only and keeps the length. Python's `upper()` also maps other scripts and can change the length (`"ß".upper()` is `"SS"`); the approval rule only compares against the ASCII word APPROVE.
- LangGraph's `StateGraph` is not modelled; its edges are written out as the calls and the loop in `ContentLoop` and `RetryLoop`.
- The `print` progress output is left out.
- The two wiring faults are not modelled as graceful behaviour:
  - `feedback=` is passed to writers whose signature lacks it;
  - a failed generation returns no `content` key.
  The channel writers are modelled as always returning content.
- A failed strategy (no `strategy` key, so a `KeyError`) and a raising synthesis call are modelled as the run stopping, with `Status.Aborted` and the state as it was: no retries, no attempts, no verdicts and empty content.
- The four per-channel blocks of `_quality_check_node` are one state update in `QualityCheckNode`. Their effect on the record is the same.
- `industry` is passed to the research step, which accepts it and never uses it.
- `PipelineState.verdicts` is a ghost history of every verdict, kept for the proofs. The source keeps only the latest verdict per channel.
