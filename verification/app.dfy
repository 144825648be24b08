/**
 * The result shaping of streamlit_app.py: `run_debate_with_status` runs a
 * debate with the default three rounds, keeps the result only when both the
 * transcript and the summary are non-empty, and sanitises every response and
 * the summary; the page then labels transcript entry `i` with round
 * `i // 2 + 1`.
 */
module App {
  import opened Wrappers
  import opened Orchestrator
  import opened OrchestratorProperties
  import opened Sanitize

  /** The pair `run_debate_with_status` returns: `(debate_outputs, summary)`, `None` for Python's `None`. */
  datatype Shown = Shown(outputs: Option<seq<Turn>>, summary: Option<string>)

  /** The transcript with each response sanitised, sides and order kept. */
  function SanitizeTurns(unescape: string -> string, turns: seq<Turn>): (r: seq<Turn>)
    ensures |r| == |turns|
    ensures forall i :: 0 <= i < |r| ==>
      r[i].side == turns[i].side && r[i].response == SanitizeText(unescape, turns[i].response)
    ensures forall i, j :: 0 <= i < |r| && 0 <= j < |r[i].response| ==> r[i].response[j] !in MarkdownMarks
  {
    seq(|turns|, i requires 0 <= i < |turns| => Turn(turns[i].side, SanitizeText(unescape, turns[i].response)))
  }

  /**
   * The body of `run_debate_with_status` after the debate: a falsy transcript
   * (`None` or empty) or a falsy summary gives `(None, None)`; otherwise the
   * sanitised transcript and summary.
   */
  function ShapeResult(unescape: string -> string, outputs: Option<seq<Turn>>, rawSummary: Option<string>): (r: Shown)
    ensures r.outputs.None? <==> r.summary.None?
    ensures r.outputs.Some? <==> outputs.Some? && outputs.value != [] && rawSummary.Some? && rawSummary.value != ""
    ensures r.outputs.Some? ==>
      && r.outputs.value == SanitizeTurns(unescape, outputs.value)
      && r.summary.value == SanitizeText(unescape, rawSummary.value)
  {
    if outputs.Some? && outputs.value != [] && rawSummary.Some? && rawSummary.value != "" then
      Shown(Some(SanitizeTurns(unescape, outputs.value)), Some(SanitizeText(unescape, rawSummary.value)))
    else
      Shown(None, None)
  }

  /** The number of rounds `run_debate_with_status` asks for: the default of `run_debate`. */
  const DefaultRounds := 3

  /**
   * What `run_debate_with_status` shows for a debate on the given topic and
   * documents: both parts or neither, and a shown transcript has six entries
   * alternating affirmative and negative.
   */
  function Status<M>(unescape: string -> string, o: Oracle<M>, topic: string, affDoc: string, negDoc: string): (r: Shown)
    ensures r.outputs.None? <==> r.summary.None?
    ensures r.outputs.Some? ==>
      && |r.outputs.value| == 6
      && forall k :: 0 <= k < 6 ==> r.outputs.value[k].side == (if k % 2 == 0 then Affirmative else Negative)
  {
    var d := Debate(o, DebatePrompts(topic, affDoc, negDoc), DefaultRounds);
    ShownSides(unescape, o, DebatePrompts(topic, affDoc, negDoc), DefaultRounds);
    ShapeResult(unescape, d.outputs, d.summary)
  }

  /** `run_debate_with_status`: run the debate with the default number of rounds and shape its result. */
  method RunDebateWithStatus<M>(manager: DebateManager<M>, unescape: string -> string,
                                topic: string, affDoc: string, negDoc: string)
    returns (outputs: Option<seq<Turn>>, summary: Option<string>)
    ensures outputs == Status(unescape, manager.agents, topic, affDoc, negDoc).outputs
    ensures summary == Status(unescape, manager.agents, topic, affDoc, negDoc).summary
  {
    ghost var calls;
    var rawOutputs, rawSummary;
    rawOutputs, rawSummary, calls := manager.RunDebate(topic, affDoc, negDoc);
    var shown := ShapeResult(unescape, rawOutputs, rawSummary);
    outputs, summary := shown.outputs, shown.summary;
  }

  /**
   * What a debate of `numRounds` rounds shows: something exactly when the
   * debate succeeded with at least one round and a non-empty summary. Then
   * the transcript has `2n` entries, entry `k` labelled with the side of call
   * `k` and holding its sanitised reply, and the summary is the sanitised
   * reply of the summary call.
   */
  lemma ShownDebate<M>(unescape: string -> string, o: Oracle<M>, p: Prompts, numRounds: int)
    ensures var d := Debate(o, p, numRounds); var n := RoundCount(numRounds);
      var r := ShapeResult(unescape, d.outputs, d.summary);
      && (r.outputs.Some? <==> d.outputs.Some? && 0 < n && d.summary.value != "")
      && (r.outputs.Some? ==>
            && |r.outputs.value| == 2 * n && |d.calls| == 2 * n + 1
            && (forall k :: 0 <= k < 2 * n ==>
                  o(d.calls[k]).Some?
                  && r.outputs.value[k] == Turn(SideOf(k), SanitizeText(unescape, o(d.calls[k]).value.data)))
            && o(d.calls[2 * n]).Some?
            && r.summary == Some(SanitizeText(unescape, o(d.calls[2 * n]).value.data)))
  {
    var d := Debate(o, p, numRounds);
    var r := ShapeResult(unescape, d.outputs, d.summary);
    if r.outputs.Some? {
      SuccessfulDebate(o, p, numRounds);
      forall k | 0 <= k < 2 * RoundCount(numRounds)
        ensures o(d.calls[k]).Some?
        ensures r.outputs.value[k] == Turn(SideOf(k), SanitizeText(unescape, o(d.calls[k]).value.data))
      {
        assert d.outputs.value[k] == Turn(SideOf(k), o(d.calls[k]).value.data);
      }
    }
  }

  /** The entries of a shown transcript alternate between the sides, one entry per call of the rounds. */
  lemma ShownSides<M>(unescape: string -> string, o: Oracle<M>, p: Prompts, numRounds: int)
    ensures var d := Debate(o, p, numRounds); var r := ShapeResult(unescape, d.outputs, d.summary);
      r.outputs.Some? ==>
        && |r.outputs.value| == 2 * RoundCount(numRounds)
        && forall k :: 0 <= k < |r.outputs.value| ==> r.outputs.value[k].side == SideOf(k)
  {
    ShownDebate(unescape, o, p, numRounds);
  }

  /** A debate with no round never shows: its empty transcript is falsy, even when the summary call succeeds. */
  lemma NoRoundsShowNothing<M>(unescape: string -> string, o: Oracle<M>, p: Prompts, numRounds: int)
    requires numRounds <= 0
    ensures var d := Debate(o, p, numRounds); ShapeResult(unescape, d.outputs, d.summary) == Shown(None, None)
  {
    NoRounds(o, p, numRounds);
  }

  /** A debate in which any agent call failed shows nothing. */
  lemma FailureShowsNothing<M>(unescape: string -> string, o: Oracle<M>, p: Prompts, numRounds: int, k: nat)
    requires k < |Debate(o, p, numRounds).calls| && o(Debate(o, p, numRounds).calls[k]).None?
    ensures var d := Debate(o, p, numRounds); ShapeResult(unescape, d.outputs, d.summary) == Shown(None, None)
  {
    AllOrNothing(o, p, numRounds);
  }

  /** The round shown for transcript entry `i`, `i // 2 + 1`: entries `2r - 2` and `2r - 1` make round `r`. */
  function DisplayRound(i: nat): (r: nat)
    ensures 1 <= r && 2 * (r - 1) <= i < 2 * r
  {
    i / 2 + 1
  }

  /**
   * The round label is right: the entry labelled round `r` came from a call
   * made in round `r` (counted from 1) of the debate, with that round's
   * prompt for its side, and no label exceeds the number of rounds.
   */
  lemma DisplayRoundIsCallRound<M>(o: Oracle<M>, p: Prompts, numRounds: int, k: nat)
    requires Debate(o, p, numRounds).outputs.Some?
    requires k < |Debate(o, p, numRounds).outputs.value|
    ensures var d := Debate(o, p, numRounds); var r := DisplayRound(k);
      && r <= RoundCount(numRounds)
      && k < |d.calls| && d.calls[k].prompt == Prompt(p, SideOf(k), r - 1)
      && d.outputs.value[k].side == SideOf(k)
  {
    SuccessfulDebate(o, p, numRounds);
    CallOrder(o, p, numRounds, k);
  }
}
