/**
 * The debate orchestrator of main.py: the prompts the two agents receive, a
 * value-level specification of one run of `DebateManager.run_debate`, and the
 * method itself, a loop over the rounds proved equal to that specification.
 *
 * The two model backends are one oracle: given a call (its position in the
 * run, the agent it goes to, the prompt and the shared history) it either
 * fails (the agent raised) or answers with the reply text and the new
 * messages the agent produced. Messages are opaque, of type `M`.
 */
module Orchestrator {
  import opened Wrappers

  /** The side a transcript entry belongs to ("affirmative" / "negative"). */
  datatype Side = Affirmative | Negative

  /** The two agents: the OpenAI agent argues for the topic and writes the summary, the Gemini agent argues against. */
  datatype Agent = OpenAi | Gemini

  /** One `run_sync(prompt, message_history=history)`; `index` is the call's position in the run. */
  datatype Call<M> = Call(index: nat, agent: Agent, prompt: string, history: seq<M>)

  /** What a successful agent call yields: `result.data` and `result.new_messages()`. */
  datatype Reply<M> = Reply(data: string, newMessages: seq<M>)

  /** Both agents; `None` is an agent call that raised. */
  type Oracle<!M> = Call<M> -> Option<Reply<M>>

  /** One transcript entry, `(side, response)`. */
  datatype Turn = Turn(side: Side, response: string)

  function AgentOf(side: Side): Agent
  {
    if side == Affirmative then OpenAi else Gemini
  }

  function Opponent(side: Side): Side
  {
    if side == Affirmative then Negative else Affirmative
  }

  /** The side whose turn is the k-th call of the rounds: the affirmative opens every round. */
  function SideOf(k: nat): Side
  {
    if k % 2 == 0 then Affirmative else Negative
  }

  // The fixed wording of the prompts, in pieces around the topic and the documents.
  // The first words of each kind of prompt are a constant of their own.
  const YouAreArguing := "You are arguing "
  const ReviewHistory := "Review the full debate history"
  const Summarize := "Summarize the key points"
  const ContinueArguing := "Continue arguing "
  const DocumentLead := ". Refer to the following background document: "
  const WordLimit := ". Be concise (within 100 words)."
  const SummaryLead := Summarize + " from both sides of this debate about "
  const SummaryTail := ", and provide a balanced conclusion. Be concise (within 200 words)."

  /** The word a side's prompts use for its stance on the topic. */
  function StanceWord(side: Side): string
  {
    if side == Affirmative then "FOR " else "AGAINST "
  }

  /** The opening words of a side's rebuttal, which name the opponent's latest argument. */
  function RebuttalLead(side: Side): string
  {
    ReviewHistory +
      if side == Affirmative then " and respond to the latest argument from the Negative. Refer to "
      else " and respond to the latest argument from the Affirmative. Refer to "
  }

  /** The words of a rebuttal between the opponent's document and the side's stance. */
  function AttackWording(side: Side): string
  {
    if side == Affirmative then " and attack points that might suport the negative side. "
    else " and attack points that might suport the affirmative side. "
  }

  predicate EndsWith(s: string, tail: string)
  {
    |tail| <= |s| && s[|s| - |tail|..] == tail
  }

  /** The first letters of the three kinds of prompt. */
  lemma Initials()
    ensures YouAreArguing[0] == 'Y' && ReviewHistory[0] == 'R' && Summarize[0] == 'S'
  {
  }

  /** A string made of a non-empty lead, a middle and a tail starts with the lead, hence with its first letter, and ends with the tail. */
  lemma Framed(lead: string, middle: string, tail: string)
    requires 0 < |lead|
    ensures var s := lead + middle + tail;
      && lead <= s && s[0] == lead[0] && EndsWith(s, tail)
  {
  }

  /**
   * The positional prompt of round 0: it opens with the side's stance and
   * the topic, and ends with the side's own document and the 100-word limit.
   */
  function OpeningPrompt(side: Side, topic: string, ownDoc: string): (r: string)
    ensures YouAreArguing + StanceWord(side) + topic <= r
    ensures EndsWith(r, ownDoc + WordLimit)
    ensures r[0] == 'Y'
  {
    Framed(YouAreArguing + StanceWord(side) + topic, DocumentLead, ownDoc + WordLimit);
    Initials();
    YouAreArguing + StanceWord(side) + topic + DocumentLead + (ownDoc + WordLimit)
  }

  /**
   * The rebuttal prompt of every later round: it opens with the answer to
   * the opponent and the opponent's document, and ends by telling the side
   * to keep arguing its own stance on the topic, within the 100-word limit.
   */
  function RebuttalPrompt(side: Side, topic: string, opponentDoc: string): (r: string)
    ensures RebuttalLead(side) + opponentDoc <= r
    ensures EndsWith(r, ContinueArguing + StanceWord(side) + topic + WordLimit)
    ensures r[0] == 'R'
  {
    Framed(RebuttalLead(side) + opponentDoc, AttackWording(side), ContinueArguing + StanceWord(side) + topic + WordLimit);
    Initials();
    RebuttalLead(side) + opponentDoc + AttackWording(side) + (ContinueArguing + StanceWord(side) + topic + WordLimit)
  }

  /** The closing prompt: it opens with the request for a summary of the debate on the topic and names no document. */
  function SummaryPrompt(topic: string): (r: string)
    ensures SummaryLead + topic <= r
    ensures EndsWith(r, SummaryTail)
    ensures r[0] == 'S'
  {
    Framed(SummaryLead + topic, [], SummaryTail);
    Initials();
    SummaryLead + topic + SummaryTail
  }

  /** The five prompts one debate uses. */
  datatype Prompts = Prompts(openingFor: string, openingAgainst: string, rebuttalFor: string, rebuttalAgainst: string, summary: string)

  /** The prompts of a debate on `topic`: each side's document in its opening, the other side's in its rebuttal. */
  function DebatePrompts(topic: string, affDoc: string, negDoc: string): (r: Prompts)
    ensures EndsWith(r.openingFor, affDoc + WordLimit) && EndsWith(r.openingAgainst, negDoc + WordLimit)
    ensures RebuttalLead(Affirmative) + negDoc <= r.rebuttalFor && RebuttalLead(Negative) + affDoc <= r.rebuttalAgainst
  {
    Prompts(OpeningPrompt(Affirmative, topic, affDoc), OpeningPrompt(Negative, topic, negDoc),
            RebuttalPrompt(Affirmative, topic, negDoc), RebuttalPrompt(Negative, topic, affDoc),
            SummaryPrompt(topic))
  }

  /** The prompt `side` receives in round `round` (counted from 0). */
  function Prompt(p: Prompts, side: Side, round: nat): string
  {
    match side
    case Affirmative => if round == 0 then p.openingFor else p.rebuttalFor
    case Negative => if round == 0 then p.openingAgainst else p.rebuttalAgainst
  }

  /** A run part-way through the rounds, or one that an agent call ended. Both record the calls made so far. */
  datatype Run<M> =
    | Running(history: seq<M>, transcript: seq<Turn>, calls: seq<Call<M>>)
    | Failed(calls: seq<Call<M>>)

  /**
   * One agent turn: the call receives the current history; on success its new
   * messages are appended to the history and its reply to the transcript.
   */
  function Step<M>(o: Oracle<M>, run: Run<M>, side: Side, prompt: string): (r: Run<M>)
    ensures run.Failed? ==> r == run
    ensures run.Running? ==> r.calls == run.calls + [Call(|run.calls|, AgentOf(side), prompt, run.history)]
    ensures run.Running? ==> (r.Running? <==> o(Call(|run.calls|, AgentOf(side), prompt, run.history)).Some?)
    ensures run.Running? && r.Running? ==>
      run.history <= r.history && run.transcript <= r.transcript && |r.transcript| == |run.transcript| + 1
  {
    match run
    case Failed(_) => run
    case Running(history, transcript, calls) =>
      var call := Call(|calls|, AgentOf(side), prompt, history);
      match o(call)
      case None => Failed(calls + [call])
      case Some(reply) =>
        Running(history + reply.newMessages, transcript + [Turn(side, reply.data)], calls + [call])
  }

  /** The state after the first `n` rounds, each an affirmative then a negative turn. */
  function Rounds<M>(o: Oracle<M>, p: Prompts, n: nat): (r: Run<M>)
    ensures r.Running? ==> |r.calls| == 2 * n && |r.transcript| == 2 * n
    ensures r.Failed? ==> 0 < |r.calls| <= 2 * n
  {
    if n == 0 then Running([], [], [])
    else
      var before := Rounds(o, p, n - 1);
      var afterAffirmative := Step(o, before, Affirmative, Prompt(p, Affirmative, n - 1));
      Step(o, afterAffirmative, Negative, Prompt(p, Negative, n - 1))
  }

  /** Once an agent call has failed, later rounds make no further call. */
  lemma {:induction false} FailureIsFinal<M>(o: Oracle<M>, p: Prompts, k: nat, m: nat)
    requires k <= m
    requires Rounds(o, p, k).Failed?
    ensures Rounds(o, p, m) == Rounds(o, p, k)
  {
    if m > k {
      FailureIsFinal(o, p, k, m - 1);
    }
  }

  /** What `run_debate` returns, `(outputs, summary)`, together with the agent calls it made. */
  datatype Outcome<M> = Outcome(outputs: Option<seq<Turn>>, summary: Option<string>, calls: seq<Call<M>>)

  /** `range(num_rounds)` runs no iteration for a negative count. */
  function RoundCount(numRounds: int): nat
  {
    if numRounds < 0 then 0 else numRounds
  }

  /**
   * A whole debate: the rounds, then the summary call to the OpenAI agent on
   * the full history; any failed call turns the result into `(None, None)`.
   */
  function Debate<M>(o: Oracle<M>, p: Prompts, numRounds: int): (r: Outcome<M>)
    ensures r.outputs.None? <==> r.summary.None?
    ensures 0 < |r.calls| <= 2 * RoundCount(numRounds) + 1
    ensures r.outputs.Some? ==> |r.outputs.value| == 2 * RoundCount(numRounds) && |r.calls| == 2 * RoundCount(numRounds) + 1
  {
    match Rounds(o, p, RoundCount(numRounds))
    case Failed(calls) => Outcome(None, None, calls)
    case Running(history, transcript, calls) =>
      var call := Call(|calls|, OpenAi, p.summary, history);
      match o(call)
      case None => Outcome(None, None, calls + [call])
      case Some(reply) => Outcome(Some(transcript), Some(reply.data), calls + [call])
  }

  /** A debate whose rounds stopped at a failed call returns `(None, None)` after exactly the calls made until then. */
  lemma FailedDebate<M>(o: Oracle<M>, p: Prompts, numRounds: int, k: nat)
    requires k <= RoundCount(numRounds)
    requires Rounds(o, p, k).Failed?
    ensures Debate(o, p, numRounds) == Outcome(None, None, Rounds(o, p, k).calls)
  {
    FailureIsFinal(o, p, k, RoundCount(numRounds));
  }

  /** `DebateManager`: holds the two agents, which no debate changes. */
  class DebateManager<M> {
    const agents: Oracle<M>

    constructor (agents: Oracle<M>)
      ensures this.agents == agents
    {
      this.agents := agents;
    }

    /**
     * `run_debate`. The prompt f-strings depend only on the topic and the two
     * documents, which the debate never changes, so they are evaluated once
     * here and the rounds are run by `Orchestrate`.
     */
    method RunDebate(topic: string, affDoc: string, negDoc: string, numRounds: int := 3)
      returns (outputs: Option<seq<Turn>>, summary: Option<string>, ghost calls: seq<Call<M>>)
      ensures outputs == Debate(agents, DebatePrompts(topic, affDoc, negDoc), numRounds).outputs
      ensures summary == Debate(agents, DebatePrompts(topic, affDoc, negDoc), numRounds).summary
      ensures calls == Debate(agents, DebatePrompts(topic, affDoc, negDoc), numRounds).calls
    {
      var prompts := DebatePrompts(topic, affDoc, negDoc);
      outputs, summary, calls := Orchestrate(prompts, numRounds);
    }

    /**
     * The body of `run_debate`: each round the affirmative and then the
     * negative agent is called on the growing shared history, and both prompts
     * are set to the rebuttal wording after the round; then the summary call.
     * The first failed call ends the run with `(None, None)`. `calls` records
     * the calls made.
     */
    method Orchestrate(p: Prompts, numRounds: int)
      returns (outputs: Option<seq<Turn>>, summary: Option<string>, ghost calls: seq<Call<M>>)
      ensures outputs == Debate(agents, p, numRounds).outputs
      ensures summary == Debate(agents, p, numRounds).summary
      ensures calls == Debate(agents, p, numRounds).calls
    {
      var history: seq<M> := [];
      var transcript: seq<Turn> := [];
      calls := [];
      var affPrompt := p.openingFor;
      var negPrompt := p.openingAgainst;
      var round := 0;
      while round < numRounds
        invariant 0 <= round <= RoundCount(numRounds)
        invariant |calls| == 2 * round
        invariant Rounds(agents, p, round) == Running(history, transcript, calls)
        invariant affPrompt == Prompt(p, Affirmative, round)
        invariant negPrompt == Prompt(p, Negative, round)
      {
        ghost var before := Running(history, transcript, calls);
        var call := Call(2 * round, OpenAi, affPrompt, history);
        calls := calls + [call];
        var result := agents(call);
        ghost var afterAffirmative := Step(agents, before, Affirmative, affPrompt);
        if result.None? {
          assert Rounds(agents, p, round + 1) == Failed(calls);
          FailedDebate(agents, p, numRounds, round + 1);
          return None, None, calls;
        }
        history := history + result.value.newMessages;
        transcript := transcript + [Turn(Affirmative, result.value.data)];
        assert afterAffirmative == Running(history, transcript, calls);

        call := Call(2 * round + 1, Gemini, negPrompt, history);
        calls := calls + [call];
        result := agents(call);
        if result.None? {
          assert Rounds(agents, p, round + 1) == Failed(calls);
          FailedDebate(agents, p, numRounds, round + 1);
          return None, None, calls;
        }
        history := history + result.value.newMessages;
        transcript := transcript + [Turn(Negative, result.value.data)];
        assert Rounds(agents, p, round + 1) == Running(history, transcript, calls);

        affPrompt := p.rebuttalFor;
        negPrompt := p.rebuttalAgainst;
        round := round + 1;
      }
      var call := Call(2 * round, OpenAi, p.summary, history);
      calls := calls + [call];
      var result := agents(call);
      if result.None? {
        return None, None, calls;
      }
      return Some(transcript), Some(result.value.data), calls;
    }
  }
}
