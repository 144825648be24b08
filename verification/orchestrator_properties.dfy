/**
 * What a run of `run_debate` guarantees, stated over the specification
 * `Orchestrator.Debate` for every oracle and every set of prompts: the calls follow
 * a fixed schedule, the history each call receives is everything produced
 * before it, the transcript alternates the two sides, and a failed call
 * anywhere, the summary call included, leaves no partial result.
 */
module OrchestratorProperties {
  import opened Wrappers
  import opened Orchestrator

  /** The messages a call added to the shared history (none when it failed). */
  function NewMessages<M>(reply: Option<Reply<M>>): seq<M>
  {
    if reply.Some? then reply.value.newMessages else []
  }

  /** The new messages of the calls `cs`, concatenated in call order. */
  function Produced<M>(o: Oracle<M>, cs: seq<Call<M>>): seq<M>
  {
    if cs == [] then [] else Produced(o, cs[..|cs| - 1]) + NewMessages(o(cs[|cs| - 1]))
  }

  /**
   * The k-th call of an `n`-round debate whose earlier calls were `cs[..k]`:
   * the affirmative (OpenAI) and negative (Gemini) turns alternate through the
   * rounds, then the summary goes to the OpenAI agent; every call receives the
   * messages of all the calls before it.
   */
  function ScheduledCall<M>(o: Oracle<M>, p: Prompts, n: nat, cs: seq<Call<M>>, k: nat): Call<M>
    requires k <= |cs|
  {
    if k < 2 * n then Call(k, AgentOf(SideOf(k)), Prompt(p, SideOf(k), k / 2), Produced(o, cs[..k]))
    else Call(k, OpenAi, p.summary, Produced(o, cs[..k]))
  }

  /** Call `k` of `cs` is the one the schedule of an `n`-round debate prescribes at that position. */
  ghost predicate OnScheduleAt<M>(o: Oracle<M>, p: Prompts, n: nat, cs: seq<Call<M>>, k: nat)
  {
    k < |cs| && cs[k] == ScheduledCall(o, p, n, cs, k)
  }

  /** Every call in `cs` is the one the schedule of an `n`-round debate prescribes at its position. */
  ghost predicate OnSchedule<M>(o: Oracle<M>, p: Prompts, n: nat, cs: seq<Call<M>>)
  {
    forall k: nat :: k < |cs| ==> OnScheduleAt(o, p, n, cs, k)
  }

  ghost predicate AllSucceed<M>(o: Oracle<M>, cs: seq<Call<M>>)
  {
    forall k :: 0 <= k < |cs| ==> o(cs[k]).Some?
  }

  lemma ProducedAppend<M>(o: Oracle<M>, cs: seq<Call<M>>, c: Call<M>)
    ensures Produced(o, cs + [c]) == Produced(o, cs) + NewMessages(o(c))
  {
    assert (cs + [c])[..|cs|] == cs;
  }

  /** The history only grows: what earlier calls produced is a prefix of what later calls produced. */
  lemma {:induction false} ProducedPrefix<M>(o: Oracle<M>, cs: seq<Call<M>>, i: nat, j: nat)
    requires i <= j <= |cs|
    ensures Produced(o, cs[..i]) <= Produced(o, cs[..j])
  {
    if i < j {
      ProducedPrefix(o, cs, i, j - 1);
      assert cs[..j][..j - 1] == cs[..j - 1];
    }
  }

  lemma ScheduleExtends<M>(o: Oracle<M>, p: Prompts, n: nat, cs: seq<Call<M>>, c: Call<M>)
    requires OnSchedule(o, p, n, cs)
    requires c == ScheduledCall(o, p, n, cs + [c], |cs|)
    ensures OnSchedule(o, p, n, cs + [c])
  {
    forall k: nat | k < |cs| + 1
      ensures OnScheduleAt(o, p, n, cs + [c], k)
    {
      if k < |cs| {
        assert OnScheduleAt(o, p, n, cs, k);
        assert (cs + [c])[..k] == cs[..k];
      }
    }
  }

  /** One successful agent turn of round `m` extends a schedule-following run by the scheduled call. */
  lemma TurnOnSchedule<M>(o: Oracle<M>, p: Prompts, n: nat, m: nat, side: Side,
                          h: seq<M>, tr: seq<Turn>, cs: seq<Call<M>>)
    requires m < n
    requires |cs| == 2 * m + (if side == Affirmative then 0 else 1)
    requires OnSchedule(o, p, n, cs) && h == Produced(o, cs)
    ensures var c := Call(|cs|, AgentOf(side), Prompt(p, side, m), h);
            c == ScheduledCall(o, p, n, cs + [c], |cs|) && OnSchedule(o, p, n, cs + [c])
            && Produced(o, cs + [c]) == h + NewMessages(o(c))
  {
    var c := Call(|cs|, AgentOf(side), Prompt(p, side, m), h);
    assert SideOf(|cs|) == side && |cs| / 2 == m;
    assert (cs + [c])[..|cs|] == cs;
    ScheduleExtends(o, p, n, cs, c);
    ProducedAppend(o, cs, c);
  }

  /** Entry `k` of the transcript is the reply of call `k`, labelled with the side of that call. */
  ghost predicate RepliesInOrder<M>(o: Oracle<M>, tr: seq<Turn>, cs: seq<Call<M>>)
    requires |tr| <= |cs|
  {
    forall k :: 0 <= k < |tr| ==> o(cs[k]).Some? && tr[k] == Turn(SideOf(k), o(cs[k]).value.data)
  }

  /**
   * What a run after `m` of `n` rounds looks like: either still going, with
   * `2m` calls made on schedule, all successful, the history equal to
   * everything they produced and the transcript holding their replies in
   * order, or stopped right after its first failed call, made on schedule.
   */
  ghost predicate Traced<M>(o: Oracle<M>, p: Prompts, n: nat, m: nat, run: Run<M>)
  {
    match run
    case Running(h, tr, cs) =>
      && |cs| == 2 * m && |tr| == 2 * m
      && OnSchedule(o, p, n, cs) && AllSucceed(o, cs)
      && h == Produced(o, cs)
      && RepliesInOrder(o, tr, cs)
    case Failed(cs) =>
      && 0 < |cs| <= 2 * m
      && OnSchedule(o, p, n, cs) && AllSucceed(o, cs[..|cs| - 1]) && o(cs[|cs| - 1]).None?
  }

  /** One successful turn keeps a running trace: one more call on schedule, one more reply in the transcript. */
  lemma TurnTraced<M>(o: Oracle<M>, p: Prompts, n: nat, m: nat, side: Side,
                      h: seq<M>, tr: seq<Turn>, cs: seq<Call<M>>)
    requires m < n
    requires |cs| == |tr| == 2 * m + (if side == Affirmative then 0 else 1)
    requires OnSchedule(o, p, n, cs) && AllSucceed(o, cs) && h == Produced(o, cs) && RepliesInOrder(o, tr, cs)
    ensures var c := Call(|cs|, AgentOf(side), Prompt(p, side, m), h);
      && OnSchedule(o, p, n, cs + [c])
      && (o(c).None? ==> AllSucceed(o, (cs + [c])[..|cs|]))
      && (o(c).Some? ==>
            && AllSucceed(o, cs + [c])
            && h + o(c).value.newMessages == Produced(o, cs + [c])
            && RepliesInOrder(o, tr + [Turn(side, o(c).value.data)], cs + [c]))
  {
    var c := Call(|cs|, AgentOf(side), Prompt(p, side, m), h);
    TurnOnSchedule(o, p, n, m, side, h, tr, cs);
    assert (cs + [c])[..|cs|] == cs;
    if o(c).Some? {
      assert SideOf(|cs|) == side;
      ReplyAppended(o, tr, cs, c);
    }
  }

  /** A successful call appended to the calls, with its reply appended to the transcript, keeps both in step. */
  lemma ReplyAppended<M>(o: Oracle<M>, tr: seq<Turn>, cs: seq<Call<M>>, c: Call<M>)
    requires |tr| == |cs| && AllSucceed(o, cs) && RepliesInOrder(o, tr, cs) && o(c).Some?
    ensures AllSucceed(o, cs + [c])
    ensures RepliesInOrder(o, tr + [Turn(SideOf(|cs|), o(c).value.data)], cs + [c])
  {
    var cs' := cs + [c];
    var tr' := tr + [Turn(SideOf(|cs|), o(c).value.data)];
    forall k | 0 <= k < |cs'|
      ensures o(cs'[k]).Some? && tr'[k] == Turn(SideOf(k), o(cs'[k]).value.data)
    {
      if k < |cs| {
        assert cs'[k] == cs[k] && tr'[k] == tr[k];
      }
    }
  }

  /** Playing round `m` keeps the trace. */
  lemma RoundTraced<M>(o: Oracle<M>, p: Prompts, n: nat, m: nat)
    requires m < n
    requires Traced(o, p, n, m, Rounds(o, p, m))
    ensures Traced(o, p, n, m + 1, Rounds(o, p, m + 1))
  {
    var before := Rounds(o, p, m);
    if before.Running? {
      var h, tr, cs := before.history, before.transcript, before.calls;
      var c1 := Call(|cs|, AgentOf(Affirmative), Prompt(p, Affirmative, m), h);
      TurnTraced(o, p, n, m, Affirmative, h, tr, cs);
      if o(c1).Some? {
        var cs1 := cs + [c1];
        var h1, tr1 := h + o(c1).value.newMessages, tr + [Turn(Affirmative, o(c1).value.data)];
        TurnTraced(o, p, n, m, Negative, h1, tr1, cs1);
      }
    }
  }

  /** After `m` of `n` rounds the run is traced. */
  lemma {:induction false} RoundsTrace<M>(o: Oracle<M>, p: Prompts, n: nat, m: nat)
    requires m <= n
    ensures Traced(o, p, n, m, Rounds(o, p, m))
  {
    if m > 0 {
      RoundsTrace(o, p, n, m - 1);
      RoundTraced(o, p, n, m - 1);
    }
  }

  /** The whole run: a prefix of the schedule of `n` rounds plus the summary, cut right after the first failed call. */
  lemma DebateTrace<M>(o: Oracle<M>, p: Prompts, numRounds: int)
    ensures var d := Debate(o, p, numRounds); var n := RoundCount(numRounds);
      && 0 < |d.calls| <= 2 * n + 1
      && OnSchedule(o, p, n, d.calls)
      && AllSucceed(o, d.calls[..|d.calls| - 1])
      && (d.outputs.Some? <==> o(d.calls[|d.calls| - 1]).Some?)
      && (d.outputs.Some? ==> |d.calls| == 2 * n + 1)
      && (d.outputs.None? <==> d.summary.None?)
  {
    var n := RoundCount(numRounds);
    RoundsTrace(o, p, n, n);
    var run := Rounds(o, p, n);
    if run.Running? {
      var c := Call(|run.calls|, OpenAi, p.summary, run.history);
      assert (run.calls + [c])[..|run.calls|] == run.calls;
      ScheduleExtends(o, p, n, run.calls, c);
    }
  }

  /**
   * All or nothing: the result is `(None, None)` exactly when one of the calls
   * made failed, and then the run made no call after the failed one. A result
   * never pairs a transcript with a missing summary or the other way round.
   */
  lemma AllOrNothing<M>(o: Oracle<M>, p: Prompts, numRounds: int)
    ensures var d := Debate(o, p, numRounds);
      && (d.outputs.None? <==> d.summary.None?)
      && (d.outputs.None? <==> exists k :: 0 <= k < |d.calls| && o(d.calls[k]).None?)
      && (d.outputs.None? ==> forall k :: 0 <= k < |d.calls| - 1 ==> o(d.calls[k]).Some?)
  {
    DebateTrace(o, p, numRounds);
    var d := Debate(o, p, numRounds);
    var last := |d.calls| - 1;
    assert forall k :: 0 <= k < last ==> d.calls[..last][k] == d.calls[k];
  }

  /**
   * A successful debate of `n` rounds made `2n + 1` calls, all successful,
   * and returns `2n` turns: entry `k` is the reply of call `k`, labelled
   * affirmative for even `k` and negative for odd `k`. The summary is the
   * reply of the last call, which went to the OpenAI agent with the summary
   * prompt and the messages of all `2n` turns in call order.
   */
  lemma SuccessfulDebate<M>(o: Oracle<M>, p: Prompts, numRounds: int)
    requires Debate(o, p, numRounds).outputs.Some?
    ensures var d := Debate(o, p, numRounds); var n := RoundCount(numRounds);
      && d.summary.Some?
      && |d.calls| == 2 * n + 1 && |d.outputs.value| == 2 * n
      && AllSucceed(o, d.calls)
      && (forall k :: 0 <= k < 2 * n ==>
            o(d.calls[k]).Some? && d.outputs.value[k] == Turn(SideOf(k), o(d.calls[k]).value.data))
      && d.calls[2 * n] == Call(2 * n, OpenAi, p.summary, Produced(o, d.calls[..2 * n]))
      && o(d.calls[2 * n]).Some? && d.summary.value == o(d.calls[2 * n]).value.data
  {
    var n := RoundCount(numRounds);
    DebateTrace(o, p, numRounds);
    RoundsTrace(o, p, n, n);
    var d := Debate(o, p, numRounds);
    var run := Rounds(o, p, n);
    assert run.Running?;
    assert d.calls[..2 * n] == run.calls;
    forall k | 0 <= k < 2 * n + 1
      ensures o(d.calls[k]).Some?
    {
      if k < 2 * n {
        assert d.calls[k] == d.calls[..2 * n][k];
      }
    }
  }

  /**
   * The call order: call `k` is the `k`-th call, it goes to the OpenAI agent
   * exactly when `k` is even (A, N, A, N, ..., summary on A), and its prompt
   * is that of its side in round `k / 2`, or the summary prompt for the call
   * after the rounds.
   */
  lemma CallOrder<M>(o: Oracle<M>, p: Prompts, numRounds: int, k: nat)
    requires k < |Debate(o, p, numRounds).calls|
    ensures var c := Debate(o, p, numRounds).calls[k]; var n := RoundCount(numRounds);
      && c.index == k
      && (c.agent == OpenAi <==> k % 2 == 0)
      && c.prompt == (if k < 2 * n then Prompt(p, SideOf(k), k / 2) else p.summary)
  {
    DebateTrace(o, p, numRounds);
    assert OnScheduleAt(o, p, RoundCount(numRounds), Debate(o, p, numRounds).calls, k);
  }

  /**
   * The hand-off of the shared history: each call after the first receives
   * exactly the history of the call before it extended by that call's new
   * messages; in particular the negative turn of a round sees the affirmative
   * turn of the same round.
   */
  lemma HistoryHandOff<M>(o: Oracle<M>, p: Prompts, numRounds: int, k: nat)
    requires k + 1 < |Debate(o, p, numRounds).calls|
    ensures var cs := Debate(o, p, numRounds).calls;
      o(cs[k]).Some? && cs[k + 1].history == cs[k].history + o(cs[k]).value.newMessages
  {
    DebateTrace(o, p, numRounds);
    var cs := Debate(o, p, numRounds).calls;
    var n := RoundCount(numRounds);
    assert OnScheduleAt(o, p, n, cs, k) && OnScheduleAt(o, p, n, cs, k + 1);
    assert cs[..|cs| - 1][k] == cs[k];
    ScheduledHandOff(o, p, n, cs, k);
  }

  /** Two consecutive scheduled calls: the later one receives the earlier one's history and its new messages. */
  lemma ScheduledHandOff<M>(o: Oracle<M>, p: Prompts, n: nat, cs: seq<Call<M>>, k: nat)
    requires OnScheduleAt(o, p, n, cs, k) && OnScheduleAt(o, p, n, cs, k + 1) && o(cs[k]).Some?
    ensures cs[k + 1].history == cs[k].history + o(cs[k]).value.newMessages
  {
    assert cs[..k + 1] == cs[..k] + [cs[k]];
    ProducedAppend(o, cs[..k], cs[k]);
  }

  /** History is append-only: the history any call receives is a prefix of the history every later call receives. */
  lemma HistoryOnlyGrows<M>(o: Oracle<M>, p: Prompts, numRounds: int, i: nat, j: nat)
    requires i <= j < |Debate(o, p, numRounds).calls|
    ensures var cs := Debate(o, p, numRounds).calls; cs[i].history <= cs[j].history
  {
    DebateTrace(o, p, numRounds);
    var cs := Debate(o, p, numRounds).calls;
    assert OnScheduleAt(o, p, RoundCount(numRounds), cs, i) && OnScheduleAt(o, p, RoundCount(numRounds), cs, j);
    ProducedPrefix(o, cs, i, j);
  }

  /** With no rounds the only call is the summary call, on an empty history; success returns an empty transcript. */
  lemma NoRounds<M>(o: Oracle<M>, p: Prompts, numRounds: int)
    requires numRounds <= 0
    ensures var c := Call(0, OpenAi, p.summary, []);
      Debate(o, p, numRounds)
      == if o(c).Some? then Outcome(Some([]), Some(o(c).value.data), [c]) else Outcome(None, None, [c])
  {
  }
}
