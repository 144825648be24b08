/**
 * The framing of the prompts `run_debate` builds: round 0 gives each side its
 * stance and its own background document, every later round gives it the
 * rebuttal wording, the opponent's document and the same stance again, and
 * the summary prompt depends on the topic alone.
 */
module PromptFraming {
  import opened Orchestrator

  /** The background document uploaded for `side`. */
  function OwnDocument(side: Side, affDoc: string, negDoc: string): string
  {
    if side == Affirmative then affDoc else negDoc
  }

  /**
   * The prompt of `side` in round `round`: in round 0 it opens with the
   * side's stance and the topic and ends with the side's own document; from
   * round 1 on it opens with the rebuttal wording followed by the opponent's
   * document and ends by telling the side to keep arguing the same stance on
   * the topic. Every one ends with the 100-word limit, and its first letter
   * tells the opening from a rebuttal.
   */
  lemma TurnPromptFraming(topic: string, affDoc: string, negDoc: string, side: Side, round: nat)
    ensures var s := Prompt(DebatePrompts(topic, affDoc, negDoc), side, round);
      && (round == 0 ==>
            YouAreArguing + StanceWord(side) + topic <= s && EndsWith(s, OwnDocument(side, affDoc, negDoc) + WordLimit))
      && (round > 0 ==>
            && RebuttalLead(side) + OwnDocument(Opponent(side), affDoc, negDoc) <= s
            && EndsWith(s, ContinueArguing + StanceWord(side) + topic + WordLimit))
      && (s[0] == 'Y' <==> round == 0)
  {
    if round == 0 {
      assert Prompt(DebatePrompts(topic, affDoc, negDoc), side, round) == OpeningPrompt(side, topic, OwnDocument(side, affDoc, negDoc));
    } else {
      assert Prompt(DebatePrompts(topic, affDoc, negDoc), side, round) == RebuttalPrompt(side, topic, OwnDocument(Opponent(side), affDoc, negDoc));
    }
  }

  /** The opening prompt is used in round 0 and in no later round. */
  lemma OpeningOnlyInRoundZero(topic: string, affDoc: string, negDoc: string, side: Side, round: nat)
    ensures var p := DebatePrompts(topic, affDoc, negDoc);
      Prompt(p, side, round) == Prompt(p, side, 0) <==> round == 0
  {
    TurnPromptFraming(topic, affDoc, negDoc, side, round);
    TurnPromptFraming(topic, affDoc, negDoc, side, 0);
  }

  /** An opening depends on the topic and the side's own document only: the opponent's document does not appear in it. */
  lemma OpeningIgnoresOpponentDocument(topic: string, affDoc: string, negDoc: string, otherDoc: string, side: Side)
    ensures var theirs := if side == Affirmative then DebatePrompts(topic, affDoc, otherDoc) else DebatePrompts(topic, otherDoc, negDoc);
      Prompt(DebatePrompts(topic, affDoc, negDoc), side, 0) == Prompt(theirs, side, 0)
  {
  }

  /**
   * A rebuttal depends on the topic and the opponent's document only: the
   * side's own document does not appear in it.
   */
  lemma RebuttalIgnoresOwnDocument(topic: string, affDoc: string, negDoc: string, otherDoc: string, side: Side, round: nat)
    requires round > 0
    ensures var mine := if side == Affirmative then DebatePrompts(topic, otherDoc, negDoc) else DebatePrompts(topic, affDoc, otherDoc);
      Prompt(DebatePrompts(topic, affDoc, negDoc), side, round) == Prompt(mine, side, round)
  {
  }

  /**
   * The summary prompt depends on the topic only, and it is none of the
   * prompts the two sides receive during the rounds.
   */
  lemma SummaryFraming(topic: string, affDoc: string, negDoc: string, otherAff: string, otherNeg: string, side: Side, round: nat)
    ensures var p := DebatePrompts(topic, affDoc, negDoc);
      && p.summary == DebatePrompts(topic, otherAff, otherNeg).summary
      && p.summary != Prompt(p, side, round)
  {
    TurnPromptFraming(topic, affDoc, negDoc, side, round);
  }
}
