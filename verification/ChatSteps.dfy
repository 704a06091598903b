/** GeminiClient.chat of modules/telephony/voice-agent.py: the turns of a call as alternating steps. */
module ChatSteps {

  datatype Side = UserInput | ModelOutput

  datatype Turn = Turn(side: Side, text: string)

  const CONTINUE := "(continue)"

  /** A turn of the side that spoke last becomes a line of its step. */
  function Add(steps: seq<Turn>, turn: Turn): seq<Turn> {
    if steps != [] && steps[|steps| - 1].side == turn.side
    then steps[..|steps| - 1] + [Turn(turn.side, steps[|steps| - 1].text + "\n" + turn.text)]
    else steps + [turn]
  }

  function Merged(turns: seq<Turn>): seq<Turn> {
    if turns == [] then [] else Add(Merged(turns[..|turns| - 1]), turns[|turns| - 1])
  }

  function Steps(turns: seq<Turn>): seq<Turn> {
    var merged := Merged(turns);
    if merged == [] || merged[|merged| - 1].side == ModelOutput then merged + [Turn(UserInput, CONTINUE)] else merged
  }

  method Chat(turns: seq<Turn>) returns (steps: seq<Turn>)
    ensures steps == Steps(turns)
  {
    steps := [];
    var i := 0;
    while i < |turns|
      invariant i <= |turns| && steps == Merged(turns[..i])
    {
      assert turns[..i + 1][..i] == turns[..i];
      var turn := turns[i];
      if steps != [] && steps[|steps| - 1].side == turn.side {
        steps := steps[..|steps| - 1] + [Turn(turn.side, steps[|steps| - 1].text + "\n" + turn.text)];
      } else {
        steps := steps + [turn];
      }
      i := i + 1;
    }
    assert turns[..i] == turns;
    if steps == [] || steps[|steps| - 1].side == ModelOutput { steps := steps + [Turn(UserInput, CONTINUE)]; }
  }

  predicate Alternate(steps: seq<Turn>) { forall i :: 0 < i < |steps| ==> steps[i].side != steps[i - 1].side }

  lemma {:induction false} MergedAlternates(turns: seq<Turn>)
    ensures Alternate(Merged(turns))
    ensures turns != [] ==> Merged(turns) != [] && Merged(turns)[|Merged(turns)| - 1].side == turns[|turns| - 1].side
    decreases |turns|
  {
    if turns != [] {
      MergedAlternates(turns[..|turns| - 1]);
      AddAlternates(Merged(turns[..|turns| - 1]), turns[|turns| - 1]);
    }
  }

  lemma AddAlternates(steps: seq<Turn>, turn: Turn)
    requires Alternate(steps)
    ensures var more := Add(steps, turn); Alternate(more) && more != [] && more[|more| - 1].side == turn.side
  {
  }

  /** The API gets alternating steps, of which the last is the user's; the padding comes only after the model's word. */
  lemma StepsAlternate(turns: seq<Turn>)
    ensures var steps := Steps(turns);
            && Alternate(steps) && steps != [] && steps[|steps| - 1].side == UserInput
            && steps == if turns != [] && turns[|turns| - 1].side == UserInput then Merged(turns)
                        else Merged(turns) + [Turn(UserInput, "(continue)")]
  {
    MergedAlternates(turns);
    if turns == [] { assert Merged(turns) == []; }
  }

  /** The turns of one side read back from a step, line by line. */
  function Lines(side: Side, text: string, line: string): seq<Turn> {
    if text == "" then [Turn(side, line)]
    else if text[0] == '\n' then [Turn(side, line)] + Lines(side, text[1..], "")
    else Lines(side, text[1..], line + [text[0]])
  }

  function ReadBack(steps: seq<Turn>): seq<Turn> {
    if steps == [] then []
    else ReadBack(steps[..|steps| - 1]) + Lines(steps[|steps| - 1].side, steps[|steps| - 1].text, "")
  }

  lemma {:induction false} OneLine(side: Side, text: string, line: string)
    requires '\n' !in text
    ensures Lines(side, text, line) == [Turn(side, line + text)]
    decreases |text|
  {
    if text == "" {
      assert line + text == line;
    } else {
      OneLine(side, text[1..], line + [text[0]]);
      assert line + [text[0]] + text[1..] == line + text;
    }
  }

  lemma {:induction false} OneMoreLine(side: Side, text: string, more: string, line: string)
    requires '\n' !in more
    ensures Lines(side, text + "\n" + more, line) == Lines(side, text, line) + [Turn(side, more)]
    decreases |text|
  {
    var all := text + "\n" + more;
    if text == "" {
      assert all[0] == '\n' && all[1..] == more;
      OneLine(side, more, "");
      assert "" + more == more;
    } else {
      assert all[0] == text[0] && all[1..] == text[1..] + "\n" + more;
      if text[0] == '\n' {
        OneMoreLine(side, text[1..], more, "");
      } else {
        OneMoreLine(side, text[1..], more, line + [text[0]]);
      }
    }
  }

  lemma ReadBackLast(steps: seq<Turn>, step: Turn)
    ensures ReadBack(steps + [step]) == ReadBack(steps) + Lines(step.side, step.text, "")
  {
    assert (steps + [step])[..|steps|] == steps;
  }

  /** Nothing of a conversation of one-line turns is lost in the merge, reordered or given to the other side. */
  lemma {:induction false} MergeKeepsTurns(turns: seq<Turn>)
    requires forall i :: 0 <= i < |turns| ==> '\n' !in turns[i].text
    ensures ReadBack(Merged(turns)) == turns
    decreases |turns|
  {
    if turns != [] {
      var rest, last := turns[..|turns| - 1], turns[|turns| - 1];
      MergeKeepsTurns(rest);
      assert rest + [last] == turns;
      AddReadsBack(Merged(rest), last);
    }
  }

  lemma AddReadsBack(steps: seq<Turn>, turn: Turn)
    requires '\n' !in turn.text
    ensures ReadBack(Add(steps, turn)) == ReadBack(steps) + [turn]
  {
    if steps != [] && steps[|steps| - 1].side == turn.side {
      var kept, joined := steps[..|steps| - 1], steps[|steps| - 1];
      assert kept + [joined] == steps;
      ReadBackLast(kept, joined);
      ReadBackLast(kept, Turn(turn.side, joined.text + "\n" + turn.text));
      OneMoreLine(turn.side, joined.text, turn.text, "");
    } else {
      ReadBackLast(steps, turn);
      OneLine(turn.side, turn.text, "");
      assert "" + turn.text == turn.text;
    }
  }
}
