/**
 * The lifetime of one call in modules/telephony/voice-agent.py: _handle_call with its helpers. What
 * the outside does (recordings, the Gemini service, the event socket, the clock, the caller's keys)
 * is chosen arbitrarily at each operation; writing to the transcript succeeds.
 */
module CallHandler {
  import opened Wrappers
  import JsonExtract

  datatype Role = Caller | Agent

  datatype Reason =
    | Silence | AgentEnd | TurnOrTimeLimit | Transferred | TransferUnavailable | ErrorFarewell
    | NotConfigured | TransferredUnconfigured | Error

  /** The lines of a call's transcript. */
  datatype Record = Start | Turn(role: Role, text: string) | End(reason: Reason)

  /** The commands that take the call away from the agent. */
  datatype Command = UuidTransfer | UuidKill

  /** `configured` is an API key and at least one greeting. */
  datatype Config = Config(configured: bool, destination: bool, maxTurns: nat)

  /** What an operation of the outside comes to: a value, an error the handler deals with, or any other exception. */
  datatype Outcome<T> = Got(value: T) | Handled | Raised

  datatype Action = Talk | Transfer | Hangup

  // ----- what the records and the commands of a call are

  /** Caller and agent in turn, the caller first. */
  predicate Alternates(turns: seq<Record>) {
    forall i :: 0 <= i < |turns| ==> turns[i].Turn? && turns[i].role == if i % 2 == 0 then Caller else Agent
  }

  /** The reason given for the end, against the turns before it and the command that was issued. */
  predicate Fits(cfg: Config, reason: Reason, turns: seq<Record>, commands: seq<Command>) {
    var answered := |turns| % 2 == 0;
    match reason
    case Error => |commands| <= 1 && (UuidTransfer in commands ==> cfg.destination)
    case Silence => commands == [UuidKill] && answered
    case TurnOrTimeLimit => commands == [UuidKill] && answered
    case AgentEnd => commands == [UuidKill] && answered && turns != []
    case Transferred => commands == [UuidTransfer] && cfg.destination && cfg.configured
    case TransferUnavailable => commands == [UuidKill] && !cfg.destination && answered
    case ErrorFarewell => commands == [UuidKill] && !cfg.destination && !answered
    case NotConfigured => commands == [UuidKill] && !cfg.configured && !cfg.destination && turns == []
    case TransferredUnconfigured => commands == [UuidTransfer] && !cfg.configured && cfg.destination && turns == []
  }

  /** Either an exception got out, and no end is written yet, or the last record is the end. */
  predicate Leaves(cfg: Config, records: seq<Record>, commands: seq<Command>, raised: bool) {
    if raised then Alternates(records) && Fits(cfg, Error, records, commands)
    else
      && records != [] && records[|records| - 1].End? && records[|records| - 1].reason != Error
      && Alternates(records[..|records| - 1])
      && Fits(cfg, records[|records| - 1].reason, records[..|records| - 1], commands)
  }

  // ----- the helpers

  /** Playing something on the call: any exception may come of it. */
  method Broadcast() returns (raised: bool)
  {
    raised := *;
  }

  /** Speech that cannot be made becomes a tone. */
  method SpeakLine(text: string) returns (raised: bool)
    ensures text == "" ==> !raised
  {
    if text == "" { return false; }
    var speech: Outcome<()> := *;
    if speech.Raised? { return true; }
    raised := Broadcast();
  }

  /** A command is issued, and may raise all the same. */
  method Issue(command: Command) returns (commands: seq<Command>, raised: bool)
    ensures commands == [command]
  {
    commands := [command];
    raised := *;
  }

  /** `turns` are the records so far; the records returned come after them. */
  method RouteTransferOrEnd(cfg: Config, forced: bool, turns: seq<Record>)
      returns (records: seq<Record>, commands: seq<Command>, raised: bool)
    requires cfg.configured && Alternates(turns) && (forced <==> |turns| % 2 == 1)
    ensures Leaves(cfg, turns + records, commands, raised)
    ensures cfg.destination ==> commands == [UuidTransfer]
    ensures !cfg.destination ==> UuidTransfer !in commands && (!raised ==> commands == [UuidKill])
    ensures records == if raised then []
                       else [End(if cfg.destination then Transferred
                                 else if forced then ErrorFarewell else TransferUnavailable)]
  {
    records, commands, raised := [], [], false;
    assert turns + [] == turns;
    if cfg.destination {
      commands, raised := Issue(UuidTransfer);
      if raised { return; }
      records := [End(Transferred)];
    } else {
      if !forced {
        raised := SpeakLine("goodbye");
        if raised { return; }
      }
      commands, raised := Issue(UuidKill);
      if raised { return; }
      records := [End(if forced then ErrorFarewell else TransferUnavailable)];
    }
    assert (turns + records)[..|turns + records| - 1] == turns;
  }

  method FinishCall(cfg: Config) returns (records: seq<Record>, commands: seq<Command>, raised: bool)
    requires !cfg.configured
    ensures Leaves(cfg, records, commands, raised)
    ensures cfg.destination ==> commands == [UuidTransfer]
    ensures !cfg.destination ==> UuidTransfer !in commands && (!raised ==> commands == [UuidKill])
    ensures records == if raised then [] else [End(if cfg.destination then TransferredUnconfigured else NotConfigured)]
  {
    records, commands, raised := [], [], false;
    if cfg.destination {
      commands, raised := Issue(UuidTransfer);
      if raised { return; }
      records := [End(TransferredUnconfigured)];
    } else {
      raised := Broadcast();
      if raised { return; }
      commands, raised := Issue(UuidKill);
      if raised { return; }
      records := [End(NotConfigured)];
    }
    assert records[..|records| - 1] == [];
  }

  /** One last line, the hangup and the end record. */
  method SayAndEnd(cfg: Config, line: string, reason: Reason, turns: seq<Record>)
      returns (records: seq<Record>, commands: seq<Command>, raised: bool)
    requires Alternates(turns) && reason != Error && Fits(cfg, reason, turns, [UuidKill])
    ensures Leaves(cfg, turns + records, commands, raised)
    ensures records == if raised then [] else [End(reason)]
  {
    records, commands := [], [];
    assert turns + [] == turns;
    raised := SpeakLine(line);
    if raised { return; }
    commands, raised := Issue(UuidKill);
    if raised { return; }
    records := [End(reason)];
    assert (turns + records)[..|turns + records| - 1] == turns;
  }

  /** Recording and transcribing: "" when there was nothing to hear or the transcription failed. */
  method HearTurn() returns (text: string, raised: bool)
  {
    text := "";
    var recording: Outcome<bool> := *;
    if recording.Raised? { return "", true; }
    if recording.Got? && recording.value {
      var heard: Outcome<string> := *;
      if heard.Raised? { return "", true; }
      if heard.Got? { text := heard.value; }
    }
    raised := false;
  }

  predicate Blank(text: string) { forall i :: 0 <= i < |text| ==> JsonExtract.IsSpace(text[i]) }

  /** What the caller said, of what was heard: the turns that are not blank. */
  function Said(heard: seq<string>): seq<string> {
    if heard == [] then []
    else
      var last := heard[|heard| - 1];
      Said(heard[..|heard| - 1]) + if Blank(last) then [] else [last]
  }

  function CallerTurns(records: seq<Record>): seq<string> {
    if records == [] then []
    else
      var last := records[|records| - 1];
      CallerTurns(records[..|records| - 1]) + if last.Turn? && last.role == Caller then [last.text] else []
  }

  /** How many blank turns there were in a row at the end. */
  function TrailingBlanks(heard: seq<string>): nat {
    if heard == [] || !Blank(heard[|heard| - 1]) then 0 else 1 + TrailingBlanks(heard[..|heard| - 1])
  }

  /** What became of asking the chat: its words and what it wants done. */
  type Reply = Outcome<(string, Action)>

  function Words(replies: seq<Reply>): seq<string> {
    if replies == [] then []
    else
      var last := replies[|replies| - 1];
      Words(replies[..|replies| - 1]) + if last.Got? then [last.value.0] else []
  }

  function AgentTurns(records: seq<Record>): seq<string> {
    if records == [] then []
    else
      var last := records[|records| - 1];
      AgentTurns(records[..|records| - 1]) + if last.Turn? && last.role == Agent then [last.text] else []
  }

  predicate Chatting(reply: Reply) { reply.Got? && reply.value.1 == Talk }

  /** The turns on record are what was heard and what was answered, and only the last answer ends the talk. */
  predicate Recorded(heard: seq<string>, replies: seq<Reply>, records: seq<Record>) {
    && CallerTurns(records) == Said(heard) && AgentTurns(records) == Words(replies)
    && |replies| == |Said(heard)| && forall i :: 0 <= i < |replies| - 1 ==> Chatting(replies[i])
  }

  /**
   * Why a call ends: three blank turns in a row, else what the last answer asks for, else the caller's
   * key, else the limit on turns or on time.
   */
  predicate Ends(cfg: Config, outside: Outside, heard: seq<string>, replies: seq<Reply>, reason: Reason) {
    var keyed := outside.pressedAtEnd || (|heard| < cfg.maxTurns && !outside.late(|heard|) && outside.pressed(|heard|));
    if TrailingBlanks(heard) == 3 then reason == Silence
    else if replies != [] && replies[|replies| - 1].Handled? then
      reason == if cfg.destination then Transferred else ErrorFarewell
    else if replies != [] && replies[|replies| - 1].Got? && replies[|replies| - 1].value.1 == Hangup then
      reason == AgentEnd
    else if keyed || (replies != [] && replies[|replies| - 1].Got? && replies[|replies| - 1].value.1 == Transfer) then
      reason == if cfg.destination then Transferred else TransferUnavailable
    else reason == TurnOrTimeLimit && (|heard| == cfg.maxTurns || outside.late(|heard|))
  }

  /** An end record is no turn. */
  lemma RecordedEnd(heard: seq<string>, replies: seq<Reply>, turns: seq<Record>, last: seq<Record>)
    requires Recorded(heard, replies, turns) && (last == [] || (|last| == 1 && last[0].End?))
    ensures Recorded(heard, replies, turns + last)
  {
    if last == [] {
      assert turns + last == turns;
    } else {
      assert (turns + last)[..|turns|] == turns;
    }
  }

  lemma HeardMore(heard: seq<string>, text: string)
    ensures Said(heard + [text]) == Said(heard) + if Blank(text) then [] else [text]
    ensures TrailingBlanks(heard + [text]) == if Blank(text) then TrailingBlanks(heard) + 1 else 0
  {
    assert (heard + [text])[..|heard|] == heard;
  }

  lemma TurnMore(records: seq<Record>, role: Role, text: string)
    ensures CallerTurns(records + [Turn(role, text)]) == CallerTurns(records) + if role == Caller then [text] else []
    ensures AgentTurns(records + [Turn(role, text)]) == AgentTurns(records) + if role == Agent then [text] else []
  {
    assert (records + [Turn(role, text)])[..|records|] == records;
  }

  lemma WordsMore(replies: seq<Reply>, reply: Reply)
    ensures Words(replies + [reply]) == Words(replies) + if reply.Got? then [reply.value.0] else []
  {
    assert (replies + [reply])[..|replies|] == replies;
  }

  /** Between two turns of the loop. */
  predicate Open(heard: seq<string>, replies: seq<Reply>, records: seq<Record>) {
    && Alternates(records) && |records| % 2 == 0 && |records| <= 2 * |heard|
    && Recorded(heard, replies, records) && TrailingBlanks(heard) < 3
    && forall i :: 0 <= i < |replies| ==> Chatting(replies[i])
  }

  /** What each turn was heard as, and what the chat replied. */
  datatype Talked = Talked(heard: seq<string>, replies: seq<Reply>)

  /** Before turn n, whether the deadline is past and whether the caller has pressed the key; and the key at the end. */
  datatype Outside = Outside(late: nat -> bool, pressed: nat -> bool, pressedAtEnd: bool)

  /** The conversation is over. */
  predicate Closed(cfg: Config, outside: Outside, t: Talked, records: seq<Record>, commands: seq<Command>,
                   raised: bool) {
    && Leaves(cfg, records, commands, raised) && Recorded(t.heard, t.replies, records)
    && TrailingBlanks(t.heard) <= 3 && |records| <= 2 * |t.heard| + 1
    && (!raised ==> Ends(cfg, outside, t.heard, t.replies, records[|records| - 1].reason))
  }

  lemma HeardBlank(before: seq<string>, heard: seq<string>, replies: seq<Reply>, records: seq<Record>, text: string)
    requires Open(before, replies, records) && heard == before + [text] && Blank(text)
    ensures Recorded(heard, replies, records) && TrailingBlanks(heard) == TrailingBlanks(before) + 1
  {
    HeardMore(before, text);
    assert Said(before) + [] == Said(before);
  }

  lemma AlternatesPush(turns: seq<Record>, role: Role, text: string)
    requires Alternates(turns) && role == if |turns| % 2 == 0 then Caller else Agent
    ensures Alternates(turns + [Turn(role, text)])
  {
  }

  /** The caller has said something, and it is the chat's turn. */
  predicate Asked(heard: seq<string>, replies: seq<Reply>, turns: seq<Record>) {
    && Alternates(turns) && |turns| % 2 == 1 && |turns| < 2 * |heard|
    && CallerTurns(turns) == Said(heard) && AgentTurns(turns) == Words(replies)
    && |replies| + 1 == |Said(heard)| && TrailingBlanks(heard) == 0
    && forall i :: 0 <= i < |replies| ==> Chatting(replies[i])
  }

  lemma HeardWords(before: seq<string>, heard: seq<string>, replies: seq<Reply>, records: seq<Record>, text: string)
    requires Open(before, replies, records) && heard == before + [text] && !Blank(text)
    ensures Asked(heard, replies, records + [Turn(Caller, text)])
  {
    var turns := records + [Turn(Caller, text)];
    AlternatesPush(records, Caller, text);
    HeardMore(before, text);
    TurnMore(records, Caller, text);
    assert AgentTurns(records) + [] == AgentTurns(records);
  }

  /** A reply that is no answer leaves the turns as they are. */
  lemma Unanswered(heard: seq<string>, before: seq<Reply>, replies: seq<Reply>, turns: seq<Record>, reply: Reply)
    requires Asked(heard, before, turns) && replies == before + [reply] && !reply.Got?
    ensures Recorded(heard, replies, turns)
  {
    WordsMore(before, reply);
    assert Words(before) + [] == Words(before);
  }

  lemma Answered(
    heard: seq<string>, before: seq<Reply>, replies: seq<Reply>, turns: seq<Record>, words: string, action: Action)
    requires Asked(heard, before, turns) && replies == before + [Got((words, action))]
    ensures var all := turns + [Turn(Agent, words)];
            && Recorded(heard, replies, all) && Alternates(all) && |all| % 2 == 0 && |all| <= 2 * |heard|
            && (action == Talk ==> Open(heard, replies, all))
  {
    AlternatesPush(turns, Agent, words);
    TurnMore(turns, Agent, words);
    WordsMore(before, Got((words, action)));
    assert CallerTurns(turns) + [] == CallerTurns(turns);
  }

  datatype Next = GoesOn | Transfers | Over

  /** The conversation ends with a line and the hangup. */
  method EndWith(cfg: Config, ghost outside: Outside, ghost t: Talked, turns: seq<Record>, line: string, reason: Reason)
      returns (records: seq<Record>, commands: seq<Command>, raised: bool)
    requires Alternates(turns) && reason != Error && Fits(cfg, reason, turns, [UuidKill])
    requires |turns| <= 2 * |t.heard| && Recorded(t.heard, t.replies, turns) && TrailingBlanks(t.heard) <= 3
    requires Ends(cfg, outside, t.heard, t.replies, reason)
    ensures Closed(cfg, outside, t, records, commands, raised)
  {
    var last;
    last, commands, raised := SayAndEnd(cfg, line, reason, turns);
    RecordedEnd(t.heard, t.replies, turns, last);
    records := turns + last;
  }

  /** The conversation ends with a transfer, or with goodbye. */
  method Route(cfg: Config, ghost outside: Outside, ghost t: Talked, turns: seq<Record>, forced: bool)
      returns (records: seq<Record>, commands: seq<Command>, raised: bool)
    requires cfg.configured && Alternates(turns) && (forced <==> |turns| % 2 == 1)
    requires |turns| <= 2 * |t.heard| && Recorded(t.heard, t.replies, turns) && TrailingBlanks(t.heard) < 3
    requires Ends(cfg, outside, t.heard, t.replies,
                  if cfg.destination then Transferred else if forced then ErrorFarewell else TransferUnavailable)
    ensures Closed(cfg, outside, t, records, commands, raised)
  {
    var last;
    last, commands, raised := RouteTransferOrEnd(cfg, forced, turns);
    RecordedEnd(t.heard, t.replies, turns, last);
    records := turns + last;
  }

  /** The caller said something: the chat's reply, and what it asks for. */
  method Answer(cfg: Config, ghost outside: Outside, ghost heard: seq<string>, ghost before: seq<Reply>,
                turns: seq<Record>)
      returns (records: seq<Record>, commands: seq<Command>, raised: bool, next: Next, reply: Reply)
    requires cfg.configured && Asked(heard, before, turns)
    ensures next.Over? ==> Closed(cfg, outside, Talked(heard, before + [reply]), records, commands, raised)
    ensures !next.Over? ==> commands == [] && !raised
    ensures next.GoesOn? ==> Open(heard, before + [reply], records)
    ensures next.Transfers? ==> Handing(heard, before + [reply], records)
  {
    records, commands, raised, next := turns, [], false, Over;
    reply := *;
    ghost var replies := before + [reply];
    match reply
    case Raised =>
      Unanswered(heard, before, replies, turns, reply);
      raised := true;
    case Handled =>
      Unanswered(heard, before, replies, turns, reply);
      raised := SpeakLine("chat error");
      if !raised { records, commands, raised := Route(cfg, outside, Talked(heard, replies), turns, true); }
    case Got(answer) =>
      var words, action := answer.0, answer.1;
      Answered(heard, before, replies, turns, words, action);
      records := turns + [Turn(Agent, words)];
      records, commands, raised, next := Act(cfg, outside, heard, replies, records, words, action);
  }

  /** The agent has had its turn, and the call is to be handed over. */
  predicate Handing(heard: seq<string>, replies: seq<Reply>, records: seq<Record>) {
    && Alternates(records) && |records| % 2 == 0 && |records| <= 2 * |heard|
    && Recorded(heard, replies, records) && TrailingBlanks(heard) == 0
    && replies != [] && replies[|replies| - 1].Got? && replies[|replies| - 1].value.1 == Transfer
  }

  /** What the agent's turn asks for. */
  method Act(cfg: Config, ghost outside: Outside, ghost heard: seq<string>, ghost replies: seq<Reply>,
             turns: seq<Record>, words: string,
             action: Action)
      returns (records: seq<Record>, commands: seq<Command>, raised: bool, next: Next)
    requires cfg.configured && Alternates(turns) && turns != [] && |turns| % 2 == 0 && |turns| <= 2 * |heard|
    requires Recorded(heard, replies, turns) && TrailingBlanks(heard) == 0
    requires replies != [] && replies[|replies| - 1] == Got((words, action))
    ensures next.Over? ==> Closed(cfg, outside, Talked(heard, replies), records, commands, raised)
    ensures !next.Over? ==> commands == [] && !raised && records == turns
    ensures !next.Over? ==> action == if next.Transfers? then Transfer else Talk
  {
    records, commands, next := turns, [], Over;
    if action == Transfer {
      raised := SpeakLine(if words != "" then words else "connecting");
      if !raised { next := Transfers; }
    } else if action == Hangup {
      records, commands, raised :=
        EndWith(cfg, outside, Talked(heard, replies), turns, if words != "" then words else "goodbye", AgentEnd);
    } else {
      raised := SpeakLine(words);
      if !raised { next := GoesOn; }
    }
  }

  /** Neither the deadline nor the key comes before one of the first n turns. */
  predicate Undisturbed(outside: Outside, n: nat) {
    forall i :: 0 <= i < n ==> !outside.late(i) && !outside.pressed(i)
  }

  /** One turn of the loop; `next` says whether another may follow. */
  method TakeTurn(cfg: Config, ghost outside: Outside, before: Talked, turns: seq<Record>, blanks: nat)
      returns (records: seq<Record>, commands: seq<Command>, raised: bool, next: Next, talked: Talked, emptyTurns: nat)
    requires cfg.configured && Open(before.heard, before.replies, turns) && blanks == TrailingBlanks(before.heard)
    ensures next.Over? ==> Closed(cfg, outside, talked, records, commands, raised)
    ensures !next.Over? ==> commands == [] && !raised
    ensures next.GoesOn? ==> Open(talked.heard, talked.replies, records) && emptyTurns == TrailingBlanks(talked.heard)
    ensures next.Transfers? ==> Handing(talked.heard, talked.replies, records)
    ensures (raised && talked == before) || |talked.heard| == |before.heard| + 1
  {
    records, commands, next, talked, emptyTurns := turns, [], Over, before, 0;
    var text;
    text, raised := HearTurn();
    if raised { return; }
    var heard := before.heard + [text];
    talked := Talked(heard, before.replies);
    if Blank(text) {
      HeardBlank(before.heard, heard, before.replies, records, text);
      emptyTurns := blanks + 1;
      if emptyTurns >= 3 {
        records, commands, raised := EndWith(cfg, outside, talked, records, "silence", Silence);
      } else {
        next := GoesOn;
      }
    } else {
      HeardWords(before.heard, heard, before.replies, records, text);
      records := records + [Turn(Caller, text)];
      var reply;
      records, commands, raised, next, reply := Answer(cfg, outside, heard, before.replies, records);
      talked := Talked(heard, before.replies + [reply]);
    }
  }

  /**
   * The loop of _handle_call, from the greeting's end. Returned with its records and commands: what
   * each turn was heard as and what the chat replied. No turn is begun after the deadline or the key.
   */
  method Converse(cfg: Config, outside: Outside)
      returns (records: seq<Record>, commands: seq<Command>, raised: bool, talked: Talked)
    requires cfg.configured
    ensures |talked.heard| <= cfg.maxTurns && Closed(cfg, outside, talked, records, commands, raised)
    ensures Undisturbed(outside, |talked.heard|)
  {
    records, commands, raised, talked := [], [], false, Talked([], []);
    var turns, emptyTurns, requested, pendingTransfer := 0, 0, false, false;
    while turns < cfg.maxTurns
      invariant |talked.heard| == turns <= cfg.maxTurns && Open(talked.heard, talked.replies, records)
      invariant emptyTurns == TrailingBlanks(talked.heard)
      invariant !pendingTransfer && !requested
      invariant Undisturbed(outside, turns)
      decreases cfg.maxTurns - turns
    {
      if outside.late(turns) { break; }
      if outside.pressed(turns) {
        requested := true;
        break;
      }
      var next;
      records, commands, raised, next, talked, emptyTurns := TakeTurn(cfg, outside, talked, records, emptyTurns);
      if next.Over? { return; }
      if next.Transfers? {
        pendingTransfer := true;
        break;
      }
      turns := turns + 1;
    }
    records, commands, raised, talked :=
        Close(cfg, outside, talked.heard, talked.replies, records, requested, pendingTransfer);
  }

  /** The loop is over without an end record; the caller may have pressed the key in the meantime. */
  method Close(cfg: Config, outside: Outside, heard: seq<string>, replies: seq<Reply>, turns: seq<Record>,
               requested: bool, pendingTransfer: bool)
      returns (records: seq<Record>, commands: seq<Command>, raised: bool, talked: Talked)
    requires cfg.configured && |heard| <= cfg.maxTurns
    requires if pendingTransfer then Handing(heard, replies, turns) else Open(heard, replies, turns)
    requires !pendingTransfer ==>
               requested == (|heard| < cfg.maxTurns && !outside.late(|heard|) && outside.pressed(|heard|))
    requires pendingTransfer || requested || |heard| == cfg.maxTurns || outside.late(|heard|)
    ensures talked.heard == heard && Closed(cfg, outside, talked, records, commands, raised)
  {
    talked := Talked(heard, replies);
    if requested || outside.pressedAtEnd || pendingTransfer {
      records, commands, raised := Route(cfg, outside, talked, turns, false);
    } else {
      records, commands, raised := EndWith(cfg, outside, talked, turns, "time up", TurnOrTimeLimit);
    }
  }

  /**
   * The whole call. With both directories in place there is exactly one end record and it is the
   * last, whatever the outside does; its reason fits the one command issued. Without them nothing is
   * written at all: the transcript's path is not known yet when the second directory fails.
   */
  method HandleCall(cfg: Config, outside: Outside, transcriptsDir: bool, turnsDir: bool)
      returns (records: seq<Record>, commands: seq<Command>)
    ensures |commands| <= 1 && (UuidTransfer in commands ==> cfg.destination)
    ensures transcriptsDir && turnsDir ==>
              && |records| >= 2 && records[0] == Start && records[|records| - 1].End?
              && Alternates(records[1..|records| - 1])
              && Fits(cfg, records[|records| - 1].reason, records[1..|records| - 1], commands)
    ensures !(transcriptsDir && turnsDir) ==> records == [] && commands == []
  {
    if !transcriptsDir || !turnsDir { return [], []; }
    var rest, raised;
    if !cfg.configured {
      rest, commands, raised := FinishCall(cfg);
    } else {
      rest, commands := [], [];
      raised := Broadcast();
      if !raised {
        var talked;
        rest, commands, raised, talked := Converse(cfg, outside);
      }
    }
    if raised {
      EndOfError(cfg, rest, commands);
      rest := rest + [End(Error)];
    }
    records := [Start] + rest;
    assert records[1..|records| - 1] == rest[..|rest| - 1];
  }

  lemma EndOfError(cfg: Config, turns: seq<Record>, commands: seq<Command>)
    requires Leaves(cfg, turns, commands, true)
    ensures var all := turns + [End(Error)];
            Alternates(all[..|all| - 1]) && Fits(cfg, Error, all[..|all| - 1], commands)
  {
    assert (turns + [End(Error)])[..|turns|] == turns;
  }

  /** So an end record is written exactly when both directories could be made. */
  lemma OneEndAndLast(records: seq<Record>)
    requires |records| >= 2 && records[0] == Start && records[|records| - 1].End?
             && Alternates(records[1..|records| - 1])
    ensures forall i :: 0 <= i < |records| ==> (records[i].End? <==> i == |records| - 1)
  {
    forall i | 0 < i < |records| - 1 ensures !records[i].End? { assert records[i] == records[1..|records| - 1][i - 1]; }
  }
}
