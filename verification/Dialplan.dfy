/**
 * The dialplan simulator of packages/telephony-operator/dialplan_sim.py. Regular expressions and
 * int() are parameters; None is an exception. The outcome keeps the application and its data.
 */
module Dialplan {
  import opened Wrappers
  import JsonExtract

  const MAX_TRANSFER_DEPTH: nat := 8

  // ----- the document

  datatype Action = Action(app: string, data: string)

  /** A condition tests a field, or up to five attributes of the time. */
  datatype Test =
    | Field(name: string, expression: Option<string>)
    | Attributes(wday: Option<string>, hour: Option<string>, minute: Option<string>, mday: Option<string>,
                 mon: Option<string>)

  datatype Condition = Condition(test: Test, brk: string, actions: seq<Action>, antiActions: seq<Action>,
                                 nested: seq<Condition>)

  datatype Extension = Extension(name: string, conditions: seq<Condition>)

  type Contexts = map<string, seq<Extension>>

  datatype When = When(wday: int, hour: int, minute: int, mday: int, mon: int)

  datatype Env = Env(search: (string, string) -> Option<bool>, number: string -> Option<int>, now: When)

  /** Every condition in document order. */
  function Flatten(cs: seq<Condition>): seq<Condition> {
    if cs == [] then [] else [cs[0]] + Flatten(cs[0].nested) + Flatten(cs[1..])
  }

  // ----- text

  predicate Blank(c: char) { JsonExtract.IsSpace(c) }

  function StripLeft(s: string): string { if s != "" && Blank(s[0]) then StripLeft(s[1..]) else s }

  function StripRight(s: string): string { if s != "" && Blank(s[|s| - 1]) then StripRight(s[..|s| - 1]) else s }

  function Strip(s: string): string { StripRight(StripLeft(s)) }

  /** The text before the first `c`, and the text after it if there is one. */
  function Cut(s: string, c: char): (string, Option<string>) {
    if s == "" then ("", None)
    else if s[0] == c then ("", Some(s[1..]))
    else
      var rest := Cut(s[1..], c);
      ([s[0]] + rest.0, rest.1)
  }

  function Split(s: string, c: char): seq<string>
    decreases |s|
  {
    var cut := Cut(s, c);
    CutShorter(s, c);
    if cut.1.None? then [cut.0] else [cut.0] + Split(cut.1.value, c)
  }

  lemma {:induction false} CutShorter(s: string, c: char)
    ensures Cut(s, c).1.Some? ==> |Cut(s, c).1.value| < |s|
    decreases |s|
  {
    if s != "" && s[0] != c { CutShorter(s[1..], c); }
  }

  /** str.split(). */
  function Words(s: string, word: string): seq<string> {
    if s == "" then if word == "" then [] else [word]
    else if Blank(s[0]) then (if word == "" then [] else [word]) + Words(s[1..], "")
    else Words(s[1..], word + [s[0]])
  }

  // ----- number ranges

  datatype Eval = Yes | No | Fails

  /** One part of a range list. The upper end is not read when the lower one is above the value. */
  function PartCovers(env: Env, text: string, value: int): Eval {
    var part := Strip(text);
    var cut := Cut(part, '-');
    if part == "" then No
    else if cut.1.Some? then
      match env.number(cut.0)
      case None => Fails
      case Some(lo) =>
        if lo > value then No
        else match env.number(cut.1.value)
             case None => Fails
             case Some(hi) => if value <= hi then Yes else No
    else
      match env.number(part)
      case None => Fails
      case Some(n) => if n == value then Yes else No
  }

  function Ranges(env: Env, parts: seq<string>, value: int): Eval {
    if parts == [] then No
    else if PartCovers(env, parts[0], value) != No then PartCovers(env, parts[0], value)
    else Ranges(env, parts[1..], value)
  }

  method ParseRanges(env: Env, spec: string, value: int) returns (r: Eval)
    ensures r == Ranges(env, Split(spec, ','), value)
  {
    var parts := Split(spec, ',');
    var i := 0;
    while i < |parts|
      invariant i <= |parts| && Ranges(env, parts, value) == Ranges(env, parts[i..], value)
    {
      assert parts[i..][1..] == parts[i + 1..];
      r := PartCovers(env, parts[i], value);
      if r != No { return; }
      i := i + 1;
    }
    return No;
  }

  /** The list covers a value exactly when some part does and no part before it is malformed for that value. */
  lemma {:induction false} RangesMean(env: Env, parts: seq<string>, value: int, e: Eval)
    requires e != No
    ensures Ranges(env, parts, value) == e <==>
              exists k :: 0 <= k < |parts| && PartCovers(env, parts[k], value) == e
                  && forall j :: 0 <= j < k ==> PartCovers(env, parts[j], value) == No
    decreases |parts|
  {
    if parts != [] && PartCovers(env, parts[0], value) == No {
      var rest := parts[1..];
      RangesMean(env, rest, value, e);
      if k :| && 0 <= k < |rest| && PartCovers(env, rest[k], value) == e
              && forall j :: 0 <= j < k ==> PartCovers(env, rest[j], value) == No
      {
        assert PartCovers(env, parts[k + 1], value) == e;
        forall j | 0 <= j < k + 1 ensures PartCovers(env, parts[j], value) == No {
          if j > 0 { assert parts[j] == rest[j - 1]; }
        }
      }
      if k :| && 0 <= k < |parts| && PartCovers(env, parts[k], value) == e
              && forall j :: 0 <= j < k ==> PartCovers(env, parts[j], value) == No
      {
        assert rest[k - 1] == parts[k];
        forall j | 0 <= j < k - 1 ensures PartCovers(env, rest[j], value) == No { assert rest[j] == parts[j + 1]; }
      }
    }
  }

  // ----- conditions

  type Variables = map<string, string>

  /** field.strip("${}"). */
  function StripMarks(s: string): string {
    if s != "" && s[0] in {'$', '{', '}'} then StripMarks(s[1..])
    else if s != "" && s[|s| - 1] in {'$', '{', '}'} then StripMarks(s[..|s| - 1])
    else s
  }

  function Attribute(env: Env, spec: Option<string>, value: int): Eval {
    if spec.None? then Yes else Ranges(env, Split(spec.value, ','), value)
  }

  function Then(x: Eval, y: Eval): Eval { if x == Yes then y else x }

  function Evaluate(env: Env, test: Test, destination: string, variables: Variables): Eval {
    match test
    case Field(name, expression) =>
      var key := StripMarks(name);
      var subject := if name == "destination_number" then Some(destination)
          else if key in variables then Some(variables[key]) else None;
      if expression.None? || subject.None? then No
      else (match env.search(expression.value, subject.value)
            case None => Fails
            case Some(found) => if found then Yes else No)
    case Attributes(wday, hour, minute, mday, mon) =>
      Then(Attribute(env, wday, env.now.wday),
           Then(Attribute(env, hour, env.now.hour),
                Then(Attribute(env, minute, env.now.minute),
                     Then(Attribute(env, mday, env.now.mday), Attribute(env, mon, env.now.mon)))))
  }

  // ----- one extension

  /** How far the walk over the conditions has come: it goes on, or is over early, or has raised. */
  datatype Walked = On(actions: seq<Action>) | Over(actions: seq<Action>) | Error

  /** One condition by itself. */
  function Own(env: Env, cond: Condition, destination: string, variables: Variables, collected: seq<Action>): Walked {
    match Evaluate(env, cond.test, destination, variables)
    case Fails => Error
    case Yes =>
      var more := collected + cond.actions + cond.antiActions;
      if cond.brk == "on-true" then Over(more) else On(more)
    case No =>
      if cond.antiActions != [] then Error
      else if cond.brk == "" || cond.brk == "on-false" then Over([])
      else On(collected)
  }

  /** The tree of conditions: each one, then those nested in it, then its siblings. */
  function Walk(env: Env, cs: seq<Condition>, destination: string, variables: Variables, collected: seq<Action>): Walked
    decreases cs
  {
    if cs == [] then On(collected)
    else match Own(env, cs[0], destination, variables, collected)
         case On(own) =>
           (match Walk(env, cs[0].nested, destination, variables, own)
            case On(inner) => Walk(env, cs[1..], destination, variables, inner)
            case other => other)
         case other => other
  }

  /** What an extension collects; None is a DialplanError, or whatever a malformed expression raises. */
  function Collects(env: Env, extension: Extension, destination: string, variables: Variables): Option<seq<Action>> {
    match Walk(env, extension.conditions, destination, variables, [])
    case On(actions) => Some(actions)
    case Over(actions) => Some(actions)
    case Error => None
  }

  /** The same over the flat list that the code walks. */
  function MatchFrom(env: Env, conds: seq<Condition>, destination: string, variables: Variables,
                     collected: seq<Action>): Option<seq<Action>>
    decreases |conds|
  {
    if conds == [] then Some(collected)
    else
      var cond := conds[0];
      match Evaluate(env, cond.test, destination, variables)
      case Fails => None
      case Yes =>
        var more := collected + cond.actions + cond.antiActions;
        if cond.brk == "on-true" then Some(more) else MatchFrom(env, conds[1..], destination, variables, more)
      case No =>
        if cond.antiActions != [] then None
        else if cond.brk == "" || cond.brk == "on-false" then Some([])
        else MatchFrom(env, conds[1..], destination, variables, collected)
  }

  /** The flat list reads like the tree. */
  lemma {:induction false} FlatIsTree(env: Env, cs: seq<Condition>, rest: seq<Condition>, destination: string,
                                      variables: Variables, collected: seq<Action>)
    ensures MatchFrom(env, Flatten(cs) + rest, destination, variables, collected)
         == match Walk(env, cs, destination, variables, collected)
            case On(actions) => MatchFrom(env, rest, destination, variables, actions)
            case Over(actions) => Some(actions)
            case Error => None
    decreases cs
  {
    if cs == [] {
      assert [] + rest == rest;
    } else {
      var inner, later := Flatten(cs[0].nested), Flatten(cs[1..]);
      FlatCons(cs[0], inner, later, rest);
      match Own(env, cs[0], destination, variables, collected)
      case On(own) =>
        FlatIsTree(env, cs[0].nested, later + rest, destination, variables, own);
        match Walk(env, cs[0].nested, destination, variables, own) {
          case On(all) => FlatIsTree(env, cs[1..], rest, destination, variables, all);
          case _ =>
        }
      case _ =>
    }
  }

  lemma FlatCons(c: Condition, inner: seq<Condition>, later: seq<Condition>, rest: seq<Condition>)
    ensures var all := [c] + inner + later + rest; all != [] && all[0] == c && all[1..] == inner + (later + rest)
  {
  }

  lemma CollectsFlat(env: Env, extension: Extension, destination: string, variables: Variables)
    ensures Collects(env, extension, destination, variables)
         == MatchFrom(env, Flatten(extension.conditions), destination, variables, [])
  {
    FlatIsTree(env, extension.conditions, [], destination, variables, []);
    assert Flatten(extension.conditions) + [] == Flatten(extension.conditions);
  }

  method MatchExtension(env: Env, extension: Extension, destination: string, variables: Variables)
      returns (r: Option<seq<Action>>)
    ensures r == Collects(env, extension, destination, variables)
  {
    CollectsFlat(env, extension, destination, variables);
    var conds := Flatten(extension.conditions);
    var collected, i := [], 0;
    while i < |conds|
      invariant i <= |conds|
      invariant MatchFrom(env, conds, destination, variables, [])
                == MatchFrom(env, conds[i..], destination, variables, collected)
    {
      assert conds[i..][1..] == conds[i + 1..];
      var cond := conds[i];
      var ok := Evaluate(env, cond.test, destination, variables);
      if ok == Fails { return None; }
      if ok == Yes {
        collected := collected + cond.actions + cond.antiActions;
        if cond.brk == "on-true" { return Some(collected); }
      } else {
        if cond.antiActions != [] { return None; }
        if cond.brk == "" || cond.brk == "on-false" { return Some([]); }
      }
      i := i + 1;
    }
    return Some(collected);
  }

  function EvalAt(env: Env, conds: seq<Condition>, i: nat, destination: string, variables: Variables): Eval
    requires i < |conds|
  {
    Evaluate(env, conds[i].test, destination, variables)
  }

  /** The condition at `i` decides the extension. */
  predicate Decides(env: Env, conds: seq<Condition>, i: nat, destination: string, variables: Variables)
    requires i < |conds|
  {
    match EvalAt(env, conds, i, destination, variables)
    case Fails => true
    case Yes => conds[i].brk == "on-true"
    case No => conds[i].antiActions != [] || conds[i].brk == "" || conds[i].brk == "on-false"
  }

  /** The actions of the conditions that hold. */
  function Passed(env: Env, conds: seq<Condition>, destination: string, variables: Variables): seq<Action> {
    if conds == [] then []
    else (if Evaluate(env, conds[0].test, destination, variables) == Yes then conds[0].actions + conds[0].antiActions
          else [])
         + Passed(env, conds[1..], destination, variables)
  }

  /** While nothing decides, the actions of what holds pile up; the first condition that decides settles the matter. */
  lemma {:induction false} MatchMeans(env: Env, conds: seq<Condition>, k: nat, destination: string,
                                      variables: Variables, collected: seq<Action>)
    requires k <= |conds| && forall i :: 0 <= i < k ==> !Decides(env, conds, i, destination, variables)
    requires k < |conds| ==> Decides(env, conds, k, destination, variables)
    ensures MatchFrom(env, conds, destination, variables, collected)
         == if k == |conds| then Some(collected + Passed(env, conds, destination, variables))
            else match EvalAt(env, conds, k, destination, variables)
                 case Fails => None
                 case Yes => Some(collected + Passed(env, conds[..k + 1], destination, variables))
                 case No => if conds[k].antiActions != [] then None else Some([])
    decreases k
  {
    if k > 0 {
      var rest := conds[1..];
      assert !Decides(env, conds, 0, destination, variables);
      forall i | 0 <= i < k - 1 ensures !Decides(env, rest, i, destination, variables) {
        assert !Decides(env, conds, i + 1, destination, variables);
      }
      var held := Evaluate(env, conds[0].test, destination, variables) == Yes;
      var more := if held then collected + conds[0].actions + conds[0].antiActions else collected;
      MatchMeans(env, rest, k - 1, destination, variables, more);
      if k < |conds| {
        assert conds[..k + 1][1..] == rest[..k];
        Regroup(collected, conds[0], held, Passed(env, rest[..k], destination, variables));
      } else {
        Regroup(collected, conds[0], held, Passed(env, rest, destination, variables));
      }
    } else if conds != [] {
      assert conds[..1] == [conds[0]] && [conds[0]][1..] == [];
      Regroup(collected, conds[0], true, []);
      assert collected + conds[0].actions + conds[0].antiActions + []
             == collected + conds[0].actions + conds[0].antiActions;
    } else {
      assert collected + [] == collected;
    }
  }

  lemma Regroup(collected: seq<Action>, cond: Condition, held: bool, rest: seq<Action>)
    ensures (if held then collected + cond.actions + cond.antiActions else collected) + rest
         == collected + ((if held then cond.actions + cond.antiActions else []) + rest)
  {
  }

  // ----- actions

  datatype Outcome = Ended(app: string, data: string) | UnknownContext(name: string) | Unallocated | TooDeep

  /** What one action comes to when transfers have no limit. */
  datatype Effect = Goes(variables: Variables) | Stops(outcome: Outcome) | Jumps(destination: string, context: string)
      | Breaks

  const QUIET: set<string> := {"answer", "sleep", "pre_answer", "ring_ready", "record_session"}

  const ENDING: set<string> := {"bridge", "voicemail", "rxfax", "ivr", "hangup", "echo", "conference"}

  function EffectOf(contexts: Contexts, a: Action, variables: Variables): Effect {
    if a.app == "set" then
      var cut := Cut(a.data, '=');
      Goes(variables[cut.0 := if cut.1.Some? then cut.1.value else ""])
    else if a.app in QUIET then Goes(variables)
    else if a.app == "transfer" then
      var parts := Words(a.data, "");
      if parts == [] then Breaks
      else Jumps(parts[0], if |parts| >= 3 && parts[2] in contexts then parts[2] else "default")
    else if a.app == "voicemail" && Words(a.data, "") == [] then Breaks
    else if a.app in ENDING then Stops(Ended(a.app, a.data))
    else Breaks
  }

  /** The actions of one matched extension, up to the first that ends or moves the call. */
  function RunActions(contexts: Contexts, actions: seq<Action>, variables: Variables): Effect
    decreases |actions|
  {
    if actions == [] then Goes(variables)
    else match EffectOf(contexts, actions[0], variables)
         case Goes(after) => RunActions(contexts, actions[1..], after)
         case other => other
  }

  /** The variables that the set actions leave: the last one to name a variable has its value. */
  function Assigned(actions: seq<Action>, variables: Variables): Variables {
    if actions == [] then variables
    else
      var last := actions[|actions| - 1];
      var before := Assigned(actions[..|actions| - 1], variables);
      if last.app != "set" then before
      else before[Cut(last.data, '=').0 := if Cut(last.data, '=').1.Some? then Cut(last.data, '=').1.value else ""]
  }

  predicate Silent(a: Action) {
    a.app in {"set", "answer", "sleep", "pre_answer", "ring_ready", "record_session"}
  }

  lemma {:induction false} AssignedFromFront(contexts: Contexts, actions: seq<Action>, variables: Variables)
    requires actions != [] && Silent(actions[0])
    ensures EffectOf(contexts, actions[0], variables).Goes?
    ensures Assigned(actions, variables)
         == Assigned(actions[1..], EffectOf(contexts, actions[0], variables).variables)
    decreases |actions|
  {
    var n := |actions|;
    if n == 1 {
      assert actions[..0] == [] && actions[1..] == [];
    } else {
      AssignedFromFront(contexts, actions[..n - 1], variables);
      assert actions[..n - 1][1..] == actions[1..][..n - 2];
    }
  }

  /**
   * The first action that is neither `set` nor silent settles what a list of actions does, with the
   * variables that the actions before it have set; without one the list is passed.
   */
  lemma {:induction false} ActionsMean(contexts: Contexts, actions: seq<Action>, k: nat, variables: Variables)
    requires k <= |actions| && (forall i :: 0 <= i < k ==> Silent(actions[i]))
    requires k < |actions| ==> !Silent(actions[k])
    ensures Final(contexts, actions, variables) == Assigned(actions[..k], variables)
    ensures RunActions(contexts, actions, variables)
         == if k == |actions| then Goes(Assigned(actions, variables)) else EffectOf(contexts, actions[k], variables)
    decreases k
  {
    if k > 0 {
      AssignedFromFront(contexts, actions[..k], variables);
      assert actions[..k][1..] == actions[1..][..k - 1];
      ActionsMean(contexts, actions[1..], k - 1, EffectOf(contexts, actions[0], variables).variables);
    }
    if k == |actions| { assert actions[..k] == actions; }
  }

  // ----- one context, and the chain of transfers

  datatype Call = Call(destination: string, context: string, variables: Variables, matched: seq<string>)

  /** One context either settles the call, or transfers it, or raises. */
  datatype Hop = Settled(outcome: Outcome, call: Call) | Moved(call: Call) | Raised

  /** Extensions in order; one whose actions neither end nor move the call is passed, and its variables stay set. */
  function Through(env: Env, contexts: Contexts, extensions: seq<Extension>, call: Call): Hop
    decreases |extensions|
  {
    if extensions == [] then Settled(Unallocated, call)
    else
      match Collects(env, extensions[0], call.destination, call.variables)
      case None => Raised
      case Some(actions) =>
        if actions == [] then Through(env, contexts, extensions[1..], call)
        else
          var matched := call.matched + [extensions[0].name];
          match RunActions(contexts, actions, call.variables)
          case Goes(after) => Through(env, contexts, extensions[1..], call.(variables := after, matched := matched))
          case Stops(outcome) =>
            Settled(outcome, call.(variables := Final(contexts, actions, call.variables), matched := matched))
          case Jumps(destination, context) =>
            Moved(Call(destination, context, Final(contexts, actions, call.variables), matched))
          case Breaks => Raised
  }

  /** The variables when the actions are through or have ended or moved the call. */
  function Final(contexts: Contexts, actions: seq<Action>, variables: Variables): Variables
    decreases |actions|
  {
    if actions == [] then variables
    else match EffectOf(contexts, actions[0], variables)
         case Goes(after) => Final(contexts, actions[1..], after)
         case _ => variables
  }

  function HopOf(env: Env, contexts: Contexts, call: Call): Hop {
    if call.context in contexts then Through(env, contexts, contexts[call.context], call)
    else Settled(UnknownContext(call.context), call)
  }

  /** The extension is passed: its actions, if it collects any, only set variables or are silent. */
  ghost predicate Skipped(env: Env, e: Extension, before: Call, after: Call) {
    var actions := Collects(env, e, before.destination, before.variables);
    && actions.Some? && (forall i :: 0 <= i < |actions.value| ==> Silent(actions.value[i]))
    && after == before.(variables := Assigned(actions.value, before.variables),
                        matched := before.matched + if actions.value == [] then [] else [e.name])
  }

  /** The extension raises, or collects `actions`, of which the one at `j` is the first that is not silent. */
  ghost predicate Settling(env: Env, e: Extension, call: Call, actions: seq<Action>, j: nat) {
    var collected := Collects(env, e, call.destination, call.variables);
    collected.Some? ==>
      && collected.value == actions && j < |actions| && !Silent(actions[j])
      && forall i :: 0 <= i < j ==> Silent(actions[i])
  }

  /**
   * The first extension that is not passed settles what a context comes to, by its first action that is
   * neither `set` nor silent, with the variables of everything before it; without one nothing is allocated.
   */
  lemma {:induction false} ThroughMeans(env: Env, contexts: Contexts, extensions: seq<Extension>, calls: seq<Call>,
                                        actions: seq<Action>, j: nat)
    requires 0 < |calls| <= |extensions| + 1
    requires forall i :: 0 <= i < |calls| - 1 ==> Skipped(env, extensions[i], calls[i], calls[i + 1])
    requires |calls| <= |extensions| ==> Settling(env, extensions[|calls| - 1], calls[|calls| - 1], actions, j)
    ensures var k := |calls| - 1;
            var last, hop := calls[k], Through(env, contexts, extensions, calls[0]);
            if k == |extensions| then hop == Settled(Unallocated, last)
            else if Collects(env, extensions[k], last.destination, last.variables).None? then hop == Raised
            else
              var left := Assigned(actions[..j], last.variables);
              var matched := last.matched + [extensions[k].name];
              match EffectOf(contexts, actions[j], left)
              case Stops(o) => hop == Settled(o, last.(variables := left, matched := matched))
              case Jumps(d, c) => hop == Moved(Call(d, c, left, matched))
              case Breaks => hop == Raised
              case Goes(_) => false
    decreases |calls|
  {
    if |calls| == 1 {
      if extensions != [] && Collects(env, extensions[0], calls[0].destination, calls[0].variables).Some? {
        ActionsMean(contexts, actions, j, calls[0].variables);
        NotSilent(contexts, actions[j], calls[0].variables, Assigned(actions[..j], calls[0].variables));
      }
    } else {
      assert Skipped(env, extensions[0], calls[0], calls[1]);
      var first := Collects(env, extensions[0], calls[0].destination, calls[0].variables).value;
      ActionsMean(contexts, first, |first|, calls[0].variables);
      assert first[..|first|] == first;
      assert calls[0].matched + [] == calls[0].matched;
      var es, cs := extensions[1..], calls[1..];
      forall i | 0 <= i < |cs| - 1 ensures Skipped(env, es[i], cs[i], cs[i + 1]) {
        assert Skipped(env, extensions[i + 1], calls[i + 1], calls[i + 2]);
      }
      ThroughMeans(env, contexts, es, cs, actions, j);
      assert Through(env, contexts, extensions, calls[0]) == Through(env, contexts, es, calls[1]);
    }
  }

  /** What is not silent does not look at the variables. */
  lemma NotSilent(contexts: Contexts, a: Action, x: Variables, y: Variables)
    requires !Silent(a)
    ensures EffectOf(contexts, a, x) == EffectOf(contexts, a, y) && !EffectOf(contexts, a, x).Goes?
  {
  }

  /** The call after n transfers, without any limit on their number. */
  function After(env: Env, contexts: Contexts, call: Call, n: nat): Option<Call>
    decreases n
  {
    if n == 0 then Some(call)
    else match HopOf(env, contexts, call)
         case Moved(next) => After(env, contexts, next, n - 1)
         case _ => None
  }

  /** The unlimited chain ends after exactly n transfers. */
  predicate EndsAfter(env: Env, contexts: Contexts, call: Call, n: nat) {
    After(env, contexts, call, n).Some? && !HopOf(env, contexts, After(env, contexts, call, n).value).Moved?
  }

  // ----- the simulator

  /** The result dictionary, without the notes; None is an exception. */
  datatype Result = Result(outcome: Outcome, destination: string, context: string, matched: seq<string>)

  function ResultOf(outcome: Outcome, call: Call): Result {
    Result(outcome, call.destination, call.context, call.matched)
  }

  function Simulated(env: Env, contexts: Contexts, call: Call, depth: nat): Option<Result>
    decreases MAX_TRANSFER_DEPTH + 1 - depth
  {
    match HopOf(env, contexts, call)
    case Raised => None
    case Settled(outcome, last) => Some(ResultOf(outcome, last))
    case Moved(next) =>
      if depth >= MAX_TRANSFER_DEPTH then Some(Result(TooDeep, call.destination, call.context, next.matched))
      else Simulated(env, contexts, next, depth + 1)
  }

  /** _action: what it returns, the variables it leaves, and the exception. */
  method DoAction(contexts: Contexts, a: Action, variables: Variables, depth: nat)
      returns (outcome: Option<Outcome>, hop: Option<(string, string)>, after: Variables, raised: bool)
    ensures match EffectOf(contexts, a, variables)
            case Goes(v) => (outcome, hop, after, raised) == (None, None, v, false)
            case Stops(o) => (outcome, hop, after, raised) == (Some(o), None, variables, false)
            case Jumps(d, c) =>
              !raised && after == variables
              && if depth >= MAX_TRANSFER_DEPTH then (outcome, hop) == (Some(TooDeep), None)
                 else (outcome, hop) == (None, Some((d, c)))
            case Breaks => raised
  {
    outcome, hop, after, raised := None, None, variables, false;
    if a.app == "set" {
      var name, value := Cut(a.data, '=').0, Cut(a.data, '=').1;
      after := variables[name := if value.Some? then value.value else ""];
    } else if a.app in QUIET {
    } else if a.app == "transfer" {
      var parts := Words(a.data, "");
      if parts == [] {
        raised := true;
      } else if depth >= MAX_TRANSFER_DEPTH {
        outcome := Some(TooDeep);
      } else {
        var context := "default";
        if |parts| >= 3 && parts[2] in contexts { context := parts[2]; }
        hop := Some((parts[0], context));
      }
    } else if a.app == "voicemail" && Words(a.data, "") == [] {
      raised := true;
    } else if a.app in ENDING {
      outcome := Some(Ended(a.app, a.data));
    } else {
      raised := true;
    }
  }

  /** The inner loop of simulate over the collected actions. */
  method DoActions(contexts: Contexts, actions: seq<Action>, variables: Variables, depth: nat)
      returns (outcome: Option<Outcome>, hop: Option<(string, string)>, after: Variables, raised: bool)
    ensures raised <==> RunActions(contexts, actions, variables).Breaks?
    ensures !raised ==> after == Final(contexts, actions, variables)
    ensures !raised ==> match RunActions(contexts, actions, variables)
                        case Goes(v) => v == after && outcome.None? && hop.None?
                        case Stops(o) => outcome == Some(o) && hop.None?
                        case Jumps(d, c) =>
                          if depth >= MAX_TRANSFER_DEPTH then outcome == Some(TooDeep) && hop.None?
                          else outcome.None? && hop == Some((d, c))
                        case Breaks => true
  {
    outcome, hop, after, raised := None, None, variables, false;
    var i := 0;
    while i < |actions|
      invariant i <= |actions| && outcome.None? && hop.None? && !raised
      invariant RunActions(contexts, actions, variables) == RunActions(contexts, actions[i..], after)
      invariant Final(contexts, actions, variables) == Final(contexts, actions[i..], after)
    {
      assert actions[i..][1..] == actions[i + 1..];
      outcome, hop, after, raised := DoAction(contexts, actions[i], after, depth);
      if raised || hop.Some? || outcome.Some? { return; }
      i := i + 1;
    }
  }

  /** The loop over the extensions of one context. */
  method DoExtensions(env: Env, contexts: Contexts, extensions: seq<Extension>, call: Call, depth: nat)
      returns (outcome: Option<Outcome>, hop: Option<(string, string)>, variables: Variables, matched: seq<string>,
               raised: bool)
    ensures match Through(env, contexts, extensions, call)
            case Raised => raised
            case Settled(o, last) => !raised && outcome == Some(o) && hop.None? && variables == last.variables
                && matched == last.matched
            case Moved(next) =>
              !raised && variables == next.variables && matched == next.matched
              && if depth >= MAX_TRANSFER_DEPTH then outcome == Some(TooDeep) && hop.None?
                 else outcome.None? && hop == Some((next.destination, next.context))
  {
    outcome, hop, variables, matched, raised := None, None, call.variables, call.matched, false;
    var i := 0;
    while i < |extensions|
      invariant i <= |extensions| && outcome.None? && hop.None? && !raised
      invariant Through(env, contexts, extensions, call)
                == Through(env, contexts, extensions[i..], call.(variables := variables, matched := matched))
    {
      assert extensions[i..][1..] == extensions[i + 1..];
      var found := MatchExtension(env, extensions[i], call.destination, variables);
      if found.None? {
        raised := true;
        return;
      }
      if found.value != [] {
        matched := matched + [extensions[i].name];
        outcome, hop, variables, raised := DoActions(contexts, found.value, variables, depth);
        if raised || outcome.Some? || hop.Some? { return; }
      }
      i := i + 1;
    }
    outcome := Some(Unallocated);
  }

  method Simulate(env: Env, contexts: Contexts, context: string, destination: string, variables: Variables)
      returns (r: Option<Result>)
    ensures r == Simulated(env, contexts, Call(destination, context, variables, []), 0)
  {
    var depth := 0;
    var call := Call(destination, context, variables, []);
    while true
      invariant depth <= MAX_TRANSFER_DEPTH
      invariant Simulated(env, contexts, Call(destination, context, variables, []), 0)
                == Simulated(env, contexts, call, depth)
      decreases MAX_TRANSFER_DEPTH + 1 - depth
    {
      if call.context !in contexts { return Some(ResultOf(UnknownContext(call.context), call)); }
      SettledHere(env, contexts, contexts[call.context], call);
      var outcome, hop, after, matched, raised := DoExtensions(env, contexts, contexts[call.context], call, depth);
      if raised { return None; }
      if hop.None? { return Some(Result(outcome.value, call.destination, call.context, matched)); }
      depth := depth + 1;
      call := Call(hop.value.0, hop.value.1, after, matched);
    }
  }

  lemma {:induction false} SettledHere(env: Env, contexts: Contexts, extensions: seq<Extension>, call: Call)
    ensures var hop := Through(env, contexts, extensions, call);
            hop.Settled? ==> hop.call.destination == call.destination && hop.call.context == call.context
    decreases |extensions|
  {
    if extensions != [] {
      match Collects(env, extensions[0], call.destination, call.variables)
      case None =>
      case Some(actions) =>
        SettledHere(env, contexts, extensions[1..], call);
        match RunActions(contexts, actions, call.variables) {
          case Goes(after) => SettledHere(env, contexts, extensions[1..],
                                          call.(variables := after, matched := call.matched + [extensions[0].name]));
          case _ =>
        }
    }
  }

  // ----- the bounded interpreter and the unbounded semantics

  /** What an unlimited chain of transfers that has reached `call` comes to there. */
  function Settles(env: Env, contexts: Contexts, call: Call): Option<Result> {
    match HopOf(env, contexts, call)
    case Settled(outcome, last) => Some(ResultOf(outcome, last))
    case _ => None
  }

  /** Where a context settles the call, that outcome with the call's place and matched list is the result. */
  lemma ResultMeans(env: Env, contexts: Contexts, call: Call, depth: nat)
    ensures call.context !in contexts ==>
              Simulated(env, contexts, call, depth)
              == Some(Result(UnknownContext(call.context), call.destination, call.context, call.matched))
    ensures call.context in contexts ==>
              var hop := Through(env, contexts, contexts[call.context], call);
              hop.Settled? ==>
                Simulated(env, contexts, call, depth)
                == Some(Result(hop.outcome, call.destination, call.context, hop.call.matched))
  {
    if call.context in contexts { SettledHere(env, contexts, contexts[call.context], call); }
  }

  lemma AfterMove(env: Env, contexts: Contexts, call: Call, n: nat)
    requires n > 0 && HopOf(env, contexts, call).Moved?
    ensures After(env, contexts, call, n) == After(env, contexts, HopOf(env, contexts, call).call, n - 1)
  {
  }

  lemma {:induction false} EndingChain(env: Env, contexts: Contexts, call: Call, depth: nat, k: nat)
    requires EndsAfter(env, contexts, call, k) && depth + k <= MAX_TRANSFER_DEPTH
    ensures Simulated(env, contexts, call, depth) == Settles(env, contexts, After(env, contexts, call, k).value)
    decreases k
  {
    if k > 0 {
      AfterMove(env, contexts, call, k);
      EndingChain(env, contexts, HopOf(env, contexts, call).call, depth + 1, k - 1);
    }
  }

  lemma {:induction false} LongChain(env: Env, contexts: Contexts, call: Call, depth: nat, n: nat)
    requires depth + n == MAX_TRANSFER_DEPTH && After(env, contexts, call, n + 1).Some?
    ensures Simulated(env, contexts, call, depth).Some?
    ensures var r, next := Simulated(env, contexts, call, depth).value, After(env, contexts, call, n + 1).value;
            var last := After(env, contexts, call, n);
            last.Some? && r == Result(TooDeep, last.value.destination, last.value.context, next.matched)
    decreases n
  {
    AfterMove(env, contexts, call, n + 1);
    if n > 0 {
      AfterMove(env, contexts, call, n);
      LongChain(env, contexts, HopOf(env, contexts, call).call, depth + 1, n - 1);
    }
  }

  /** A chain that has not ended after n transfers goes on to one more. */
  lemma {:induction false} GoesOn(env: Env, contexts: Contexts, call: Call, n: nat)
    requires forall k :: 0 <= k <= n ==> !EndsAfter(env, contexts, call, k)
    ensures After(env, contexts, call, n + 1).Some?
    decreases n
  {
    assert !EndsAfter(env, contexts, call, 0);
    var next := HopOf(env, contexts, call).call;
    AfterMove(env, contexts, call, n + 1);
    if n > 0 {
      forall k | 0 <= k <= n - 1 ensures !EndsAfter(env, contexts, next, k) {
        AfterMove(env, contexts, call, k + 1);
        assert !EndsAfter(env, contexts, call, k + 1);
      }
      GoesOn(env, contexts, next, n - 1);
    }
  }

  /**
   * The bounded interpreter refines the unbounded semantics: a chain that ends after at most eight
   * transfers gives its own result, with the same list of matched extensions (or the same
   * exception), and every other chain gives the too-deep error at its ninth transfer.
   */
  lemma BoundedRefinesUnbounded(env: Env, contexts: Contexts, call: Call)
    ensures forall k :: 0 <= k <= 8 && EndsAfter(env, contexts, call, k) ==>
              Simulated(env, contexts, call, 0) == Settles(env, contexts, After(env, contexts, call, k).value)
    ensures (forall k :: 0 <= k <= 8 ==> !EndsAfter(env, contexts, call, k)) <==>
              Simulated(env, contexts, call, 0).Some? && Simulated(env, contexts, call, 0).value.outcome == TooDeep
    ensures (forall k :: 0 <= k <= 8 ==> !EndsAfter(env, contexts, call, k)) ==>
              var last, next := After(env, contexts, call, 8), After(env, contexts, call, 9);
              && last.Some? && next.Some?
              && Simulated(env, contexts, call, 0)
                 == Some(Result(TooDeep, last.value.destination, last.value.context, next.value.matched))
  {
    forall k | 0 <= k <= 8 && EndsAfter(env, contexts, call, k)
      ensures var r := Settles(env, contexts, After(env, contexts, call, k).value);
              Simulated(env, contexts, call, 0) == r && (r.Some? ==> r.value.outcome != TooDeep)
    {
      EndingChain(env, contexts, call, 0, k);
      NeverTooDeep(env, contexts, After(env, contexts, call, k).value);
    }
    if forall k :: 0 <= k <= 8 ==> !EndsAfter(env, contexts, call, k) {
      GoesOn(env, contexts, call, 8);
      LongChain(env, contexts, call, 0, 8);
    }
  }

  lemma {:induction false} ActionsNeverTooDeep(contexts: Contexts, actions: seq<Action>, variables: Variables)
    ensures RunActions(contexts, actions, variables) != Stops(TooDeep)
    decreases |actions|
  {
    if actions != [] {
      match EffectOf(contexts, actions[0], variables)
      case Goes(after) => ActionsNeverTooDeep(contexts, actions[1..], after);
      case _ =>
    }
  }

  lemma {:induction false} ThroughNeverTooDeep(env: Env, contexts: Contexts, extensions: seq<Extension>, call: Call)
    ensures var hop := Through(env, contexts, extensions, call); hop.Settled? ==> hop.outcome != TooDeep
    decreases |extensions|
  {
    if extensions != [] {
      match Collects(env, extensions[0], call.destination, call.variables)
      case None =>
      case Some(actions) =>
        ActionsNeverTooDeep(contexts, actions, call.variables);
        ThroughNeverTooDeep(env, contexts, extensions[1..], call);
        match RunActions(contexts, actions, call.variables) {
          case Goes(after) =>
            ThroughNeverTooDeep(env, contexts, extensions[1..],
                                call.(variables := after, matched := call.matched + [extensions[0].name]));
          case _ =>
        }
    }
  }

  lemma NeverTooDeep(env: Env, contexts: Contexts, call: Call)
    ensures var hop := HopOf(env, contexts, call); hop.Settled? ==> hop.outcome != TooDeep
  {
    if call.context in contexts { ThroughNeverTooDeep(env, contexts, contexts[call.context], call); }
  }
}
