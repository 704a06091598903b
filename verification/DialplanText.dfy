/**
 * How the simulator of packages/telephony-operator/dialplan_sim.py reads the texts of a dialplan:
 * whatever is written in the forms below is read back as what it says.
 */
module DialplanText {
  import opened Wrappers
  import JsonExtract
  import opened Dialplan

  predicate NoBlank(s: string) { forall i :: 0 <= i < |s| ==> !JsonExtract.IsSpace(s[i]) }

  predicate AllBlank(s: string) { forall i :: 0 <= i < |s| ==> JsonExtract.IsSpace(s[i]) }

  // ----- cutting and splitting

  lemma {:induction false} CutWhole(s: string, c: char)
    requires c !in s
    ensures Cut(s, c) == (s, None)
    decreases |s|
  {
    if s != "" {
      CutWhole(s[1..], c);
      assert s == [s[0]] + s[1..];
    }
  }

  /** A text is cut at the first occurrence, which is dropped. */
  lemma {:induction false} CutAt(front: string, c: char, back: string)
    requires c !in front
    ensures Cut(front + [c] + back, c) == (front, Some(back))
    decreases |front|
  {
    var s := front + [c] + back;
    if front == "" {
      assert s[0] == c && s[1..] == back;
    } else {
      CutAt(front[1..], c, back);
      assert s[1..] == front[1..] + [c] + back;
      assert front == [front[0]] + front[1..];
    }
  }

  function Joined(parts: seq<string>, c: char): string
    requires parts != []
  {
    if |parts| == 1 then parts[0] else parts[0] + [c] + Joined(parts[1..], c)
  }

  lemma {:induction false} SplitJoined(parts: seq<string>, c: char)
    requires parts != [] && forall p :: p in parts ==> c !in p
    ensures Split(Joined(parts, c), c) == parts
    decreases |parts|
  {
    assert parts[0] in parts;
    if |parts| == 1 {
      CutWhole(parts[0], c);
    } else {
      CutAt(parts[0], c, Joined(parts[1..], c));
      SplitJoined(parts[1..], c);
      assert parts == [parts[0]] + parts[1..];
    }
  }

  lemma {:induction false} StripsLeft(pad: string, s: string)
    requires AllBlank(pad) && (s == "" || NoBlank(s[..1]))
    ensures StripLeft(pad + s) == s
    decreases |pad|
  {
    if pad == "" {
      assert pad + s == s;
      if s != "" { assert s[0] == s[..1][0]; }
    } else {
      assert (pad + s)[1..] == pad[1..] + s;
      StripsLeft(pad[1..], s);
    }
  }

  lemma {:induction false} StripsRight(s: string, pad: string)
    requires AllBlank(pad) && (s == "" || NoBlank(s[|s| - 1..]))
    ensures StripRight(s + pad) == s
    decreases |pad|
  {
    if pad == "" {
      assert s + pad == s;
      if s != "" { assert s[|s| - 1] == s[|s| - 1..][0]; }
    } else {
      assert (s + pad)[..|s + pad| - 1] == s + pad[..|pad| - 1];
      StripsRight(s, pad[..|pad| - 1]);
    }
  }

  lemma StripsBoth(pre: string, s: string, post: string)
    requires AllBlank(pre) && AllBlank(post) && s != "" && NoBlank(s)
    ensures Strip(pre + s + post) == s
  {
    assert pre + s + post == pre + (s + post);
    StripsLeft(pre, s + post);
    StripsRight(s, post);
  }

  // ----- ranges

  /** A value, or an inclusive range, with blanks around it. */
  datatype Part =
    | One(pre: string, text: string, post: string)
    | Span(pre: string, low: string, high: string, post: string)

  function Written(p: Part): string {
    match p
    case One(pre, text, post) => pre + text + post
    case Span(pre, low, high, post) => pre + (low + "-" + high) + post
  }

  predicate Numeral(env: Env, s: string) {
    s != "" && NoBlank(s) && '-' !in s && ',' !in s && env.number(s).Some?
  }

  predicate PartOk(env: Env, p: Part) {
    && AllBlank(p.pre) && AllBlank(p.post)
    && if p.One? then Numeral(env, p.text) else Numeral(env, p.low) && Numeral(env, p.high)
  }

  predicate Contains(env: Env, p: Part, value: int)
    requires PartOk(env, p)
  {
    match p
    case One(_, text, _) => env.number(text).value == value
    case Span(_, low, high, _) => env.number(low).value <= value <= env.number(high).value
  }

  lemma PartIsRead(env: Env, p: Part, value: int)
    requires PartOk(env, p)
    ensures PartCovers(env, Written(p), value) == if Contains(env, p, value) then Yes else No
  {
    match p
    case One(pre, text, post) =>
      StripsBoth(pre, text, post);
      CutWhole(text, '-');
    case Span(pre, low, high, post) =>
      StripsBoth(pre, low + "-" + high, post);
      CutAt(low, '-', high);
  }

  function AllWritten(ps: seq<Part>): (texts: seq<string>)
    ensures |texts| == |ps| && forall i :: 0 <= i < |ps| ==> texts[i] == Written(ps[i])
  {
    if ps == [] then [] else [Written(ps[0])] + AllWritten(ps[1..])
  }

  /** A written list of values and ranges covers exactly the values in one of them. */
  lemma RangesAreRead(env: Env, ps: seq<Part>, value: int)
    requires ps != [] && forall i :: 0 <= i < |ps| ==> PartOk(env, ps[i])
    ensures Ranges(env, Split(Joined(AllWritten(ps), ','), ','), value)
         == if exists i :: 0 <= i < |ps| && Contains(env, ps[i], value) then Yes else No
  {
    var texts := AllWritten(ps);
    forall i | 0 <= i < |ps| ensures ',' !in texts[i] { NoComma(env, ps[i]); }
    SplitJoined(texts, ',');
    forall i | 0 <= i < |ps| ensures PartCovers(env, texts[i], value)
        == if Contains(env, ps[i], value) then Yes else No {
      PartIsRead(env, ps[i], value);
    }
    FirstCovers(env, texts, value);
    SomeCovers(env, ps, texts, value);
  }

  lemma NoComma(env: Env, p: Part)
    requires PartOk(env, p)
    ensures ',' !in Written(p)
  {
  }

  lemma SomeCovers(env: Env, ps: seq<Part>, texts: seq<string>, value: int)
    requires |texts| == |ps| && forall i :: 0 <= i < |ps| ==> PartOk(env, ps[i])
    requires forall i :: 0 <= i < |ps| ==>
               (PartCovers(env, texts[i], value) == Yes <==> Contains(env, ps[i], value))
    ensures (exists i :: 0 <= i < |texts| && PartCovers(env, texts[i], value) == Yes)
       <==> exists i :: 0 <= i < |ps| && Contains(env, ps[i], value)
  {
  }

  lemma {:induction false} FirstCovers(env: Env, texts: seq<string>, value: int)
    requires forall i :: 0 <= i < |texts| ==> PartCovers(env, texts[i], value) != Fails
    ensures Ranges(env, texts, value)
         == if exists i :: 0 <= i < |texts| && PartCovers(env, texts[i], value) == Yes then Yes else No
    decreases |texts|
  {
    if texts != [] {
      var rest := texts[1..];
      assert forall i :: 0 <= i < |rest| ==> rest[i] == texts[i + 1];
      FirstCovers(env, rest, value);
      if i :| 0 <= i < |texts| && PartCovers(env, texts[i], value) == Yes {
        if i > 0 { assert rest[i - 1] == texts[i]; }
      }
    }
  }

  // ----- conditions

  /** An attribute condition holds when each attribute that is given covers its own part of the time. */
  lemma TimeConditionMeans(env: Env, destination: string, variables: Variables, wday: Option<string>,
                           hour: Option<string>, minute: Option<string>, mday: Option<string>, mon: Option<string>)
    ensures Evaluate(env, Attributes(wday, hour, minute, mday, mon), destination, variables) == Yes
       <==> && (wday.Some? ==> Ranges(env, Split(wday.value, ','), env.now.wday) == Yes)
            && (hour.Some? ==> Ranges(env, Split(hour.value, ','), env.now.hour) == Yes)
            && (minute.Some? ==> Ranges(env, Split(minute.value, ','), env.now.minute) == Yes)
            && (mday.Some? ==> Ranges(env, Split(mday.value, ','), env.now.mday) == Yes)
            && (mon.Some? ==> Ranges(env, Split(mon.value, ','), env.now.mon) == Yes)
  {
  }

  lemma {:induction false} StripsMarks(s: string)
    requires s != "" && s[0] !in {'$', '{', '}'} && s[|s| - 1] !in {'$', '{', '}'}
    ensures StripMarks(s + "}") == s && StripMarks("{" + s + "}") == s && StripMarks("${" + s + "}") == s
  {
    var a, b, c := s + "}", "{" + s + "}", "${" + s + "}";
    assert a[..|a| - 1] == s && b[1..] == a && c[1..] == b;
  }

  /**
   * A field condition searches the dialled number, or the variable that the field names; an unset one never matches.
   */
  lemma FieldConditionMeans(env: Env, destination: string, variables: Variables, name: string, expression: string)
    requires name != "" && name[0] !in {'$', '{', '}'} && name[|name| - 1] !in {'$', '{', '}'}
    ensures var e := Evaluate(env, Field("destination_number", Some(expression)), destination, variables);
            e == match env.search(expression, destination) case None => Fails case Some(b) => if b then Yes else No
    ensures var e := Evaluate(env, Field("${" + name + "}", Some(expression)), destination, variables);
            e == if name !in variables then No
                 else match env.search(expression, variables[name])
                      case None => Fails
                      case Some(b) => if b then Yes else No
  {
    StripsMarks(name);
    assert ("${" + name + "}")[0] == '$' && "destination_number"[0] == 'd';
  }

  // ----- actions

  lemma {:induction false} WordEnds(word: string, more: string, rest: string)
    requires NoBlank(more) && word + more != "" && (rest == "" || AllBlank(rest[..1]))
    ensures Words(more + rest, word) == [word + more] + (if rest == "" then [] else Words(rest[1..], ""))
    decreases |more|
  {
    if more == "" {
      assert more + rest == rest && word + more == word;
      if rest != "" { assert rest[0] == rest[..1][0]; }
    } else {
      assert (more + rest)[0] == more[0] && (more + rest)[1..] == more[1..] + rest;
      assert word + more == (word + [more[0]]) + more[1..];
      WordEnds(word + [more[0]], more[1..], rest);
    }
  }

  lemma OneWord(word: string)
    requires word != "" && NoBlank(word)
    ensures Words(word, "") == [word]
  {
    WordEnds("", word, "");
    assert word + "" == word && "" + word == word;
  }

  lemma NextWord(word: string, rest: string)
    requires word != "" && NoBlank(word)
    ensures Words(word + ([' '] + rest), "") == [word] + Words(rest, "")
  {
    WordEnds("", word, [' '] + rest);
    assert "" + word == word && ([' '] + rest)[1..] == rest;
  }

  /** `transfer` with a destination, the word XML and a context goes there if the context exists. */
  lemma TransferIsRead(contexts: Contexts, destination: string, context: string, variables: Variables)
    requires destination != "" && NoBlank(destination) && context != "" && NoBlank(context)
    ensures EffectOf(contexts, Action("transfer", destination + (" " + ("XML" + (" " + context)))), variables)
         == Jumps(destination, if context in contexts then context else "default")
    ensures EffectOf(contexts, Action("transfer", destination), variables) == Jumps(destination, "default")
    ensures EffectOf(contexts, Action("transfer", ""), variables) == Breaks
  {
    NextWord(destination, "XML" + (" " + context));
    NextWord("XML", context);
    OneWord(context);
    OneWord(destination);
  }

  /** `set` takes what is before the first equals sign for the name and all that is behind it for the value. */
  lemma SetIsRead(contexts: Contexts, name: string, value: string, variables: Variables)
    requires '=' !in name
    ensures EffectOf(contexts, Action("set", name + "=" + value), variables) == Goes(variables[name := value])
    ensures EffectOf(contexts, Action("set", name), variables) == Goes(variables[name := ""])
  {
    CutAt(name, '=', value);
    CutWhole(name, '=');
  }

  /** The applications that end a call, those that do nothing here, and everything else. */
  lemma EffectsAre(contexts: Contexts, a: Action, variables: Variables)
    ensures a.app in {"answer", "sleep", "pre_answer", "ring_ready", "record_session"} ==>
              EffectOf(contexts, a, variables) == Goes(variables)
    ensures a.app in {"bridge", "rxfax", "ivr", "hangup", "echo", "conference"} ==>
              EffectOf(contexts, a, variables) == Stops(Ended(a.app, a.data))
    ensures a.app == "voicemail" && !AllBlank(a.data) ==>
              EffectOf(contexts, a, variables) == Stops(Ended("voicemail", a.data))
    ensures a.app !in {"set", "transfer", "answer", "sleep", "pre_answer", "ring_ready", "record_session", "bridge",
                       "voicemail", "rxfax", "ivr", "hangup", "echo", "conference"} ==>
              EffectOf(contexts, a, variables) == Breaks
  {
    if !AllBlank(a.data) { SomeWord(a.data, ""); }
  }

  lemma {:induction false} SomeWord(s: string, word: string)
    requires word != "" || !AllBlank(s)
    ensures Words(s, word) != []
    decreases |s|
  {
    if s != "" {
      if !JsonExtract.IsSpace(s[0]) {
        SomeWord(s[1..], word + [s[0]]);
      } else if word == "" {
        assert !AllBlank(s[1..]) by { assert forall i :: 1 <= i < |s| ==> s[i] == s[1..][i - 1]; }
        SomeWord(s[1..], "");
      }
    }
  }
}
