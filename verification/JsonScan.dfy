/**
 * The brace-and-string scanner of the text agent's extract_json_object
 * (modules/telephony/text-agent.py) and what it does on printed JSON.
 */
module JsonScan {
  import opened Wrappers
  import opened JsonText

  /** The three variables of the inner loop. */
  datatype Scan = Scan(depth: int, inString: bool, escape: bool)

  function Out(depth: int): Scan { Scan(depth, false, false) }

  function Step(s: Scan, c: char): Scan {
    if s.inString then
      if s.escape then s.(escape := false)
      else if c == '\\' then s.(escape := true)
      else if c == '"' then s.(inString := false)
      else s
    else if c == '"' then s.(inString := true)
    else if c == '{' then s.(depth := s.depth + 1)
    else if c == '}' then s.(depth := s.depth - 1)
    else s
  }

  function Run(s: Scan, text: string): Scan
    decreases |text|
  {
    if text == [] then s else Run(Step(s, text[0]), text[1..])
  }

  /** The scan of `text` stays at depth `d` or deeper, and meets a backslash only inside a string. */
  predicate Stays(s: Scan, text: string, d: int)
    decreases |text|
  {
    && s.depth >= d
    && (text != [] ==>
          && (text[0] == '\\' ==> s.inString)
          && Stays(Step(s, text[0]), text[1..], d))
  }

  function Later(n: nat, r: Option<nat>): Option<nat> {
    match r
    case None => None
    case Some(j) => Some(n + j)
  }

  /** Index of the first closing brace that brings the depth back to zero. */
  function FirstClose(s: Scan, text: string): Option<nat>
    decreases |text|
  {
    if text == [] then None
    else if !s.inString && text[0] == '}' && s.depth == 1 then Some(0)
    else Later(1, FirstClose(Step(s, text[0]), text[1..]))
  }

  lemma FirstCloseCons(s: Scan, c: char, text: string)
    ensures FirstClose(s, [c] + text)
         == if !s.inString && c == '}' && s.depth == 1 then Some(0) else Later(1, FirstClose(Step(s, c), text))
  {
    assert ([c] + text)[1..] == text;
  }

  // ----- composing scans

  lemma {:induction false} RunConcat(s: Scan, a: string, b: string)
    ensures Run(s, a + b) == Run(Run(s, a), b)
    decreases |a|
  {
    if a == [] {
      assert a + b == b;
    } else {
      assert (a + b)[1..] == a[1..] + b;
      RunConcat(Step(s, a[0]), a[1..], b);
    }
  }

  lemma {:induction false} StaysConcat(s: Scan, a: string, b: string, d: int)
    ensures Stays(s, a + b, d) <==> Stays(s, a, d) && Stays(Run(s, a), b, d)
    decreases |a|
  {
    if a == [] {
      assert a + b == b;
    } else {
      assert (a + b)[1..] == a[1..] + b;
      StaysConcat(Step(s, a[0]), a[1..], b, d);
    }
  }

  lemma {:induction false} StaysWeaker(s: Scan, a: string, d: int, e: int)
    requires Stays(s, a, d) && e <= d
    ensures Stays(s, a, e)
    decreases |a|
  {
    if a != [] { StaysWeaker(Step(s, a[0]), a[1..], d, e); }
  }

  /** A text that leaves the scanner where it found it, out of any string, and never goes up. */
  predicate Neutral(text: string, d: int) {
    Run(Out(d), text) == Out(d) && Stays(Out(d), text, d)
  }

  lemma NeutralConcat(a: string, b: string, d: int)
    requires Neutral(a, d) && Neutral(b, d)
    ensures Neutral(a + b, d)
  {
    RunConcat(Out(d), a, b);
    StaysConcat(Out(d), a, b, d);
  }

  lemma {:induction false} NeutralPlain(text: string, d: int)
    requires forall i :: 0 <= i < |text| ==> text[i] !in ['"', '\\', '{', '}']
    ensures Neutral(text, d)
  {
    if text != [] {
      NeutralPlain(text[1..], d);
    }
  }

  // ----- printed JSON is neutral

  lemma {:induction false} UnitsScan(us: seq<Unit>, d: int)
    requires UnitsOk(us)
    ensures Run(Scan(d, true, false), PrintUnits(us)) == Scan(d, true, false)
    ensures Stays(Scan(d, true, false), PrintUnits(us), d)
  {
    if us != [] {
      var In := Scan(d, true, false);
      UnitScan(us[0], d);
      UnitsScan(us[1..], d);
      RunConcat(In, PrintUnit(us[0]), PrintUnits(us[1..]));
      StaysConcat(In, PrintUnit(us[0]), PrintUnits(us[1..]), d);
    }
  }

  lemma UnitScan(u: Unit, d: int)
    requires UnitOk(u)
    ensures Run(Scan(d, true, false), PrintUnit(u)) == Scan(d, true, false)
    ensures Stays(Scan(d, true, false), PrintUnit(u), d)
  {
    var In := Scan(d, true, false);
    match u
    case Raw(c) =>
      assert [c][1..] == [];
    case Escaped(c) =>
      assert ['\\', c][1..] == [c] && [c][1..] == [];
      assert Step(In, '\\') == Scan(d, true, true) && Step(Scan(d, true, true), c) == In;
      assert Run(Scan(d, true, true), [c]) == In && Stays(Scan(d, true, true), [c], d);
    case Hex(a, b, c, e) =>
      var t := ['u', a, b, c, e];
      assert PrintUnit(u) == ['\\'] + t;
      assert Step(In, '\\') == Scan(d, true, true);
      assert (['\\'] + t)[1..] == t;
      assert t[1..] == [a, b, c, e];
      InsideScan([a, b, c, e], d);
  }

  lemma {:induction false} InsideScan(t: string, d: int)
    requires forall i :: 0 <= i < |t| ==> t[i] !in ['"', '\\']
    ensures Run(Scan(d, true, false), t) == Scan(d, true, false)
    ensures Stays(Scan(d, true, false), t, d)
  {
    if t != [] { InsideScan(t[1..], d); }
  }

  lemma StringNeutral(us: seq<Unit>, d: int)
    requires UnitsOk(us)
    ensures Neutral(PrintString(us), d)
  {
    var In := Scan(d, true, false);
    UnitsScan(us, d);
    var body := PrintUnits(us) + ['"'];
    RunConcat(In, PrintUnits(us), ['"']);
    StaysConcat(In, PrintUnits(us), ['"'], d);
    assert ['"'][1..] == [];
    assert Run(In, ['"']) == Out(d) && Stays(In, ['"'], d);
    assert PrintString(us) == ['"'] + body;
    assert (['"'] + body)[1..] == body;
  }

  lemma WsNeutral(ws: string, d: int)
    requires AllWs(ws)
    ensures Neutral(ws, d)
  {
    NeutralPlain(ws, d);
  }

  lemma {:induction false} JsonNeutral(v: Json, d: int)
    requires Ok(v)
    ensures Neutral(Print(v), d)
    decreases v
  {
    match v
    case Atom(t) => NeutralPlain(t, d);
    case Text(us) => StringNeutral(us, d);
    case Arr(b, es) =>
      var inner := if es.NoElems? then b else PrintElems(es);
      if es.NoElems? { WsNeutral(b, d); } else { ElemsNeutral(es, d); }
      NeutralPlain("[", d);
      NeutralPlain("]", d);
      NeutralConcat("[", inner, d);
      NeutralConcat("[" + inner, "]", d);
    case Obj(b, ms) =>
      ObjectScan(v, d);
      BracedNeutral(Print(v), d);
  }

  /** A text that goes one level deeper with its first brace and closes with its last. */
  lemma BracedNeutral(t: string, d: int)
    requires |t| >= 2 && t[0] == '{' && t[|t| - 1] == '}'
    requires Stays(Out(d + 1), t[..|t| - 1][1..], d + 1) && Run(Out(d), t[..|t| - 1]) == Out(d + 1)
    ensures Neutral(t, d)
  {
    var s := t[..|t| - 1];
    assert t == s + "}" && "}"[1..] == "";
    StaysWeaker(Out(d + 1), s[1..], d + 1, d);
    StaysConcat(Out(d), s, "}", d);
    RunConcat(Out(d), s, "}");
  }

  lemma {:induction false} ElemsNeutral(es: Elems, d: int)
    requires ElemsOk(es)
    ensures Neutral(PrintElems(es), d)
    decreases es
  {
    match es
    case NoElems =>
    case Elem(pre, v, post, rest) =>
      WsNeutral(pre, d);
      JsonNeutral(v, d);
      WsNeutral(post, d);
      NeutralConcat(pre, Print(v), d);
      NeutralConcat(pre + Print(v), post, d);
      var tail := if rest.NoElems? then "" else "," + PrintElems(rest);
      if !rest.NoElems? {
        ElemsNeutral(rest, d);
        NeutralPlain(",", d);
        NeutralConcat(",", PrintElems(rest), d);
      }
      NeutralConcat(pre + Print(v) + post, tail, d);
  }

  lemma {:induction false} MembersNeutral(ms: Members, d: int)
    requires MembersOk(ms)
    ensures Neutral(PrintMembers(ms), d)
    decreases ms
  {
    match ms
    case NoMembers =>
    case Member(pre, key, mid, colon, v, post, rest) =>
      WsNeutral(pre, d);
      StringNeutral(key, d);
      WsNeutral(mid, d);
      NeutralPlain(":", d);
      WsNeutral(colon, d);
      JsonNeutral(v, d);
      WsNeutral(post, d);
      var a := pre + PrintString(key);
      NeutralConcat(pre, PrintString(key), d);
      NeutralConcat(a, mid, d);
      NeutralConcat(a + mid, ":", d);
      NeutralConcat(a + mid + ":", colon, d);
      NeutralConcat(a + mid + ":" + colon, Print(v), d);
      NeutralConcat(a + mid + ":" + colon + Print(v), post, d);
      var tail := if rest.NoMembers? then "" else "," + PrintMembers(rest);
      if !rest.NoMembers? {
        MembersNeutral(rest, d);
        NeutralPlain(",", d);
        NeutralConcat(",", PrintMembers(rest), d);
      }
      NeutralConcat(a + mid + ":" + colon + Print(v) + post, tail, d);
  }

  /** Behind its first brace and before its last, an object is one level deeper throughout. */
  lemma {:induction false} ObjectScan(v: Json, d: int)
    requires Ok(v) && v.Obj?
    ensures var t := Print(v);
            && |t| >= 2 && t[0] == '{' && t[|t| - 1] == '}'
            && Stays(Out(d + 1), t[..|t| - 1][1..], d + 1)
            && Run(Out(d), t[..|t| - 1]) == Out(d + 1)
    decreases v, 0
  {
    var body := PrintBody(v.blank, v.members);
    if v.members.NoMembers? { WsNeutral(v.blank, d + 1); } else { MembersNeutral(v.members, d + 1); }
    var t := Print(v);
    assert t == "{" + body + "}";
    assert t[..|t| - 1] == "{" + body;
    assert ("{" + body)[1..] == body;
  }
}
