/**
 * What extract_json_object of modules/telephony/text-agent.py looks for braces in: the reply cut at
 * its code fences, the fences left out, the space around the rest trimmed.
 */
module ReplyText {
  import opened JsonExtract

  /** A text cut at its fences, each with or without its language tag. */
  datatype Cut = Last(text: string) | Fenced(text: string, tagged: bool, rest: Cut)

  function Whole(c: Cut): string {
    match c
    case Last(t) => t
    case Fenced(t, tagged, rest) => t + ((if tagged then "```json" else "```") + Whole(rest))
  }

  function WithoutFences(c: Cut): string {
    match c
    case Last(t) => t
    case Fenced(t, _, rest) => t + WithoutFences(rest)
  }

  /** Fences begin as early as they can, and take the tag where there is one. */
  predicate Leftmost(c: Cut) {
    && NoFence(c.text)
    && (c.Fenced? ==>
          && (c.text == "" || c.text[|c.text| - 1] != '`')
          && (!c.tagged ==> !("json" <= Whole(c.rest)))
          && Leftmost(c.rest))
  }

  // ----- fences, character by character

  predicate Ticks(t: string) { |t| >= 3 && t[0] == '`' && t[1] == '`' && t[2] == '`' }

  lemma TicksIs(t: string)
    ensures Ticks(t) <==> "```" <= t
    ensures "```json" <= t <==> Ticks(t) && "json" <= t[3..]
  {
    assert "```json" == "```" + "json";
    if |t| >= 3 { assert t == t[..3] + t[3..]; }
    if "```json" <= t { assert t[..7] == t[..3] + t[3..7] && t[3..7] == t[3..][..4]; }
    if Ticks(t) && "json" <= t[3..] { assert t[..7] == t[..3] + t[3..][..4]; }
  }

  lemma NoTicks(t: string, i: nat)
    requires NoFence(t) && i <= |t|
    ensures !Ticks(t[i..])
  {
    TicksIs(t[i..]);
  }

  lemma NoFenceTail(t: string)
    requires NoFence(t) && t != ""
    ensures NoFence(t[1..])
  {
    forall i | 0 <= i <= |t[1..]| ensures !("```" <= t[1..][i..]) { assert t[1..][i..] == t[i + 1..]; }
  }

  lemma NoFenceFront(t: string)
    requires t != "" && NoFence(t[1..]) && !Ticks(t)
    ensures NoFence(t)
  {
    TicksIs(t);
    forall i | 0 <= i <= |t| ensures !("```" <= t[i..]) {
      if i > 0 { assert t[i..] == t[1..][i - 1..]; } else { assert t[0..] == t; }
    }
  }

  /** Text without a fence stays in front of what is left of the rest. */
  lemma {:induction false} TextStays(t: string, rest: string)
    requires NoFence(t) && (t == "" || t[|t| - 1] != '`')
    ensures RemoveFences(t + rest) == t + RemoveFences(rest)
    decreases |t|
  {
    if t == "" {
      assert t + rest == rest;
    } else {
      NoFenceTail(t);
      NoTicks(t, 0);
      assert t[0..] == t && (t + rest)[1..] == t[1..] + rest;
      TicksIs(t + rest);
      TextStays(t[1..], rest);
    }
  }

  lemma FenceGoes(tagged: bool, rest: string)
    requires !tagged ==> !("json" <= rest)
    ensures RemoveFences((if tagged then "```json" else "```") + rest) == RemoveFences(rest)
  {
    var t := (if tagged then "```json" else "```") + rest;
    TicksIs(t);
    if tagged { assert t[7..] == rest; } else { assert t[3..] == rest; }
  }

  /** Removing the fences leaves exactly the texts between them. */
  lemma {:induction false} FencesGo(c: Cut)
    requires Leftmost(c)
    ensures RemoveFences(Whole(c)) == WithoutFences(c)
    decreases c
  {
    match c
    case Last(t) =>
      RemoveFencesNone(t);
    case Fenced(t, tagged, rest) =>
      FencesGo(rest);
      FenceGoes(tagged, Whole(rest));
      TextStays(t, (if tagged then "```json" else "```") + Whole(rest));
  }

  /** Every text has such a cut. */
  lemma {:induction false} EveryTextIsCut(t: string) returns (c: Cut)
    ensures Leftmost(c) && Whole(c) == t
    decreases |t|
  {
    TicksIs(t);
    if t == "" {
      c := Last("");
    } else if Ticks(t) {
      var tagged := "```json" <= t;
      var n := if tagged then 7 else 3;
      var rest := EveryTextIsCut(t[n..]);
      c := Fenced("", tagged, rest);
      assert t == t[..n] + t[n..] && t[..n] == if tagged then "```json" else "```";
      assert "" + t == t;
    } else {
      var d := EveryTextIsCut(t[1..]);
      c := d.(text := [t[0]] + d.text);
      FrontChar(t, d, c);
    }
  }

  lemma FrontChar(t: string, d: Cut, c: Cut)
    requires t != "" && !Ticks(t) && Leftmost(d) && Whole(d) == t[1..] && c == d.(text := [t[0]] + d.text)
    ensures Leftmost(c) && Whole(c) == t
  {
    assert c.text[1..] == d.text;
    if d.Fenced? {
      var tail := (if d.tagged then "```json" else "```") + Whole(d.rest);
      assert tail[0] == '`' && tail[1] == '`' && tail[2] == '`';
      FrontText(t, d.text, tail, c.text);
    } else {
      FrontText(t, d.text, "", c.text);
      assert d.text + "" == d.text && c.text + "" == c.text;
    }
  }

  lemma FrontText(t: string, text: string, tail: string, front: string)
    requires t != "" && !Ticks(t) && NoFence(text) && t[1..] == text + tail && front == [t[0]] + text
    requires text == "" || tail == "" || text[|text| - 1] != '`'
    requires tail == "" || Ticks(tail)
    ensures NoFence(front) && t == front + tail && (tail == "" || front[|front| - 1] != '`')
  {
    Glue3(t, text, tail, front);
    TicksAt(t, front, tail);
    NoFenceFront(front);
  }

  lemma Glue3(t: string, text: string, tail: string, front: string)
    requires t != "" && t[1..] == text + tail && front == [t[0]] + text
    ensures front != "" && front[1..] == text && t == front + tail
    ensures front[|front| - 1] == if text == "" then t[0] else text[|text| - 1]
  {
    assert t == [t[0]] + t[1..];
  }

  /** A text that begins with no fence has none in front of its tail, nor one reaching into it. */
  lemma TicksAt(t: string, front: string, tail: string)
    requires t == front + tail && front != "" && !Ticks(t) && (tail == "" || Ticks(tail))
    ensures !Ticks(front)
    ensures |front| == 1 && tail != "" ==> front[0] != '`'
  {
    assert t[0] == front[0];
    if |front| == 1 && tail != "" { assert t[1] == tail[0] && t[2] == tail[1]; }
    if |front| >= 3 { assert t[1] == front[1] && t[2] == front[2]; }
  }

  predicate All(p: char -> bool, t: string) { forall i :: 0 <= i < |t| ==> p(t[i]) }

  predicate AllSpace(t: string) { All(IsSpace, t) }

  /** Trimming takes the space at both ends, all of it and nothing else. */
  lemma PreparedIs(c: Cut) returns (before: string, after: string)
    requires Leftmost(c)
    ensures WithoutFences(c) == before + Prepare(Whole(c)) + after && AllSpace(before) && AllSpace(after)
    ensures var s := Prepare(Whole(c)); s == "" || (!IsSpace(s[0]) && !IsSpace(s[|s| - 1]))
  {
    FencesGo(c);
    before := LeftIs(WithoutFences(c));
    after := RightIs(StripLeft(WithoutFences(c)));
    Trimmed(WithoutFences(c), before, StripLeft(WithoutFences(c)), Prepare(Whole(c)), after);
  }

  lemma Trimmed(t: string, before: string, m: string, s: string, after: string)
    requires t == before + m && m == s + after
    ensures t == before + s + after && (s != "" ==> m != "" && m[0] == s[0])
  {
  }

  lemma {:induction false} LeftIs(t: string) returns (a: string)
    ensures t == a + StripLeft(t) && AllSpace(a)
    ensures StripLeft(t) == "" || !IsSpace(StripLeft(t)[0])
    decreases |t|
  {
    a := "";
    if t != "" && IsSpace(t[0]) {
      var b := LeftIs(t[1..]);
      a := [t[0]] + b;
      AllOfTwo(IsSpace, [t[0]], b);
      Glue([t[0]], b, StripLeft(t[1..]), t);
    }
  }

  lemma {:induction false} RightIs(t: string) returns (b: string)
    ensures t == StripRight(t) + b && AllSpace(b)
    ensures StripRight(t) == "" || !IsSpace(StripRight(t)[|StripRight(t)| - 1])
    decreases |t|
  {
    b := "";
    if t != "" && IsSpace(t[|t| - 1]) {
      var last := [t[|t| - 1]];
      var a := RightIs(t[..|t| - 1]);
      b := a + last;
      AllOfTwo(IsSpace, a, last);
      Glue(StripRight(t[..|t| - 1]), a, last, t);
    }
  }

  lemma Glue(a: string, b: string, c: string, t: string)
    requires (t != "" && a + b == t[..|t| - 1] && c == [t[|t| - 1]]) || (t != "" && a == [t[0]] && b + c == t[1..])
    ensures t == (a + b) + c == a + (b + c)
  {
  }

  lemma AllOfTwo(p: char -> bool, a: string, b: string)
    requires All(p, a) && All(p, b)
    ensures All(p, a + b)
  {
  }
}
