/**
 * Why a torn log line gives itself away: cut a printed JSON object anywhere, and neither
 * piece is JSON. The log tailer of modules/telephony/text-agent.py rests on this.
 */
module JsonTorn {
  import opened JsonText
  import opened JsonScan

  /** Every accepted text is neutral for the scanner. */
  lemma ParsesNeutral(text: string)
    requires Parses(text)
    ensures text != [] && Neutral(text, 0)
  {
    var pre, v, post :| IsPrinted(text, pre, v, post);
    PrintNonEmpty(v);
    WsNeutral(pre, 0);
    JsonNeutral(v, 0);
    WsNeutral(post, 0);
    NeutralConcat(pre, Print(v), 0);
    NeutralConcat(pre + Print(v), post, 0);
  }

  lemma PrintNonEmpty(v: Json)
    requires Ok(v)
    ensures Print(v) != []
  {
  }

  /** Two scanners at different depths, with the same flags, keep their distance. */
  lemma {:induction false} Shifted(s: Scan, k: int, text: string)
    ensures Run(s.(depth := s.depth + k), text) == Run(s, text).(depth := Run(s, text).depth + k)
    decreases |text|
  {
    if text != [] { Shifted(Step(s, text[0]), k, text[1..]); }
  }

  /** One scanner in a string, one out of it: as long as neither meets a stray backslash, each quote swaps them. */
  lemma {:induction false} Opposite(a: Scan, b: Scan, text: string, d: int, e: int)
    requires a.inString != b.inString && !a.escape && !b.escape
    requires Stays(a, text, d) && Stays(b, text, e)
    ensures Run(a, text).inString != Run(b, text).inString
    decreases |text|
  {
    if text != [] { Opposite(Step(a, text[0]), Step(b, text[0]), text[1..], d, e); }
  }

  /** The first piece of a cut object leaves a brace or a string open. */
  lemma PrefixDoesNotParse(v: Json, p: string, q: string)
    requires Ok(v) && v.Obj? && Print(v) == p + q && p != [] && q != []
    ensures Run(Out(0), p).depth >= 1 && !Parses(p)
  {
    ObjectScan(v, 0);
    var t := Print(v);
    var s := t[..|t| - 1];
    assert p[0] == t[0] == '{';
    assert s == p + s[|p|..];
    assert s[1..] == p[1..] + s[|p|..];
    StaysConcat(Out(1), p[1..], s[|p|..], 1);
    if Parses(p) { ParsesNeutral(p); }
  }

  /** The second piece closes what the first one opened, so it cannot stand alone either. */
  lemma SuffixDoesNotParse(v: Json, p: string, q: string)
    requires Ok(v) && v.Obj? && Print(v) == p + q && p != [] && q != []
    ensures !Parses(q)
  {
    PrefixDoesNotParse(v, p, q);
    JsonNeutral(v, 0);
    RunConcat(Out(0), p, q);
    StaysConcat(Out(0), p, q, 0);
    var live := Run(Out(0), p);
    if Parses(q) {
      ParsesNeutral(q);
      if !live.inString {
        FlagsTogether(Out(0), p);
        Shifted(Out(0), live.depth, q);
        assert false;
      } else if !live.escape {
        Opposite(live, Out(0), q, 0, 0);
        assert false;
      } else {
        EscapePending(live, q);
        assert false;
      }
    }
  }

  /** Outside a string nothing is ever escaped. */
  lemma {:induction false} FlagsTogether(s: Scan, text: string)
    requires s.escape ==> s.inString
    ensures Run(s, text).escape ==> Run(s, text).inString
    decreases |text|
  {
    if text != [] { FlagsTogether(Step(s, text[0]), text[1..]); }
  }

  /** The cut fell between a backslash and the character it escapes. */
  lemma EscapePending(live: Scan, q: string)
    requires live.inString && live.escape && live.depth >= 1
    requires q != [] && Stays(live, q, 0) && Run(live, q) == Out(0)
    requires Stays(Out(0), q, 0)
    ensures Run(Out(0), q) != Out(0)
  {
    var u := q[1..];
    var a, b := Step(live, q[0]), Step(Out(0), q[0]);
    if q[0] == '"' {
      Shifted(b, live.depth, u);
    } else {
      Opposite(a, b, u, 0, 0);
    }
  }

  /** Whitespace after a text neither makes nor breaks it. */
  lemma TrailingWs(q: string, w: string)
    requires q != [] && !IsWs(q[|q| - 1]) && AllWs(w)
    ensures Parses(q + w) <==> Parses(q)
  {
    if Parses(q) {
      var pre, v, post :| IsPrinted(q, pre, v, post);
      assert q + w == pre + Print(v) + (post + w);
      assert IsPrinted(q + w, pre, v, post + w);
    }
    if Parses(q + w) {
      var pre, v, post :| IsPrinted(q + w, pre, v, post);
      PrintEndsSolid(v);
      CutBehind(q, w, pre + Print(v), post);
      assert IsPrinted(q, pre, v, q[|pre + Print(v)|..]);
    }
  }

  lemma CutBehind(q: string, w: string, x: string, post: string)
    requires q != [] && x != [] && !IsWs(x[|x| - 1]) && AllWs(w) && AllWs(post) && q + w == x + post
    ensures |x| <= |q| && q == x + q[|x|..] && AllWs(q[|x|..])
  {
    var t := q + w;
    assert t[|x| - 1] == x[|x| - 1];
    assert forall i :: |q| <= i < |t| ==> t[i] == w[i - |q|];
    assert t[..|q|] == q && t[..|x|] == x;
    assert q[..|x|] == x;
    assert forall i :: |x| <= i < |q| ==> q[i] == t[i] == (x + post)[i] == post[i - |x|];
  }

  lemma PrintEndsSolid(v: Json)
    requires Ok(v)
    ensures Print(v) != [] && !IsWs(Print(v)[|Print(v)| - 1])
  {
  }
}
