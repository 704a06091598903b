/**
 * What the tailer of LogTailer reads and remembers: the lines a text is cut into, the order in which
 * identities reach the handler, and the bounded memory that keeps them from reaching it twice.
 */
module LogMemory {
  import opened Wrappers
  import opened LogTailer

  // ----- the lines of a text

  function Joined(lines: seq<string>): string {
    if lines == [] then "" else lines[0] + Joined(lines[1..])
  }

  /** A line ends at its first newline, and only the last line of a text may lack one. */
  predicate LineOk(line: string, last: bool) {
    && line != "" && (forall i :: 0 <= i < |line| - 1 ==> line[i] != '\n')
    && (line[|line| - 1] == '\n' || last)
  }

  lemma {:induction false} LineEndIs(t: string)
    requires t != ""
    ensures LineOk(t[..LineEnd(t)], LineEnd(t) == |t|)
    decreases |t|
  {
    if t[0] != '\n' && |t| > 1 {
      LineEndIs(t[1..]);
      assert t[..LineEnd(t)] == [t[0]] + t[1..][..LineEnd(t[1..])];
    }
  }

  /** The lines of a text are the text cut behind each newline: nothing is lost, added or moved. */
  lemma {:induction false} LinesAre(t: string)
    ensures Joined(Lines(t)) == t
    ensures forall i :: 0 <= i < |Lines(t)| ==> LineOk(Lines(t)[i], i == |Lines(t)| - 1)
    decreases |t|
  {
    if t != "" {
      var n := LineEnd(t);
      LineEndIs(t);
      LinesAre(t[n..]);
      assert t == t[..n] + t[n..];
      assert Lines(t)[0] == t[..n] && Lines(t)[1..] == Lines(t[n..]);
      if n == |t| { assert Lines(t[n..]) == []; }
    }
  }

  // ----- the order of the handler's calls

  /** The identities of the lines that are events, up to the first line that raises. */
  function Events<Id>(classify: string -> Kind<Id>, lines: seq<string>): seq<Id>
    decreases |lines|
  {
    if lines == [] || classify(lines[0]).Poison? then []
    else (if classify(lines[0]).Event? then [classify(lines[0]).id] else []) + Events(classify, lines[1..])
  }

  predicate Subsequence<T(==)>(part: seq<T>, whole: seq<T>)
    decreases |whole|
  {
    || part == []
    || (whole != []
        && ((part[0] == whole[0] && Subsequence(part[1..], whole[1..])) || Subsequence(part, whole[1..])))
  }

  /** A pass only appends to the handler's calls, in the order of the lines. */
  lemma {:induction false} HandedInOrder<Id>(
    classify: string -> Kind<Id>, order: Order<Id>, t: Tail<Id>, lines: seq<string>) returns (added: seq<Id>)
    ensures DispatchAll(classify, order, t, lines).tail.handed == t.handed + added
    ensures Subsequence(added, Events(classify, lines))
    decreases |lines|
  {
    added := [];
    if lines != [] && !classify(lines[0]).Poison? {
      var evs := Events(classify, lines);
      if classify(lines[0]).Event? {
        var x := classify(lines[0]).id;
        var d := Deliver(order, t, x);
        var rest := HandedInOrder(classify, order, d, lines[1..]);
        assert evs == [x] + Events(classify, lines[1..]) && evs[1..] == Events(classify, lines[1..]);
        if x in t.seen {
          added := rest;
        } else {
          added := [x] + rest;
          assert added[1..] == rest;
          assert t.handed + added == d.handed + rest;
        }
      } else {
        added := HandedInOrder(classify, order, t, lines[1..]);
        assert evs == Events(classify, lines[1..]);
      }
    }
  }

  // ----- the memory

  /** `order` lists every set, each element once. */
  ghost predicate Lists<Id(!new)>(order: Order<Id>) {
    forall s, n :: (set x | x in order(s, n)) == s && Distinct(order(s, n))
  }

  lemma SetOfDistinct<T>(xs: seq<T>)
    requires Distinct(xs)
    ensures |(set x | x in xs)| == |xs|
  {
    if xs != [] {
      var ys := xs[..|xs| - 1];
      SetOfDistinct(ys);
      assert (set x | x in xs) == (set x | x in ys) + {xs[|xs| - 1]};
    }
  }

  /**
   * A new identity is remembered beside the others until 5000 are known. The next one makes the
   * tailer forget all but the last 2500 of the listing, and is handed over all the same.
   */
  lemma MemoryOfOne<Id(!new)>(order: Order<Id>, t: Tail<Id>, id: Id)
    requires Lists(order) && |t.seen| <= 5000
    ensures var u := Deliver(order, t, id); var all := order(t.seen + {id}, |t.handed|);
            && |u.seen| <= 5000
            && (id in t.seen ==> u == t)
            && (id !in t.seen ==> u.handed == t.handed + [id])
            && (id !in t.seen && |t.seen| < 5000 ==> u.seen == t.seen + {id})
            && (id !in t.seen && |t.seen| == 5000 ==>
                  |all| == 5001 && |u.seen| == 2500 && forall x :: x in u.seen <==> x in all[2501..])
  {
    var seen := t.seen + {id};
    var all := order(seen, |t.handed|);
    if id !in t.seen && |t.seen| == 5000 {
      SetOfDistinct(all);
      assert Distinct(all[2501..]);
      SetOfDistinct(all[2501..]);
    }
  }

  lemma {:induction false} MemoryOfPass<Id(!new)>(
    classify: string -> Kind<Id>, order: Order<Id>, t: Tail<Id>, lines: seq<string>)
    requires Lists(order) && |t.seen| <= 5000
    ensures |DispatchAll(classify, order, t, lines).tail.seen| <= 5000
    decreases |lines|
  {
    if lines != [] {
      match classify(lines[0])
      case Poison =>
      case Event(x) =>
        MemoryOfOne(order, t, x);
        MemoryOfPass(classify, order, Deliver(order, t, x), lines[1..]);
      case _ => MemoryOfPass(classify, order, t, lines[1..]);
    }
  }

  /** Over any run at most 5000 identities are remembered, and only what was handed over is. */
  lemma {:induction false} MemoryIsBounded<Id(!new)>(
    classify: string -> Kind<Id>, order: Order<Id>, logs: seq<Option<Log>>)
    requires Lists(order)
    ensures var t := After(classify, order, logs).tail; |t.seen| <= 5000 && Remembers(t)
    decreases |logs|
  {
    assert Enumerates(order) by {
      forall s, n, x | x in order(s, n) ensures x in s { assert x in (set y | y in order(s, n)); }
    }
    if logs != [] {
      var s := After(classify, order, logs[..|logs| - 1]);
      MemoryIsBounded(classify, order, logs[..|logs| - 1]);
      var log := logs[|logs| - 1];
      if log.Some? {
        MemoryOfPass(classify, order, s.tail, LinesRead(classify, s.book, log.value));
        DispatchRemembers(classify, order, s.tail, LinesRead(classify, s.book, log.value));
      }
    }
  }
}
