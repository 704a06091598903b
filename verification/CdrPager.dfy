/**
 * The paging of read_cdr_rows in packages/telephony-operator/api.py; a line that counts as a row is Some, another one
 * None.
 */
module CdrPager {
  import opened Wrappers

  function Matched<R>(lines: seq<Option<R>>): seq<R> {
    if lines == [] then [] else (if lines[0].Some? then [lines[0].value] else []) + Matched(lines[1..])
  }

  function Clip(n: int, size: nat): nat { if n < 0 then 0 else if n > size then size else n }

  /** Python's xs[:n]. */
  function UpTo<R>(xs: seq<R>, n: int): seq<R> { xs[..Clip(if n < 0 then |xs| + n else n, |xs|)] }

  /** The rows from `seen` on are those of the lines from i on. */
  predicate Ahead<R(==)>(all: seq<R>, seen: nat, lines: seq<Option<R>>, i: nat) {
    seen <= |all| && i <= |lines| && all[seen..] == Matched(lines[i..])
  }

  lemma NoneAhead<R>(all: seq<R>, seen: nat, lines: seq<Option<R>>)
    requires Ahead(all, seen, lines, |lines|)
    ensures seen == |all|
  {
  }

  lemma OneLineOn<R>(all: seq<R>, seen: nat, lines: seq<Option<R>>, i: nat)
    requires Ahead(all, seen, lines, i) && i < |lines|
    ensures lines[i].None? ==> Ahead(all, seen, lines, i + 1)
    ensures lines[i].Some? ==> seen < |all| && all[seen] == lines[i].value && Ahead(all, seen + 1, lines, i + 1)
  {
    assert lines[i..][1..] == lines[i + 1..];
    if lines[i].Some? {
      assert all[seen] == all[seen..][0] && all[seen + 1..] == all[seen..][1..];
    }
  }

  /** The page that starts at `offset`, of the matched rows. */
  function Page<R>(all: seq<R>, limit: nat, offset: int): seq<R> {
    all[Clip(offset, |all|)..Clip(Clip(offset, |all|) + limit, |all|)]
  }

  /**
   * What is returned, as the documentation has it for a limit that is not negative; a negative one gives an empty
   * page that claims more.
   */
  predicate IsPage<R(==)>(all: seq<R>, limit: int, offset: int, page: seq<R>, hasMore: bool) {
    if limit < 0 then page == [] && hasMore
    else page == Page(all, limit, offset) && (hasMore <==> Clip(offset, |all|) + limit < |all|)
  }

  /** The loop so far: `seen` rows matched, of which the first ones were skipped. */
  predicate Reading<R(==)>(all: seq<R>, offset: int, seen: nat, skipped: nat, rows: seq<R>) {
    seen <= |all| && skipped == Clip(offset, seen) && rows == all[skipped..seen]
  }

  lemma OneMoreRow<R>(all: seq<R>, offset: int, seen: nat, skipped: nat, rows: seq<R>)
    requires Reading(all, offset, seen, skipped, rows) && seen < |all|
    ensures if skipped < offset then rows == [] && Reading(all, offset, seen + 1, skipped + 1, rows)
            else Reading(all, offset, seen + 1, skipped, rows + [all[seen]])
  {
  }

  function Cap(limit: int): nat { if limit < 0 then 0 else limit }

  lemma PageRead<R>(all: seq<R>, limit: int, offset: int, seen: nat, skipped: nat, rows: seq<R>)
    requires Reading(all, offset, seen, skipped, rows)
    requires (seen == |all| && |rows| <= Cap(limit)) || |rows| == Cap(limit) + 1
    ensures IsPage(all, limit, offset, UpTo(rows, limit), |rows| > limit)
  {
  }

  method ReadRows<R>(lines: seq<Option<R>>, limit: int, offset: int) returns (page: seq<R>, hasMore: bool)
    ensures IsPage(Matched(lines), limit, offset, page, hasMore)
  {
    ghost var all, seen := Matched(lines), 0;
    var rows: seq<R>, skipped: nat, i := [], 0, 0;
    assert lines[0..] == lines && all[0..] == all;
    while i < |lines|
      invariant i <= |lines| && Reading(all, offset, seen, skipped, rows) && Ahead(all, seen, lines, i)
      invariant |rows| <= Cap(limit)
    {
      OneLineOn(all, seen, lines, i);
      if lines[i].Some? {
        OneMoreRow(all, offset, seen, skipped, rows);
        seen := seen + 1;
        if skipped < offset {
          skipped := skipped + 1;
        } else {
          rows := rows + [lines[i].value];
          if |rows| > limit {
            PageRead(all, limit, offset, seen, skipped, rows);
            return UpTo(rows, limit), true;
          }
        }
      }
      i := i + 1;
    }
    NoneAhead(all, seen, lines);
    PageRead(all, limit, offset, seen, skipped, rows);
    page, hasMore := UpTo(rows, limit), |rows| > limit;
  }

  /** The rows from the offset on, as many as there are up to the limit; a negative offset is zero. */
  lemma PageMeans<R>(all: seq<R>, limit: nat, offset: int, page: seq<R>, hasMore: bool)
    requires IsPage(all, limit, offset, page, hasMore)
    ensures var start := if offset < 0 then 0 else offset;
            && |page| == (if start + limit <= |all| then limit else if start <= |all| then |all| - start else 0)
            && (forall i :: 0 <= i < |page| ==> page[i] == all[start + i])
            && (limit > 0 ==> (hasMore <==> start + limit < |all|))
  {
  }

  /** What a client collects that asks for the next page as long as there is more. */
  function Collected<R>(all: seq<R>, limit: nat, offset: nat): seq<R>
    requires limit > 0
    decreases |all| - offset
  {
    if offset + limit < |all| then Page(all, limit, offset) + Collected(all, limit, offset + limit)
    else Page(all, limit, offset)
  }

  /** Paging to the end gives every matched row once, in order. */
  lemma {:induction false} PagesConcatenate<R>(all: seq<R>, limit: nat, offset: nat)
    requires limit > 0 && offset <= |all|
    ensures Collected(all, limit, offset) == all[offset..]
    decreases |all| - offset
  {
    if offset + limit < |all| {
      PagesConcatenate(all, limit, offset + limit);
      assert all[offset..offset + limit] + all[offset + limit..] == all[offset..];
    }
  }
}
