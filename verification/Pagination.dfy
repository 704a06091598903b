/** TelnyxClient.get_list of scripts/telnyx_reconcile.py: all the pages of a list, or an error. */
module Pagination {
  import opened Wrappers

  const PAGE_SIZE: nat := 100
  const MAX_PAGES: nat := 50

  /**
   * What a GET of one page comes to: an HTTP error or a payload without a list, or rows and perhaps
   * meta.total_results.
   */
  datatype Response<T> = Refused | Page(rows: seq<T>, total: Option<int>)

  /** The server's answers, by page number counted from 1. */
  type Server<T> = nat -> Response<T>

  /** With `have` rows after this page, the list is complete as far as the client can tell. */
  predicate Stops<T>(page: Response<T>, have: nat) {
    page.Page? && if page.total.Some? then have >= page.total.value else |page.rows| < PAGE_SIZE
  }

  function Follow<T>(server: Server<T>, number: nat, records: seq<T>): Option<seq<T>>
    decreases MAX_PAGES + 1 - number
  {
    if number > MAX_PAGES then None
    else match server(number)
         case Refused => None
         case Page(rows, total) =>
           if Stops(server(number), |records + rows|) then Some(records + rows)
           else Follow(server, number + 1, records + rows)
  }

  /** None stands for the ReconcileError. */
  method GetList<T>(server: Server<T>) returns (r: Option<seq<T>>)
    ensures r == Follow(server, 1, [])
  {
    var records := [];
    var number := 1;
    while number <= MAX_PAGES
      invariant 1 <= number <= MAX_PAGES + 1
      invariant Follow(server, 1, []) == Follow(server, number, records)
    {
      var page := server(number);
      if page.Refused? { return None; }
      records := records + page.rows;
      if page.total.Some? {
        if |records| >= page.total.value { return Some(records); }
      } else if |page.rows| < PAGE_SIZE {
        return Some(records);
      }
      number := number + 1;
    }
    return None;
  }

  // ----- a server that pages honestly

  function Min(x: nat, y: nat): nat { if x <= y then x else y }

  /** Page k holds the rows from (k - 1) * 100 on, as many as fit, and every page tells the total or none does. */
  ghost predicate Honest<T(!new)>(server: Server<T>, items: seq<T>, tellsTotal: bool) {
    forall k :: 1 <= k <= 50 ==>
      server(k) == Page(items[Min((k - 1) * 100, |items|)..Min(k * 100, |items|)],
                        if tellsTotal then Some(|items|) else None)
  }

  /** The longest list a server can hand over. */
  function Capacity(tellsTotal: bool): nat { if tellsTotal then MAX_PAGES * PAGE_SIZE else MAX_PAGES * PAGE_SIZE - 1 }

  lemma {:induction false} FollowsFrom<T(!new)>(server: Server<T>, items: seq<T>, tellsTotal: bool, number: nat)
    requires Honest(server, items, tellsTotal) && 1 <= number <= MAX_PAGES + 1
    requires (number - 1) * PAGE_SIZE <= |items|
    requires tellsTotal && number > 1 ==> (number - 1) * PAGE_SIZE < |items|
    ensures Follow(server, number, items[..(number - 1) * PAGE_SIZE])
            == if |items| <= Capacity(tellsTotal) then Some(items) else None
    decreases MAX_PAGES + 1 - number
  {
    if number <= MAX_PAGES {
      var start, stop := (number - 1) * PAGE_SIZE, Min(number * PAGE_SIZE, |items|);
      assert server(number).rows == items[start..stop];
      assert items[..start] + items[start..stop] == items[..stop];
      assert items[..|items|] == items;
      if !Stops(server(number), stop) { FollowsFrom(server, items, tellsTotal, number + 1); }
    }
  }

  /**
   * Complete or loud: an honest server's list comes back whole and in order, or the call raises because it is too
   * long.
   */
  lemma CompleteOrLoud<T(!new)>(server: Server<T>, items: seq<T>, tellsTotal: bool)
    requires Honest(server, items, tellsTotal)
    ensures Follow(server, 1, []) == if |items| <= (if tellsTotal then 5000 else 4999) then Some(items) else None
  {
    assert items[..0] == [];
    FollowsFrom(server, items, tellsTotal, 1);
  }

  /**
   * Whatever the server answers, a list that comes back was closed by its last page: never cut off by the page limit.
   */
  lemma {:induction false} NeverTruncated<T(!new)>(server: Server<T>, number: nat, records: seq<T>)
    requires Follow(server, number, records).Some?
    ensures var all := Follow(server, number, records).value;
            && records <= all
            && exists k :: number <= k <= 50 && server(k).Page?
                 && if server(k).total.Some? then |all| >= server(k).total.value else |server(k).rows| < 100
    decreases MAX_PAGES + 1 - number
  {
    var rows := server(number).rows;
    if !Stops(server(number), |records + rows|) { NeverTruncated(server, number + 1, records + rows); }
  }
}
