/** The completeness strategy (fetch_all) and one task of the job (fetch_and_save). */
module Fetch {
  import opened Basics
  import opened Json
  import opened Rows
  import opened Hitters
  import opened Api

  /** The request and the rows of page p of the fallback paging, as the server would answer it. */
  function PageRequest(players: seq<int>, stats: string, month: int, p: int): Query
  {
    Query(players, stats, month, FallbackPageItems, p)
  }

  function PageRows(net: Network<Query>, players: seq<int>, stats: string, month: int, p: int): Result<seq<Row>>
  {
    NormalizeRows(net.content(PageRequest(players, stats, month, p)))
  }

  /** Paging ends at page p: the payload is no object (the script fails), or the page is short or empty. */
  predicate StopsAt(net: Network<Query>, players: seq<int>, stats: string, month: int, p: int)
  {
    var page := PageRows(net, players, stats, month, p);
    page.Err? || |page.value| < FallbackPageItems
  }

  /** The server's pages run out somewhere; without this the paging loop of the script never ends. */
  ghost predicate HasLastPage(net: Network<Query>, players: seq<int>, stats: string, month: int)
  {
    exists k: nat :: 1 <= k && StopsAt(net, players, stats, month, k)
  }

  /** The one-shot request brings an object payload with at most 10 rows, so fetch_all goes on to page. */
  predicate OneShotPages(net: Network<Query>, players: seq<int>, stats: string, month: int)
  {
    var oneShot := NormalizeRows(net.content(Query(players, stats, month, BigPageItems, 1)));
    oneShot.Ok? && |oneShot.value| <= 10
  }

  /**
   * Request `q` ended in an error for good by request number `next`: its payload is no object,
   * or the last six attempts before `next`, all of which were made since `clock`, failed.
   */
  ghost predicate GaveUp(net: Network<Query>, q: Query, clock: nat, next: nat)
  {
    || NormalizeRows(net.content(q)).Err?
    || (clock + DefaultTries <= next && forall n :: next - DefaultTries <= n < next ==> Attempt(net, n, q).Err?)
  }

  /**
   * A request whose server answers with an object never gives up when the network recovers
   * after one failed attempt: the retry that follows brings its rows.
   */
  lemma TransientFailureRecovers(net: Network<Query>, q: Query, clock: nat, next: nat)
    requires net.content(q).Object?
    requires Reliable(net, clock + 1)
    ensures !GaveUp(net, q, clock, next)
  {
    if clock + DefaultTries <= next {
      assert net.wire(next - 1) == Response(200, true);
      assert Attempt(net, next - 1, q).Ok?;
    }
  }

  /** Pages 1, ..., k-1 were all long enough for the paging to go on. */
  ghost predicate WentOn(net: Network<Query>, players: seq<int>, stats: string, month: int, k: int)
  {
    forall p :: 1 <= p < k ==> !StopsAt(net, players, stats, month, p)
  }

  /** The rows of pages 1..k, page after page. */
  function Gathered(net: Network<Query>, players: seq<int>, stats: string, month: int, k: nat): seq<Row>
  {
    if k == 0 then []
    else
      var page := PageRows(net, players, stats, month, k);
      Gathered(net, players, stats, month, k - 1) + (if page.Ok? then page.value else [])
  }

  /**
   * A paging that ends well after k pages: pages 1, ..., k-1 are long enough to go on, page k is
   * the first that stops it and carries an object payload, and the rows are those of pages 1..k.
   */
  ghost predicate Paged(net: Network<Query>, players: seq<int>, stats: string, month: int, k: int, rows: seq<Row>)
  {
    && k >= 1
    && (forall p :: 1 <= p < k ==> !StopsAt(net, players, stats, month, p))
    && StopsAt(net, players, stats, month, k)
    && PageRows(net, players, stats, month, k).Ok?
    && rows == Gathered(net, players, stats, month, k)
  }

  /**
   * What a successful fetch_all returns, given the (page size, page number) of each request it
   * handed to call_api, in order: the one-shot rows when there are more than 10 of them, after
   * that single request; otherwise a paging through pages 1, 2, ..., k requested in turn.
   */
  ghost predicate Fetched(net: Network<Query>, players: seq<int>, stats: string, month: int,
                          requests: seq<(int, int)>, rows: seq<Row>)
  {
    && |requests| >= 1
    && requests[0] == (BigPageItems, 1)
    && var oneShot := NormalizeRows(net.content(Query(players, stats, month, BigPageItems, 1)));
       && oneShot.Ok?
       && if |oneShot.value| > 10 then
            |requests| == 1 && rows == oneShot.value
          else
            && (forall i :: 1 <= i < |requests| ==> requests[i] == (FallbackPageItems, i))
            && Paged(net, players, stats, month, |requests| - 1, rows)
  }

  /** Every request from number `clock` on gets a 200 response with a JSON body. */
  ghost predicate Reliable(net: Network<Query>, clock: nat)
  {
    forall n: nat :: clock <= n ==> net.wire(n) == Response(200, true)
  }

  /** The server answers every request with a JSON object. */
  ghost predicate AnswersObjects(net: Network<Query>)
  {
    forall q: Query :: net.content(q).Object?
  }

  lemma ReliableLater(net: Network<Query>, clock: nat, later: nat)
    requires Reliable(net, clock) && clock <= later
    ensures Reliable(net, later)
  {
  }

  /** `normalize_rows(call_api(params))`: one request with its retries, and the rows it carries. */
  method Request(net: Network<Query>, params: Query, clock: nat) returns (rows: Result<seq<Row>>, next: nat)
    ensures clock <= next
    ensures rows.Ok? ==> rows == NormalizeRows(net.content(params))
    ensures Reliable(net, clock) && net.content(params).Object? ==> rows.Ok? && Reliable(net, next)
    ensures rows.Err? ==> rows == NormalizeRows(net.content(params))
                          || (next == clock + DefaultTries && forall n :: clock <= n < next ==> Attempt(net, n, params).Err?)
  {
    var reply, sleeps;
    reply, next, sleeps := CallApi(net, params, DefaultTries, clock);
    if reply.Err? {
      return Err(reply.error), next;
    }
    rows := NormalizeRows(reply.value);
    if Reliable(net, clock) {
      ReliableLater(net, clock, next);
    }
  }

  /**
   * The fallback paging loop of fetch_all: pages of 500 from page 1 on, until a page is empty or
   * short. A failed request or a payload that is no object ends it with that failure.
   */
  method FetchPages(net: Network<Query>, players: seq<int>, stats: string, month: int, clock: nat)
    returns (res: Result<seq<Row>>, next: nat, pages: seq<(int, int)>)
    requires HasLastPage(net, players, stats, month)
    ensures clock <= next
    ensures |pages| >= 1 && forall i :: 0 <= i < |pages| ==> pages[i] == (FallbackPageItems, i + 1)
    ensures res.Ok? ==> Paged(net, players, stats, month, |pages|, res.value)
    ensures res.Err? ==> (forall q :: 1 <= q < |pages| ==> !StopsAt(net, players, stats, month, q))
                         && (PageRows(net, players, stats, month, |pages|).Err?
                             || (clock + DefaultTries <= next
                                 && forall n :: next - DefaultTries <= n < next ==>
                                      Attempt(net, n, PageRequest(players, stats, month, |pages|)).Err?))
    ensures Reliable(net, clock) && AnswersObjects(net) ==> res.Ok?
  {
    ghost var last :| 1 <= last && StopsAt(net, players, stats, month, last);
    var all: seq<Row> := [];
    var p := 1;
    next := clock;
    pages := [];
    while true
      invariant 1 <= p <= last
      invariant clock <= next
      invariant |pages| == p - 1 && forall i :: 0 <= i < |pages| ==> pages[i] == (FallbackPageItems, i + 1)
      invariant forall q :: 1 <= q < p ==> !StopsAt(net, players, stats, month, q)
      invariant all == Gathered(net, players, stats, month, p - 1)
      invariant Reliable(net, clock) && AnswersObjects(net) ==> Reliable(net, next)
      decreases last - p
    {
      pages := pages + [(FallbackPageItems, p)];
      var chunk;
      chunk, next := Request(net, PageRequest(players, stats, month, p), next);
      if chunk.Err? {
        return Err(chunk.error), next, pages;
      }
      if chunk.value == [] {
        break;
      }
      all := all + chunk.value;
      if |chunk.value| < FallbackPageItems {
        break;
      }
      p := p + 1;
    }
    res := Ok(all);
  }

  /**
   * fetch_all: one oversized request, then fallback paging with pages of 500. Whatever fails on
   * the wire, a result that comes back is the one `Fetched` describes; on a network that never
   * fails and a server that always answers with an object, a result always comes back.
   */
  method FetchAll(net: Network<Query>, players: seq<int>, stats: string, month: int, clock: nat)
    returns (res: Result<seq<Row>>, next: nat, requests: seq<(int, int)>)
    requires OneShotPages(net, players, stats, month) ==> HasLastPage(net, players, stats, month)
    ensures clock <= next
    ensures |requests| >= 1 && requests[0] == (BigPageItems, 1)
    ensures forall i :: 1 <= i < |requests| ==> requests[i] == (FallbackPageItems, i)
    ensures res.Ok? ==> Fetched(net, players, stats, month, requests, res.value)
    ensures res.Err? ==>
              GaveUp(net, Query(players, stats, month, requests[|requests| - 1].0, requests[|requests| - 1].1), clock, next)
    ensures res.Err? && |requests| >= 2 ==>
              OneShotPages(net, players, stats, month) && WentOn(net, players, stats, month, |requests| - 1)
    ensures Reliable(net, clock) && AnswersObjects(net) ==> res.Ok?
  {
    requests := [(BigPageItems, 1)];
    var rows;
    rows, next := Request(net, Query(players, stats, month, BigPageItems, 1), clock);
    if rows.Err? {
      return rows, next, requests;
    }
    if |rows.value| > 10 {
      FetchedOneShot(net, players, stats, month, rows.value);
      return rows, next, requests;
    }
    var pages;
    res, next, pages := FetchPages(net, players, stats, month, next);
    requests := requests + pages;
    assert forall i :: 1 <= i < |requests| ==> requests[i] == pages[i - 1];
    if res.Ok? {
      FetchedPaged(net, players, stats, month, pages, res.value);
    } else {
      assert requests[|requests| - 1] == (FallbackPageItems, |pages|);
      assert GaveUp(net, PageRequest(players, stats, month, |pages|), clock, next);
    }
  }

  /** The one-shot request settles the fetch when it brings more than 10 rows. */
  lemma FetchedOneShot(net: Network<Query>, players: seq<int>, stats: string, month: int, rows: seq<Row>)
    requires NormalizeRows(net.content(Query(players, stats, month, BigPageItems, 1))) == Ok(rows)
    requires |rows| > 10
    ensures Fetched(net, players, stats, month, [(BigPageItems, 1)], rows)
  {
  }

  /** Otherwise the paging that follows it settles the fetch. */
  lemma FetchedPaged(net: Network<Query>, players: seq<int>, stats: string, month: int,
                     pages: seq<(int, int)>, rows: seq<Row>)
    requires var oneShot := NormalizeRows(net.content(Query(players, stats, month, BigPageItems, 1)));
               oneShot.Ok? && |oneShot.value| <= 10
    requires forall i :: 0 <= i < |pages| ==> pages[i] == (FallbackPageItems, i + 1)
    requires Paged(net, players, stats, month, |pages|, rows)
    ensures Fetched(net, players, stats, month, [(BigPageItems, 1)] + pages, rows)
  {
    var requests := [(BigPageItems, 1)] + pages;
    assert forall i :: 1 <= i < |requests| ==> requests[i] == pages[i - 1];
  }

  /** Two successful pagings over the same server stop at the same page. */
  lemma PagedUnique(net: Network<Query>, players: seq<int>, stats: string, month: int,
                    k1: int, rows1: seq<Row>, k2: int, rows2: seq<Row>)
    requires Paged(net, players, stats, month, k1, rows1) && Paged(net, players, stats, month, k2, rows2)
    ensures k1 == k2 && rows1 == rows2
  {
  }

  /** A fetch that succeeds is determined by the server alone: retries and wire faults never change it. */
  lemma FetchedDeterministic(net: Network<Query>, players: seq<int>, stats: string, month: int,
                             requests1: seq<(int, int)>, rows1: seq<Row>,
                             requests2: seq<(int, int)>, rows2: seq<Row>)
    requires Fetched(net, players, stats, month, requests1, rows1)
    requires Fetched(net, players, stats, month, requests2, rows2)
    ensures requests1 == requests2 && rows1 == rows2
  {
    var oneShot := NormalizeRows(net.content(Query(players, stats, month, BigPageItems, 1)));
    if |oneShot.value| <= 10 {
      PagedUnique(net, players, stats, month, |requests1| - 1, rows1, |requests2| - 1, rows2);
      assert forall i :: 0 <= i < |requests1| ==> requests1[i] == requests2[i];
    }
  }

  /** What the task writes: rows normalized to the hitter schema for "bat", the raw rows otherwise. */
  datatype Table = RawTable(rows: seq<Row>) | HitterTable(hitters: seq<HitterRow>)

  /** One written file: `data/fa/<out_name>.json` and its content. */
  datatype Saved = Saved(path: string, table: Table)

  /** The file fetch_and_save writes for a task named `outName`. */
  function OutPath(outName: string): (path: string)
    ensures |path| == |outName| + 13
    ensures path[..8] == "data/fa/" && path[|path| - 5..] == ".json"
    ensures path[8..|path| - 5] == outName
  {
    "data/fa/" + outName + ".json"
  }

  /** The table written for `stats`: one hitter row per fetched row, in order, for "bat"; the rows as fetched otherwise. */
  function Tabulate(stats: string, rows: seq<Row>, conv: FloatConv): (t: Table)
    ensures stats == "bat" <==> t.HitterTable?
    ensures t.RawTable? ==> t.rows == rows
    ensures t.HitterTable? ==> |t.hitters| == |rows|
                               && forall i :: 0 <= i < |rows| ==> t.hitters[i] == NormalizeHitter(rows[i], conv)
  {
    if stats == "bat" then HitterTable(seq(|rows|, i requires 0 <= i < |rows| => NormalizeHitter(rows[i], conv)))
    else RawTable(rows)
  }

  /** Every row of a hitter table has exactly the columns of the hitter schema, in order. */
  lemma HitterTableSchema(rows: seq<Row>, conv: FloatConv)
    ensures forall i :: 0 <= i < |Tabulate("bat", rows, conv).hitters| ==> Keys(Tabulate("bat", rows, conv).hitters[i]) == HitterCols
  {
  }

  /**
   * fetch_and_save: look up the segment's player ids (a missing key fails before any request),
   * fetch every row, normalize hitters for "bat", and write the table to the task's file.
   */
  method FetchAndSave(net: Network<Query>, segments: map<string, seq<int>>, conv: FloatConv,
                      outName: string, segKey: string, stats: string, month: int, clock: nat)
    returns (res: Result<Saved>, next: nat, requests: seq<(int, int)>)
    requires segKey in segments && OneShotPages(net, segments[segKey], stats, month) ==>
               HasLastPage(net, segments[segKey], stats, month)
    ensures clock <= next
    ensures segKey !in segments ==> res == Err(MissingSegment(segKey)) && next == clock && requests == []
    ensures res.Ok? ==> res.value.path == OutPath(outName)
                        && exists rows :: Fetched(net, segments[segKey], stats, month, requests, rows)
                                          && res.value.table == Tabulate(stats, rows, conv)
    ensures segKey in segments && Reliable(net, clock) && AnswersObjects(net) ==> res.Ok?
    ensures segKey in segments && res.Err? ==>
              |requests| >= 1
              && GaveUp(net, Query(segments[segKey], stats, month, requests[|requests| - 1].0, requests[|requests| - 1].1),
                        clock, next)
    ensures segKey in segments && res.Err? && |requests| >= 2 ==>
              OneShotPages(net, segments[segKey], stats, month) && WentOn(net, segments[segKey], stats, month, |requests| - 1)
  {
    if segKey !in segments {
      return Err(MissingSegment(segKey)), clock, [];
    }
    var players := segments[segKey];
    var rows;
    rows, next, requests := FetchAll(net, players, stats, month, clock);
    if rows.Err? {
      return Err(rows.error), next, requests;
    }
    res := Ok(Saved(OutPath(outName), Tabulate(stats, rows.value, conv)));
  }
}
