/** The leaders endpoint: query parameters, one request on the wire, and the bounded retry loop (call_api). */
module Api {
  import opened Basics
  import opened Json
  import opened Decimal

  /** The query parameter names the endpoint takes; `Name` is the spelling on the wire. */
  datatype Param =
    | Ind | Lg | Pos | Qual | Season | Season1 | Stats | Month | Players | Team
    | Rost | Type | SortCol | SortDir | PageItems | PageNum | Filter

  function Name(p: Param): string
  {
    match p
    case Ind => "ind"
    case Lg => "lg"
    case Pos => "pos"
    case Qual => "qual"
    case Season => "season"
    case Season1 => "season1"
    case Stats => "stats"
    case Month => "month"
    case Players => "players"
    case Team => "team"
    case Rost => "rost"
    case Type => "type"
    case SortCol => "sortcol"
    case SortDir => "sortdir"
    case PageItems => "pageitems"
    case PageNum => "pagenum"
    case Filter => "filter"
  }

  type Params = map<Param, string>

  const AllParams: set<Param> :=
    {Ind, Lg, Pos, Qual, Season, Season1, Stats, Month, Players, Team,
     Rost, Type, SortCol, SortDir, PageItems, PageNum, Filter}

  lemma AllParamsListed()
    ensures forall p: Param :: p in AllParams
  {
    forall p: Param ensures p in AllParams {
      match p
      case Ind => case Lg => case Pos => case Qual => case Season => case Season1 =>
      case Stats => case Month => case Players => case Team => case Rost => case Type =>
      case SortCol => case SortDir => case PageItems => case PageNum => case Filter =>
    }
  }

  /** The spellings on the wire are pairwise different, so a request has 17 distinct parameters. */
  lemma NamesDistinct(p: Param, q: Param)
    requires p != q
    ensures Name(p) != Name(q)
  {
  }

  const SeasonYear := 2025
  const BigPageItems := 2000000000
  const FallbackPageItems := 500
  const DefaultTries := 6

  /** The statuses the script turns into a RuntimeError of its own before raise_for_status. */
  const RetryStatuses: set<int> := {429, 403, 502, 503, 504}

  /** `str(SEASON)`, written out once so that requests do not recompute it. */
  const SeasonText: string := "2025"

  /** The season text is the decimal rendering of the season. */
  lemma SeasonTextRendersSeason()
    ensures IntToString(SeasonYear) == SeasonText
    ensures ParseInt(SeasonText) == Some(SeasonYear)
  {
    IntRoundTrip(SeasonYear);
  }

  /** leaders_params: the fixed filters plus the caller's values rendered as decimal text. */
  function LeadersParams(players: seq<int>, stats: string, month: int, pageitems: int, pagenum: int): (r: Params)
    ensures forall p: Param :: p in r
  {
    RequestMap(stats, SeasonText, JoinIds(players), IntToString(month), IntToString(pageitems), IntToString(pagenum))
  }

  /** The player list and the stat type are sent as given, and no filter is sent. */
  lemma LeadersParamsText(players: seq<int>, stats: string, month: int, pageitems: int, pagenum: int)
    ensures var r := LeadersParams(players, stats, month, pageitems, pagenum);
      r[Players] == JoinIds(players) && r[Stats] == stats && r[Filter] == ""
  {
  }

  /** The month, the page size and the page number are sent as their decimal text. */
  lemma LeadersParamsNumbers(players: seq<int>, stats: string, month: int, pageitems: int, pagenum: int)
    ensures var r := LeadersParams(players, stats, month, pageitems, pagenum);
      r[Month] == IntToString(month) && r[PageItems] == IntToString(pageitems) && r[PageNum] == IntToString(pagenum)
  {
  }

  /** The season is sent under both season keys as "2025". */
  lemma LeadersParamsSeason(players: seq<int>, stats: string, month: int, pageitems: int, pagenum: int)
    ensures var r := LeadersParams(players, stats, month, pageitems, pagenum);
      r[Season] == "2025" && r[Season1] == "2025"
  {
  }

  /**
   * Every caller value can be read back from the request: the player list in order and with
   * repeats, the numbers as the same integers, the stat type and the fixed season as sent.
   */
  lemma LeadersParamsReadBack(players: seq<int>, stats: string, month: int, pageitems: int, pagenum: int)
    ensures var r := LeadersParams(players, stats, month, pageitems, pagenum);
      && ParseIds(r[Players]) == Some(players)
      && r[Stats] == stats
      && ParseInt(r[Month]) == Some(month)
      && ParseInt(r[PageItems]) == Some(pageitems)
      && ParseInt(r[PageNum]) == Some(pagenum)
      && r[Season] == "2025" && r[Season1] == "2025"
      && r[Filter] == ""
  {
    LeadersParamsText(players, stats, month, pageitems, pagenum);
    LeadersParamsNumbers(players, stats, month, pageitems, pagenum);
    LeadersParamsSeason(players, stats, month, pageitems, pagenum);
    IdsRoundTrip(players);
    IntRoundTrip(month);
    IntRoundTrip(pageitems);
    IntRoundTrip(pagenum);
  }

  /** The arguments of one leaders_params call. */
  datatype Query = Query(players: seq<int>, stats: string, month: int, pageitems: int, pagenum: int)

  function Render(q: Query): Params
  {
    LeadersParams(q.players, q.stats, q.month, q.pageitems, q.pagenum)
  }

  /** The value sent for parameter `p`: fixed filters, and the caller's values already rendered as text. */
  function ParamValue(p: Param, stats: string, season: string, players: string, month: string,
                      pageitems: string, pagenum: string): string
  {
    match p
    case Ind => "0"
    case Lg => "all"
    case Pos => "all"
    case Qual => "0"
    case Season => season
    case Season1 => season
    case Stats => stats
    case Month => month
    case Players => players
    case Team => "0,ts"
    case Rost => "0"
    case Type => "8"
    case SortCol => "17"
    case SortDir => "default"
    case PageItems => pageitems
    case PageNum => pagenum
    case Filter => ""
  }

  /** The request dict: every parameter present, each with its value. */
  function RequestMap(stats: string, season: string, players: string, month: string, pageitems: string, pagenum: string): (r: Params)
    ensures forall p: Param :: p in r && r[p] == ParamValue(p, stats, season, players, month, pageitems, pagenum)
  {
    AllParamsListed();
    map p | p in AllParams :: ParamValue(p, stats, season, players, month, pageitems, pagenum)
  }

  /**
   * Different arguments give different requests: the rendered map determines every argument of
   * leaders_params, so a server may as well be told the arguments themselves.
   */
  lemma LeadersParamsInjective(a: Query, b: Query)
    requires a != b
    ensures Render(a) != Render(b)
  {
    LeadersParamsReadBack(a.players, a.stats, a.month, a.pageitems, a.pagenum);
    LeadersParamsReadBack(b.players, b.stats, b.month, b.pageitems, b.pagenum);
    var ra, rb := Render(a), Render(b);
    assert ParseIds(ra[Players]) != ParseIds(rb[Players]) || ra[Stats] != rb[Stats]
        || ParseInt(ra[Month]) != ParseInt(rb[Month]) || ParseInt(ra[PageItems]) != ParseInt(rb[PageItems])
        || ParseInt(ra[PageNum]) != ParseInt(rb[PageNum]);
  }

  /** What came back on the wire for one request. */
  datatype Reply =
    | NoResponse                        // requests raised: timeout, refused connection, reset
    | Response(status: int, json: bool) // a response; `json` says whether its body decodes

  /**
   * The upstream as the model sees it: `content` is the JSON the server sends for a request,
   * `wire(n)` is what happens to the n-th request of the run (counting every attempt). A request
   * is whatever identifies it to the server: the fetcher uses `Query`, whose rendering
   * `LeadersParamsInjective` shows to identify it.
   */
  datatype Network<!Req> = Network(content: Req -> Value, wire: nat -> Reply)

  /** One pass through the try block of call_api for the n-th request of the run. */
  function Attempt<Req>(net: Network<Req>, n: nat, params: Req): (r: Result<Value>)
    ensures r.Ok? <==> net.wire(n).Response? && net.wire(n).json
                       && net.wire(n).status !in RetryStatuses && !(400 <= net.wire(n).status < 600)
    ensures r.Ok? ==> r.value == net.content(params)
  {
    match net.wire(n)
    case NoResponse => Err(Transport)
    case Response(status, json) =>
      if status in RetryStatuses then Err(Throttled(status))
      else if 400 <= status < 600 then Err(HttpError(status))
      else if !json then Err(BadJson)
      else Ok(net.content(params))
  }

  function Min(a: real, b: real): real
  {
    if a <= b then a else b
  }

  /** The pause after the i-th failed attempt (counting from 0): 2, then times 1.8, capped at 20. */
  function Backoff(i: nat): (d: real)
    ensures 2.0 <= d <= 20.0
  {
    if i == 0 then 2.0 else Min(Backoff(i - 1) * 1.8, 20.0)
  }

  /** The pause never shrinks from one failure to the next. */
  lemma {:induction false} BackoffMonotone(i: nat, j: nat)
    requires i <= j
    ensures Backoff(i) <= Backoff(j)
  {
    if i < j {
      BackoffMonotone(i, j - 1);
    }
  }

  /** The cap is reached at the fifth pause and holds from then on. */
  lemma {:induction false} BackoffCapped(i: nat)
    requires i >= 4
    ensures Backoff(i) == 20.0
  {
    if i > 4 {
      BackoffCapped(i - 1);
    } else {
      assert Backoff(1) == 3.6;
      assert Backoff(2) == 6.48;
      assert Backoff(3) == 11.664;
    }
  }

  /**
   * call_api: attempts are made one after another, starting with request number `clock`, and the
   * first that succeeds is returned; every failure is retried until `tries` attempts are spent,
   * and then the last failure is raised. `next` is the number of the next request of the run and
   * `sleeps` lists the pauses taken between attempts.
   */
  method CallApi<Req>(net: Network<Req>, params: Req, tries: int, clock: nat)
    returns (res: Result<Value>, next: nat, sleeps: seq<real>)
    ensures clock <= next <= clock + (if tries > 0 then tries else 0)
    ensures forall n :: clock <= n < next - 1 ==> Attempt(net, n, params).Err?
    ensures tries <= 0 ==> next == clock && res == Err(NoAttempt)
    ensures tries > 0 ==> next > clock && res == Attempt(net, next - 1, params)
    ensures tries > 0 && res.Err? ==> next == clock + tries
    ensures res.Ok? ==> res.value == net.content(params)
    ensures |sleeps| == (if next > clock then next - clock - 1 else 0)
    ensures forall i :: 0 <= i < |sleeps| ==> sleeps[i] == Backoff(i)
  {
    var delay := 2.0;
    var attempt := 1;
    next := clock;
    sleeps := [];
    while attempt <= tries
      invariant 1 <= attempt <= (if tries >= 1 then tries else 1)
      invariant next == clock + attempt - 1
      invariant forall n :: clock <= n < next ==> Attempt(net, n, params).Err?
      invariant |sleeps| == attempt - 1 && forall i :: 0 <= i < |sleeps| ==> sleeps[i] == Backoff(i)
      invariant delay == Backoff(attempt - 1)
    {
      res := Attempt(net, next, params);
      next := next + 1;
      if res.Ok? || attempt == tries {
        return;
      }
      sleeps := sleeps + [delay];
      delay := Min(delay * 1.8, 20.0);
      attempt := attempt + 1;
    }
    res := Err(NoAttempt);
  }

  /** The default six tries wait 2 + 3.6 + 6.48 + 11.664 + 20 time units at most before giving up. */
  lemma DefaultScheduleTotal()
    ensures Backoff(0) + Backoff(1) + Backoff(2) + Backoff(3) + Backoff(4) == 43.744
  {
    BackoffCapped(4);
    assert Backoff(1) == 3.6;
    assert Backoff(2) == 6.48;
    assert Backoff(3) == 11.664;
  }
}
