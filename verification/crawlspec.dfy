/**
 * The state machine of `AvitoParse` as functions on a snapshot of its
 * fields: `get_proxy_obj`, `get_cookies`, `save_cookies`/`load_cookies`,
 * `change_ip`, `fetch_data`, `parse_views` and the crawl loop `parse`.
 *
 * Everything outside the process is a parameter (`Network`): the k-th page
 * request, the k-th IP echo, the k-th IP-change request, the k-th run of
 * the cookie solver and the k-th look at the stop event each return what
 * the outside world answered. The snapshot counts how many of each were
 * consumed, so a run is a function of the configuration, the answers and
 * the starting state.
 */
module CrawlSpec {
  import opened Wrappers
  import opened Json
  import opened Models
  import opened PyStr
  import opened Extract
  import opened Filters
  import opened PageUrl
  import Seqs

  type Cookies = map<string, string>

  /** The fields of the scraper configuration that the state machine reads. */
  datatype CrawlConfig = CrawlConfig(
    urls: seq<Url>,
    count: int,                  // pages per URL
    maxRetries: int,
    proxyString: string,
    proxyChangeUrl: string,
    proxyChangeUrls: seq<string>,
    hasStopEvent: bool,
    parseViews: bool,
    filter: FilterConfig,
    nowMicros: int)              // the clock reading used by the recency stage

  /** Bounds on the two places where the scraper retries by calling itself again. */
  datatype Bounds = Bounds(ipAttempts: nat, restarts: nat)

  /** What a request is for: a search page or the detail page of a listing (`urlPath`). */
  datatype Target = Page(url: Url) | Detail(urlPath: Option<string>)

  /** An HTTP answer: its status, its body and the cookies it sets. */
  datatype Reply = Reply(status: int, text: string, setCookies: Cookies)

  /** One request: an answer, or a transport error (`RequestsError`) with its message. */
  datatype Attempt = Answered(reply: Reply) | Failed(message: string)

  /** The outside world, as answers indexed by the number of earlier calls of the same kind. */
  datatype Network = Network(
    get: (nat, Target) -> Attempt,
    ipRead: nat -> Option<string>,          // `get_current_ip`, already stripped
    rotate: (nat, string) -> Option<int>,   // status of the IP-change request, None when it raises
    solve: nat -> Option<(Cookies, string)>, // the browser cookie solver: cookies and user agent
    stopped: nat -> bool,                   // `stop_event.is_set()`
    html: string -> Document,               // BeautifulSoup and `json.loads`
    decodeItem: Json -> Option<Item>,       // pydantic validation of one listing
    render: Item -> string)                 // `str(item)`

  /** A snapshot of the fields of `AvitoParse`, plus the call counters. */
  datatype CrawlState = CrawlState(
    good: nat,                  // good_request_count
    bad: nat,                   // bad_request_count
    cookies: Option<Cookies>,   // self.cookies
    userAgent: string,          // headers["user-agent"]
    jar: Cookies,               // the session's cookie jar
    store: Option<Cookies>,     // cookies.json; None when the file does not exist
    currentIp: Option<string>,
    urlIndex: nat,              // current_url_index
    gets: nat,
    ipReads: nat,
    rotations: nat,
    solves: nat,
    stopChecks: nat)

  // ---------------------------------------------------------------------
  // get_proxy_obj
  // ---------------------------------------------------------------------

  datatype Proxy = Proxy(proxyString: string, changeIpLink: string)

  /**
   * `get_proxy_obj`: a proxy needs a proxy string and an IP-change link,
   * the first of the list taking priority over the single link.
   */
  function GetProxyObj(cfg: CrawlConfig): (r: Option<Proxy>)
    ensures r.Some? <==> cfg.proxyString != [] && ChangeLink(cfg) != []
    ensures r.Some? ==> r.value.proxyString == cfg.proxyString
    ensures r.Some? && cfg.proxyChangeUrls != [] ==> r.value.changeIpLink == cfg.proxyChangeUrls[0]
    ensures r.Some? && cfg.proxyChangeUrls == [] ==> r.value.changeIpLink == cfg.proxyChangeUrl
  {
    var link := ChangeLink(cfg);
    if cfg.proxyString != [] && link != [] then Some(Proxy(cfg.proxyString, link)) else None
  }

  /** The change link `get_proxy_obj` picks; "" stands for None. */
  function ChangeLink(cfg: CrawlConfig): string {
    if cfg.proxyChangeUrls != [] then cfg.proxyChangeUrls[0] else cfg.proxyChangeUrl
  }

  // ---------------------------------------------------------------------
  // Cookies
  // ---------------------------------------------------------------------

  /**
   * `get_cookies()` with its default single attempt: non-empty cookies
   * from the solver set the user agent and are returned; an empty result
   * or an exception gives None.
   */
  function GetCookiesSpec(net: Network, s: CrawlState): (r: (Option<Cookies>, CrawlState))
    ensures r.1 == s.(solves := s.solves + 1, userAgent := r.1.userAgent)
    ensures r.0.Some? ==> r.0.value != map[] && net.solve(s.solves) == Some((r.0.value, r.1.userAgent))
    ensures r.0.None? ==> r.1.userAgent == s.userAgent
  {
    var answer := net.solve(s.solves);
    var s1 := s.(solves := s.solves + 1);
    if answer.Some? && answer.value.0 != map[] then (Some(answer.value.0), s1.(userAgent := answer.value.1))
    else (None, s1)
  }

  /** `self.cookies = self.get_cookies()` */
  function RefreshCookies(net: Network, s: CrawlState): (r: CrawlState)
    ensures r.cookies == GetCookiesSpec(net, s).0
    ensures r.solves == s.solves + 1 && r.good == s.good && r.bad == s.bad && r.urlIndex == s.urlIndex
  {
    var (c, s1) := GetCookiesSpec(net, s);
    s1.(cookies := c)
  }

  /** `save_cookies`: the session's cookies replace the file's content. */
  function SaveCookies(s: CrawlState): (r: CrawlState)
    ensures r.store == Some(s.jar) && r == s.(store := r.store)
  {
    s.(store := Some(s.jar))
  }

  /** `load_cookies`: the file's cookies are added to the session; a missing file changes nothing. */
  function LoadCookies(s: CrawlState): (r: CrawlState)
    ensures s.store.None? ==> r == s
    ensures s.store.Some? ==> r == s.(jar := s.jar + s.store.value)
  {
    match s.store
    case None => s
    case Some(saved) => s.(jar := s.jar + saved)
  }

  /** What was saved is what a later load brings back into an empty session. */
  lemma SaveLoadRoundTrip(s: CrawlState)
    ensures LoadCookies(SaveCookies(s).(jar := map[])).jar == s.jar
  {
    assert map[] + s.jar == s.jar;
  }

  // ---------------------------------------------------------------------
  // change_ip
  // ---------------------------------------------------------------------

  /** The IP-change links `change_ip` rotates over: the list, else the single link, else none. */
  function ChangeUrls(cfg: CrawlConfig): (r: seq<string>)
    ensures cfg.proxyChangeUrls != [] ==> r == cfg.proxyChangeUrls
    ensures cfg.proxyChangeUrls == [] && cfg.proxyChangeUrl != [] ==> r == [cfg.proxyChangeUrl]
    ensures cfg.proxyChangeUrls == [] && cfg.proxyChangeUrl == [] ==> r == []
  {
    if cfg.proxyChangeUrls != [] then cfg.proxyChangeUrls
    else if cfg.proxyChangeUrl != [] then [cfg.proxyChangeUrl]
    else []
  }

  predicate IpTruthy(ip: Option<string>) {
    ip.Some? && ip.value != []
  }

  /** How one IP-change request ends. */
  datatype Rotation =
    | Adopted  // a new non-empty IP was read after status 200
    | Retry    // the same IP, a non-200 status or an exception: next link
    | GiveUp   // status 200 but the new IP is empty and differs from the old one

  /**
   * One pass of `change_ip`: read the IP, call the link at
   * `current_url_index % len`, and on status 200 read the IP again. A new
   * non-empty IP is adopted and the index reset to 0; the same IP moves to
   * the next link (back to 0 past the end); any other result gives up. A
   * non-200 status or an exception moves to the next link modulo the number
   * of links.
   */
  function RotateOnce(cfg: CrawlConfig, net: Network, s: CrawlState): (r: (Rotation, CrawlState))
    requires ChangeUrls(cfg) != []
    ensures r.1 == s.(currentIp := r.1.currentIp, urlIndex := r.1.urlIndex, ipReads := r.1.ipReads, rotations := r.1.rotations)
    ensures r.1.rotations == s.rotations + 1
    ensures r.1.ipReads == s.ipReads + 1 || r.1.ipReads == s.ipReads + 2
    ensures r.0 == Adopted ==> (r.1.urlIndex == 0 && IpTruthy(r.1.currentIp) && r.1.ipReads == s.ipReads + 2
                                && r.1.currentIp == net.ipRead(s.ipReads + 1) && r.1.currentIp != net.ipRead(s.ipReads))
    ensures r.0 != Adopted ==> r.1.currentIp == s.currentIp
    ensures s.urlIndex < |ChangeUrls(cfg)| ==> r.1.urlIndex < |ChangeUrls(cfg)|
  {
    var urls := ChangeUrls(cfg);
    var oldIp := net.ipRead(s.ipReads);
    var status := net.rotate(s.rotations, urls[s.urlIndex % |urls|]);
    var s2 := s.(ipReads := s.ipReads + 1, rotations := s.rotations + 1);
    if status == Some(200) then RotateSuccess(cfg, net, s2, oldIp)
    else (Retry, s2.(urlIndex := (s2.urlIndex + 1) % |urls|))
  }

  /** After an IP-change request answered 200: the IP is read again and compared with the one before. */
  function RotateSuccess(cfg: CrawlConfig, net: Network, s: CrawlState, oldIp: Option<string>): (Rotation, CrawlState)
    requires ChangeUrls(cfg) != []
  {
    var urls := ChangeUrls(cfg);
    var newIp := net.ipRead(s.ipReads);
    var s3 := s.(ipReads := s.ipReads + 1);
    if IpTruthy(newIp) && newIp != oldIp then
      (Adopted, s3.(currentIp := newIp, urlIndex := 0))
    else if newIp == oldIp then
      (Retry, s3.(urlIndex := if s3.urlIndex + 1 >= |urls| then 0 else s3.urlIndex + 1))
    else (GiveUp, s3)
  }

  /**
   * How one pass ends. The IP is adopted exactly when the link answers 200
   * and the IP read afterwards is non-empty and new. It is retried exactly
   * when the link does not answer 200 (an exception included) or the IP did
   * not change. Any other answer gives up.
   */
  lemma RotateOutcome(cfg: CrawlConfig, net: Network, s: CrawlState)
    requires ChangeUrls(cfg) != [] && s.urlIndex < |ChangeUrls(cfg)|
    ensures var status := net.rotate(s.rotations, ChangeUrls(cfg)[s.urlIndex]);
            RotateOnce(cfg, net, s).0 == Adopted <==>
              status == Some(200) && IpTruthy(net.ipRead(s.ipReads + 1)) && net.ipRead(s.ipReads + 1) != net.ipRead(s.ipReads)
    ensures var status := net.rotate(s.rotations, ChangeUrls(cfg)[s.urlIndex]);
            RotateOnce(cfg, net, s).0 == Retry <==> status != Some(200) || net.ipRead(s.ipReads + 1) == net.ipRead(s.ipReads)
  {
    var urls := ChangeUrls(cfg);
    ModBelow(s.urlIndex, |urls|);
    var s2 := s.(ipReads := s.ipReads + 1, rotations := s.rotations + 1);
    if net.rotate(s.rotations, urls[s.urlIndex]) == Some(200) {
      assert RotateOnce(cfg, net, s) == RotateSuccess(cfg, net, s2, net.ipRead(s.ipReads));
    }
  }

  /** A retry moves to the next link, past the last one back to the first; giving up stays on the same link. */
  lemma RotateIndex(cfg: CrawlConfig, net: Network, s: CrawlState)
    requires ChangeUrls(cfg) != [] && s.urlIndex < |ChangeUrls(cfg)|
    ensures RotateOnce(cfg, net, s).0 == Retry ==> RotateOnce(cfg, net, s).1.urlIndex == (s.urlIndex + 1) % |ChangeUrls(cfg)|
    ensures RotateOnce(cfg, net, s).0 == GiveUp ==> RotateOnce(cfg, net, s).1.urlIndex == s.urlIndex
  {
    var urls := ChangeUrls(cfg);
    var s2 := s.(ipReads := s.ipReads + 1, rotations := s.rotations + 1);
    if net.rotate(s.rotations, urls[s.urlIndex % |urls|]) == Some(200) {
      assert RotateOnce(cfg, net, s) == RotateSuccess(cfg, net, s2, net.ipRead(s.ipReads));
      if s.urlIndex + 1 < |urls| {
        ModBelow(s.urlIndex + 1, |urls|);
      } else {
        ModShift(0, |urls|);
      }
    }
  }

  /** `change_ip()`, allowed `fuel` IP-change requests; out of fuel it gives up. */
  function ChangeIpSpec(cfg: CrawlConfig, net: Network, s: CrawlState, fuel: nat): (r: (bool, CrawlState))
    decreases fuel
  {
    if ChangeUrls(cfg) == [] || fuel == 0 then (false, s)
    else
      var (rot, s1) := RotateOnce(cfg, net, s);
      match rot
      case Adopted => (true, s1)
      case GiveUp => (false, s1)
      case Retry => ChangeIpSpec(cfg, net, s1, fuel - 1)
  }

  /** With no IP-change link configured, `change_ip` returns false and changes nothing. */
  lemma ChangeIpWithoutLinks(cfg: CrawlConfig, net: Network, s: CrawlState, fuel: nat)
    requires cfg.proxyChangeUrls == [] && cfg.proxyChangeUrl == []
    ensures ChangeIpSpec(cfg, net, s, fuel) == (false, s)
  {
  }

  /**
   * What `change_ip` may touch: the IP, the rotation index and the two
   * call counters. A success leaves the index at 0 and the current IP at
   * the last IP read, which is non-empty and differs from the read just
   * before it; a failure leaves the current IP alone. An index below the
   * number of links stays below it.
   */
  lemma {:induction false} ChangeIpEffect(cfg: CrawlConfig, net: Network, s: CrawlState, fuel: nat)
    ensures ChangeIpFrame(s, ChangeIpSpec(cfg, net, s, fuel).1)
    ensures ChangeIpSpec(cfg, net, s, fuel).0 ==> ChangeIpSucceeded(net, ChangeIpSpec(cfg, net, s, fuel).1)
    ensures !ChangeIpSpec(cfg, net, s, fuel).0 ==> ChangeIpSpec(cfg, net, s, fuel).1.currentIp == s.currentIp
    ensures ChangeUrls(cfg) != [] && s.urlIndex < |ChangeUrls(cfg)| ==> ChangeIpSpec(cfg, net, s, fuel).1.urlIndex < |ChangeUrls(cfg)|
    ensures ChangeUrls(cfg) != [] && fuel > 0 ==> ChangeIpSpec(cfg, net, s, fuel).1.rotations > s.rotations
    decreases fuel
  {
    if ChangeUrls(cfg) != [] && fuel != 0 {
      var (rot, s1) := RotateOnce(cfg, net, s);
      if rot == Retry {
        ChangeIpEffect(cfg, net, s1, fuel - 1);
      }
    }
  }

  /** The number of passes of `change_ip` that retried with the next link. */
  function ChangeIpRetries(cfg: CrawlConfig, net: Network, s: CrawlState, fuel: nat): (n: nat)
    ensures n <= fuel
    decreases fuel
  {
    if ChangeUrls(cfg) == [] || fuel == 0 then 0
    else
      var (rot, s1) := RotateOnce(cfg, net, s);
      if rot == Retry then 1 + ChangeIpRetries(cfg, net, s1, fuel - 1) else 0
  }

  /**
   * A failed `change_ip` leaves the rotation index advanced by one link for
   * every retry, modulo the number of links, so the next call starts from
   * the link after the last one tried.
   */
  lemma {:induction false} ChangeIpAdvance(cfg: CrawlConfig, net: Network, s: CrawlState, fuel: nat)
    requires ChangeUrls(cfg) != [] && s.urlIndex < |ChangeUrls(cfg)|
    ensures !ChangeIpSpec(cfg, net, s, fuel).0 ==>
      ChangeIpSpec(cfg, net, s, fuel).1.urlIndex == (s.urlIndex + ChangeIpRetries(cfg, net, s, fuel)) % |ChangeUrls(cfg)|
    decreases fuel
  {
    var n := |ChangeUrls(cfg)|;
    if fuel == 0 {
      ModBelow(s.urlIndex, n);
    } else {
      RotateIndex(cfg, net, s);
      var (rot, s1) := RotateOnce(cfg, net, s);
      if rot == Retry {
        assert ChangeIpSpec(cfg, net, s, fuel) == ChangeIpSpec(cfg, net, s1, fuel - 1);
        var k := ChangeIpRetries(cfg, net, s1, fuel - 1);
        assert ChangeIpRetries(cfg, net, s, fuel) == k + 1;
        ChangeIpAdvance(cfg, net, s1, fuel - 1);
        ModNext(s.urlIndex, k, n);
      } else if rot == GiveUp {
        ModBelow(s.urlIndex, n);
      }
    }
  }

  /** Moving to the next link and then `k` more is moving `k + 1` links on. */
  lemma ModNext(i: nat, k: nat, n: nat)
    requires i < n
    ensures ((i + 1) % n + k) % n == (i + 1 + k) % n
  {
    if i + 1 == n {
      ModShift(0, n);
      ModShift(k, n);
    } else {
      ModBelow(i + 1, n);
    }
  }

  /** Going once round the links changes nothing. */
  lemma ModShift(k: nat, n: nat)
    requires n > 0
    ensures (n + k) % n == k % n
  {
    var a := (n + k) / n;
    var b := k / n;
    var d := a - b - 1;
    assert n * a + (n + k) % n == n + k;
    assert n * b + k % n == k;
    assert n * d == k % n - (n + k) % n;
    if d >= 1 {
      MulAtLeast(n, d);
    } else if d <= -1 {
      MulAtLeast(n, -d);
    }
  }

  /** An index below the number of links is its own remainder. */
  lemma ModBelow(i: nat, n: nat)
    requires i < n
    ensures i % n == i
  {
    var q := i / n;
    assert n * q + i % n == i;
    if q >= 1 {
      MulAtLeast(n, q);
    }
  }

  lemma MulAtLeast(n: nat, d: int)
    requires d >= 1
    ensures n * d >= n
  {
    assert n * d == n + n * (d - 1);
  }

  /** Only the IP, the index and the two IP-change counters differ, and the counters do not go down. */
  predicate ChangeIpFrame(s: CrawlState, t: CrawlState) {
    && t == s.(currentIp := t.currentIp, urlIndex := t.urlIndex, ipReads := t.ipReads, rotations := t.rotations)
    && t.ipReads >= s.ipReads && t.rotations >= s.rotations
  }

  /** The state after a successful change: index 0, the current IP is the last one read, new and non-empty. */
  predicate ChangeIpSucceeded(net: Network, t: CrawlState) {
    && t.urlIndex == 0 && IpTruthy(t.currentIp) && t.ipReads >= 2
    && t.currentIp == net.ipRead(t.ipReads - 1) && t.currentIp != net.ipRead(t.ipReads - 2)
  }

  // ---------------------------------------------------------------------
  // fetch_data
  // ---------------------------------------------------------------------

  /** The substrings of an error message that mark a proxy or network failure. */
  const ProxyErrorMarkers: seq<string> :=
    ["502", "503", "CONNECT tunnel failed", "(56)", "Connection timed out", "(28)", "timed out"]

  predicate IsProxyError(message: string) {
    exists k :: 0 <= k < |ProxyErrorMarkers| && Contains(message, ProxyErrorMarkers[k])
  }

  function ServerErrorMessage(status: int): string { "Ошибка сервера: " + IntToString(status) }
  function TooManyMessage(status: int): string { "Слишком много запросов: " + IntToString(status) }
  function BlockedMessage(status: int): string { "Заблокирован: " + IntToString(status) }

  /** How one attempt of `fetch_data` ends. */
  datatype Step =
    | Halted(s: CrawlState)                   // the stop event was set
    | Fetched(body: string, s: CrawlState)    // a usable answer
    | Errored(message: string, s: CrawlState) // a RequestsError, after the status-specific actions

  /** The stop-event check at the top of an attempt. */
  function CheckStop(cfg: CrawlConfig, net: Network, s: CrawlState): (r: (bool, CrawlState))
    ensures !cfg.hasStopEvent ==> r == (false, s)
  {
    if cfg.hasStopEvent then (net.stopped(s.stopChecks), s.(stopChecks := s.stopChecks + 1))
    else (false, s)
  }

  /** The 429 branch: count a bad request, clear the jar, change the IP and, from the third attempt on, new cookies. */
  function TooManyState(cfg: CrawlConfig, net: Network, b: Bounds, s: CrawlState, attempt: nat): (r: CrawlState)
    ensures r.bad == s.bad + 1 && r.good == s.good && r.jar == map[]
    ensures r.currentIp == Throttled(cfg, net, b, s).currentIp && r.urlIndex == Throttled(cfg, net, b, s).urlIndex
    ensures attempt < 3 ==> r.cookies == s.cookies
    ensures attempt >= 3 ==> r.cookies == GetCookiesSpec(net, Throttled(cfg, net, b, s)).0
  {
    var s2 := Throttled(cfg, net, b, s);
    if attempt >= 3 then RefreshCookies(net, s2) else s2
  }

  /**
   * The part of the 429 branch every attempt goes through: a bad request
   * counted, a fresh session with an empty jar, then `change_ip` with its
   * bounded number of requests; with a change link configured at least
   * one IP-change request is made.
   */
  function Throttled(cfg: CrawlConfig, net: Network, b: Bounds, s: CrawlState): (r: CrawlState)
    ensures r == ChangeIpSpec(cfg, net, s.(bad := s.bad + 1, jar := map[]), b.ipAttempts).1
    ensures ChangeIpFrame(s.(bad := s.bad + 1, jar := map[]), r)
    ensures ChangeUrls(cfg) != [] && b.ipAttempts > 0 ==> r.rotations > s.rotations
  {
    var s1 := s.(bad := s.bad + 1, jar := map[]);
    ChangeIpEffect(cfg, net, s1, b.ipAttempts);
    ChangeIpSpec(cfg, net, s1, b.ipAttempts).1
  }

  /** One answered request, classified by status. */
  function HandleReply(cfg: CrawlConfig, net: Network, b: Bounds, s: CrawlState, reply: Reply, attempt: nat): (r: Step)
    ensures reply.status >= 500 ==> r == Errored(ServerErrorMessage(reply.status), s)
    ensures reply.status == 429 ==> r == Errored(TooManyMessage(429), TooManyState(cfg, net, b, s, attempt))
    ensures reply.status in {403, 302} ==> r == Errored(BlockedMessage(reply.status), RefreshCookies(net, s))
    ensures r.Fetched? <==> reply.status < 500 && reply.status !in {429, 403, 302}
    ensures r.Fetched? ==> r.body == reply.text && r.s == s.(store := Some(s.jar), good := s.good + 1)
  {
    if reply.status >= 500 then Errored(ServerErrorMessage(reply.status), s)
    else if reply.status == 429 then Errored(TooManyMessage(reply.status), TooManyState(cfg, net, b, s, attempt))
    else if reply.status in {403, 302} then
      Errored(BlockedMessage(reply.status), RefreshCookies(net, s))
    else
      Fetched(reply.text, SaveCookies(s).(good := s.good + 1))
  }

  /** The request of one attempt and its handling. */
  function Exchange(cfg: CrawlConfig, net: Network, b: Bounds, s: CrawlState, target: Target, attempt: nat): (r: Step)
    ensures !r.Halted?
    ensures net.get(s.gets, target).Failed? ==> r == Errored(net.get(s.gets, target).message, s.(gets := s.gets + 1))
  {
    var s1 := s.(gets := s.gets + 1);
    match net.get(s.gets, target)
    case Failed(message) => Errored(message, s1)
    case Answered(reply) => HandleReply(cfg, net, b, s1.(jar := s1.jar + reply.setCookies), reply, attempt)
  }

  /** One attempt of the retry loop, up to the error handling. */
  function AttemptStep(cfg: CrawlConfig, net: Network, b: Bounds, s: CrawlState, target: Target, attempt: nat): (r: Step)
    ensures r.Halted? <==> CheckStop(cfg, net, s).0
  {
    var checked := CheckStop(cfg, net, s);
    if checked.0 then Halted(checked.1) else Exchange(cfg, net, b, checked.1, target, attempt)
  }

  /** The `except RequestsError` block: a proxy or network failure rotates the IP when a proxy is configured. */
  function AfterError(cfg: CrawlConfig, net: Network, b: Bounds, s: CrawlState, message: string): (r: CrawlState)
    ensures !(IsProxyError(message) && GetProxyObj(cfg).Some?) ==> r == s
    ensures r.good == s.good && r.bad == s.bad
  {
    if IsProxyError(message) && GetProxyObj(cfg).Some? then
      ChangeIpEffect(cfg, net, s, b.ipAttempts);
      ChangeIpSpec(cfg, net, s, b.ipAttempts).1
    else s
  }

  /** The fields after an attempt and, when it failed, the `except` block. */
  function AfterStep(cfg: CrawlConfig, net: Network, b: Bounds, step: Step): CrawlState {
    match step
    case Errored(message, s1) => AfterError(cfg, net, b, s1, message)
    case _ => step.s
  }

  /** The result of `fetch_data`: the body or None, the final state and the backoff pauses taken. */
  datatype Fetch = Fetch(body: Option<string>, s: CrawlState, waits: seq<int>)

  /** The retry loop from attempt `attempt` on, with the pauses taken so far. */
  function FetchFrom(cfg: CrawlConfig, net: Network, b: Bounds, s: CrawlState, target: Target,
                     attempt: nat, retries: int, backoff: int, waits: seq<int>): Fetch
    requires attempt >= 1
    decreases retries - attempt, 1
  {
    if attempt > retries then Fetch(None, s, waits)
    else FetchNext(cfg, net, b, AttemptStep(cfg, net, b, s, target, attempt), target, attempt, retries, backoff, waits)
  }

  /** The retry loop once attempt `attempt` has ended with `step`. */
  function FetchNext(cfg: CrawlConfig, net: Network, b: Bounds, step: Step, target: Target,
                     attempt: nat, retries: int, backoff: int, waits: seq<int>): Fetch
    requires 1 <= attempt <= retries
    decreases retries - attempt, 0
  {
    match step
    case Halted(s1) => Fetch(None, s1, waits)
    case Fetched(body, s1) => Fetch(Some(body), s1, waits)
    case Errored(_, _) =>
      var s2 := AfterStep(cfg, net, b, step);
      if attempt < retries then FetchFrom(cfg, net, b, s2, target, attempt + 1, retries, backoff, waits + [backoff * attempt])
      else Fetch(None, s2, waits)
  }

  /** `fetch_data(target, retries, backoff_factor)` */
  function FetchSpec(cfg: CrawlConfig, net: Network, b: Bounds, s: CrawlState, target: Target, retries: int, backoff: int): Fetch {
    FetchFrom(cfg, net, b, s, target, 1, retries, backoff, [])
  }

  /** The pauses of the retry loop from attempt `attempt` on: the k-th is `backoff * k`, and fewer than the attempts allowed. */
  lemma {:induction false} FetchFromWaits(cfg: CrawlConfig, net: Network, b: Bounds, s: CrawlState, target: Target,
                                          attempt: nat, retries: int, backoff: int, waits: seq<int>)
    requires attempt >= 1 && |waits| == attempt - 1
    requires forall k :: 0 <= k < |waits| ==> waits[k] == backoff * (k + 1)
    ensures var f := FetchFrom(cfg, net, b, s, target, attempt, retries, backoff, waits);
      && (forall k :: 0 <= k < |f.waits| ==> f.waits[k] == backoff * (k + 1))
      && |waits| <= |f.waits| && (|f.waits| < retries || |f.waits| == |waits|)
    decreases retries - attempt, 1
  {
    if attempt <= retries {
      FetchNextWaits(cfg, net, b, AttemptStep(cfg, net, b, s, target, attempt), target, attempt, retries, backoff, waits);
    }
  }

  lemma {:induction false} FetchNextWaits(cfg: CrawlConfig, net: Network, b: Bounds, step: Step, target: Target,
                                          attempt: nat, retries: int, backoff: int, waits: seq<int>)
    requires 1 <= attempt <= retries && |waits| == attempt - 1
    requires forall k :: 0 <= k < |waits| ==> waits[k] == backoff * (k + 1)
    ensures var f := FetchNext(cfg, net, b, step, target, attempt, retries, backoff, waits);
      && (forall k :: 0 <= k < |f.waits| ==> f.waits[k] == backoff * (k + 1))
      && |waits| <= |f.waits| && (|f.waits| < retries || |f.waits| == |waits|)
    decreases retries - attempt, 0
  {
    match step
    case Halted(_) =>
    case Fetched(_, _) =>
    case Errored(_, _) =>
      if attempt < retries {
        var s2 := AfterStep(cfg, net, b, step);
        var more := waits + [backoff * attempt];
        FetchFromWaits(cfg, net, b, s2, target, attempt + 1, retries, backoff, more);
      }
  }

  /** How one attempt moves the good and bad counters. */
  predicate CountsStep(s: CrawlState, step: Step) {
    match step
    case Halted(s1) => s1.good == s.good && s1.bad == s.bad
    case Fetched(_, s1) => s1.good == s.good + 1 && s1.bad == s.bad
    case Errored(_, s1) => s1.good == s.good && s1.bad >= s.bad
  }

  /**
   * The counters across the retry loop: the good-request counter goes up
   * by exactly one when a body is returned and is unchanged otherwise;
   * the bad-request counter never falls.
   */
  lemma {:induction false} FetchFromCounts(cfg: CrawlConfig, net: Network, b: Bounds, s: CrawlState, target: Target,
                                           attempt: nat, retries: int, backoff: int, waits: seq<int>)
    requires attempt >= 1
    ensures var f := FetchFrom(cfg, net, b, s, target, attempt, retries, backoff, waits);
      && (f.body.Some? ==> f.s.good == s.good + 1)
      && (f.body.None? ==> f.s.good == s.good)
      && f.s.bad >= s.bad
    decreases retries - attempt, 1
  {
    if attempt <= retries {
      StepCounts(cfg, net, b, s, target, attempt);
      FetchNextCounts(cfg, net, b, s, AttemptStep(cfg, net, b, s, target, attempt), target, attempt, retries, backoff, waits);
    }
  }

  lemma {:induction false} FetchNextCounts(cfg: CrawlConfig, net: Network, b: Bounds, s: CrawlState, step: Step, target: Target,
                                           attempt: nat, retries: int, backoff: int, waits: seq<int>)
    requires 1 <= attempt <= retries && CountsStep(s, step)
    ensures var f := FetchNext(cfg, net, b, step, target, attempt, retries, backoff, waits);
      && (f.body.Some? ==> f.s.good == s.good + 1)
      && (f.body.None? ==> f.s.good == s.good)
      && f.s.bad >= s.bad
    decreases retries - attempt, 0
  {
    match step
    case Halted(_) =>
    case Fetched(_, _) =>
    case Errored(_, _) =>
      var s2 := AfterStep(cfg, net, b, step);
      if attempt < retries {
        FetchFromCounts(cfg, net, b, s2, target, attempt + 1, retries, backoff, waits + [backoff * attempt]);
      }
  }

  /** One attempt counts a good request only when it returns a body, and never lowers the bad count. */
  lemma StepCounts(cfg: CrawlConfig, net: Network, b: Bounds, s: CrawlState, target: Target, attempt: nat)
    ensures CountsStep(s, AttemptStep(cfg, net, b, s, target, attempt))
  {
  }

  /** A stop event that is already set ends `fetch_data` with None before any request. */
  lemma StopEndsFetch(cfg: CrawlConfig, net: Network, b: Bounds, s: CrawlState, target: Target, retries: int, backoff: int)
    requires cfg.hasStopEvent && net.stopped(s.stopChecks) && retries >= 1
    ensures FetchSpec(cfg, net, b, s, target, retries, backoff) == Fetch(None, s.(stopChecks := s.stopChecks + 1), [])
  {
    var s1 := s.(stopChecks := s.stopChecks + 1);
    assert AttemptStep(cfg, net, b, s, target, 1) == Halted(s1);
    assert FetchNext(cfg, net, b, Halted(s1), target, 1, retries, backoff, []) == Fetch(None, s1, []);
  }

  // ---------------------------------------------------------------------
  // parse_views
  // ---------------------------------------------------------------------

  /** `parse_views` from the `i`-th listing on: each detail page that can be read sets both counters. */
  function ViewsFrom(cfg: CrawlConfig, net: Network, b: Bounds, s: CrawlState, ads: seq<Item>, i: nat): (r: (seq<Item>, CrawlState))
    requires i <= |ads|
    ensures |r.0| == |ads|
    ensures forall k :: 0 <= k < i ==> r.0[k] == ads[k]
    decreases |ads| - i
  {
    if i == |ads| then (ads, s)
    else
      var f := FetchSpec(cfg, net, b, s, Detail(ads[i].urlPath), 3, 1);
      var ads' :=
        if f.body.None? then ads
        else match ExtractViews(net.html(f.body.value))
          case None => ads
          case Some((total, today)) => ads[i := ads[i].(totalViews := total, todayViews := today)];
      ViewsFrom(cfg, net, b, f.s, ads', i + 1)
  }

  /** `parse_views(ads)`: nothing happens when view parsing is off. */
  function ViewsSpec(cfg: CrawlConfig, net: Network, b: Bounds, s: CrawlState, ads: seq<Item>): (r: (seq<Item>, CrawlState))
    ensures !cfg.parseViews ==> r == (ads, s)
    ensures |r.0| == |ads|
  {
    if cfg.parseViews then ViewsFrom(cfg, net, b, s, ads, 0) else (ads, s)
  }

  /** View parsing changes only the two counters of each listing. */
  lemma {:induction false} ViewsOnlyCounters(cfg: CrawlConfig, net: Network, b: Bounds, s: CrawlState, ads: seq<Item>, i: nat)
    requires i <= |ads|
    ensures var r := ViewsFrom(cfg, net, b, s, ads, i).0;
      forall k :: 0 <= k < |ads| ==> r[k] == ads[k].(totalViews := r[k].totalViews, todayViews := r[k].todayViews)
    decreases |ads| - i
  {
    if i < |ads| {
      var f := FetchSpec(cfg, net, b, s, Detail(ads[i].urlPath), 3, 1);
      var ads' :=
        if f.body.None? then ads
        else match ExtractViews(net.html(f.body.value))
          case None => ads
          case Some((total, today)) => ads[i := ads[i].(totalViews := total, todayViews := today)];
      ViewsOnlyCounters(cfg, net, b, f.s, ads', i + 1);
    }
  }

  // ---------------------------------------------------------------------
  // One page of the crawl loop
  // ---------------------------------------------------------------------

  /** How one iteration of the inner loop of `parse` ends. */
  datatype PageOutcome =
    | PageStopped                 // the stop event: `return`
    | PageFetchFailed             // no body: `return self.parse()`
    | PageCrashed                 // an exception leaves `parse`
    | PageInvalid                 // a ValidationError: `continue`
    | PageEmpty                   // no listings left: `break`
    | PageDone(ads: seq<Item>, next: Option<Url>)

  /** The listings of a validated catalog after cleaning and seller enrichment. */
  function Enrich(net: Network, items: seq<Item>): (r: seq<Item>)
    ensures forall k :: 0 <= k < |r| ==> IdTruthy(r[k].id)
  {
    Seqs.Map((ad: Item) => WithSeller(ad, net.render), CleanNullAds(items))
  }

  /** One iteration of the inner loop of `parse`, on the URL `url` (None after a failed rewrite). */
  function PageStep(cfg: CrawlConfig, net: Network, b: Bounds, s: CrawlState, url: Option<Url>): (r: (PageOutcome, CrawlState)) {
    var (stop, s1) := CheckStop(cfg, net, s);
    if stop then (PageStopped, s1)
    else if url.None? then (PageCrashed, s1)
    else
      var f := FetchSpec(cfg, net, b, s1, Page(url.value), cfg.maxRetries, 1);
      if f.body.None? || f.body.value == [] then (PageFetchFailed, f.s)
      else
        var page := FindJsonOnPage(net.html(f.body.value).scripts);
        match WalkerCatalog(page, net.decodeItem)
        case CatalogRaised => (PageCrashed, f.s)
        case CatalogInvalid => (PageInvalid, f.s)
        case Catalog(items) =>
          var ads := Enrich(net, items);
          if ads == [] then (PageEmpty, f.s)
          else match Pipeline(cfg.filter, cfg.nowMicros, ads)
            case None => (PageCrashed, f.s)
            case Some(filtered) =>
              var (viewed, s2) := ViewsSpec(cfg, net, b, f.s, filtered);
              (PageDone(viewed, NextPageUrl(url.value)), s2)
  }

  // ---------------------------------------------------------------------
  // parse
  // ---------------------------------------------------------------------

  datatype RunEnd = Finished | Stopped | Crashed | RestartsExhausted

  /** How a crawl ends, its final state and the filtered listings of every page, in order. */
  datatype Run = Run(end: RunEnd, s: CrawlState, pages: seq<seq<Item>>)

  function PagesPerUrl(cfg: CrawlConfig): nat {
    if cfg.count < 0 then 0 else cfg.count
  }

  /**
   * The crawl from the `page`-th iteration for the `index`-th configured
   * URL on, `url` being the URL that iteration fetches, with `restarts`
   * restarts of `parse` left.
   */
  function CrawlFrom(cfg: CrawlConfig, net: Network, b: Bounds, s: CrawlState, restarts: nat,
                     index: nat, page: nat, url: Option<Url>, pages: seq<seq<Item>>): Run
    decreases restarts, |cfg.urls| - index, PagesPerUrl(cfg) - page, 1
  {
    if index >= |cfg.urls| then Run(Finished, s, pages)
    else if page >= PagesPerUrl(cfg) then
      CrawlFrom(cfg, net, b, s, restarts, index + 1, 0, NextConfigured(cfg, index + 1), pages)
    else
      var step := PageStep(cfg, net, b, s, url);
      AfterPage(cfg, net, b, step.0, step.1, restarts, index, page, url, pages)
  }

  /** Where the crawl goes after one iteration of the inner loop ended with `outcome` in state `s`. */
  function AfterPage(cfg: CrawlConfig, net: Network, b: Bounds, outcome: PageOutcome, s: CrawlState, restarts: nat,
                     index: nat, page: nat, url: Option<Url>, pages: seq<seq<Item>>): Run
    requires index < |cfg.urls| && page < PagesPerUrl(cfg)
    decreases restarts, |cfg.urls| - index, PagesPerUrl(cfg) - page, 0
  {
    match outcome
    case PageStopped => Run(Stopped, s, pages)
    case PageCrashed => Run(Crashed, s, pages)
    case PageFetchFailed =>
      if restarts == 0 then Run(RestartsExhausted, s, pages)
      else CrawlFrom(cfg, net, b, LoadCookies(s), restarts - 1, 0, 0, NextConfigured(cfg, 0), pages)
    case PageInvalid => CrawlFrom(cfg, net, b, s, restarts, index, page + 1, url, pages)
    case PageEmpty => CrawlFrom(cfg, net, b, s, restarts, index + 1, 0, NextConfigured(cfg, index + 1), pages)
    case PageDone(ads, next) => CrawlFrom(cfg, net, b, s, restarts, index, page + 1, next, pages + [ads])
  }

  /** The configured URL at `index`, if there is one. */
  function NextConfigured(cfg: CrawlConfig, index: nat): Option<Url> {
    if index < |cfg.urls| then Some(cfg.urls[index]) else None
  }

  /** `parse()`: load the saved cookies, then walk every URL for `count` pages. */
  function Crawl(cfg: CrawlConfig, net: Network, b: Bounds, s: CrawlState): Run {
    CrawlFrom(cfg, net, b, LoadCookies(s), b.restarts, 0, 0, NextConfigured(cfg, 0), [])
  }

  // ---------------------------------------------------------------------
  // What every crawl guarantees
  // ---------------------------------------------------------------------

  /** Every listing a page yields has a truthy id: the cleaning step's guarantee survives filtering and view parsing. */
  lemma PageListingsHaveIds(cfg: CrawlConfig, net: Network, b: Bounds, s: CrawlState, url: Option<Url>)
    ensures PageStep(cfg, net, b, s, url).0.PageDone? ==>
      forall k :: 0 <= k < |PageStep(cfg, net, b, s, url).0.ads| ==> IdTruthy(PageStep(cfg, net, b, s, url).0.ads[k].id)
  {
    var (stop, s1) := CheckStop(cfg, net, s);
    if !stop && url.Some? {
      var f := FetchSpec(cfg, net, b, s1, Page(url.value), cfg.maxRetries, 1);
      if f.body.Some? && f.body.value != [] {
        var page := FindJsonOnPage(net.html(f.body.value).scripts);
        match WalkerCatalog(page, net.decodeItem)
        case CatalogRaised =>
        case CatalogInvalid =>
        case Catalog(items) =>
          var ads := Enrich(net, items);
          if ads != [] {
            match Pipeline(cfg.filter, cfg.nowMicros, ads)
            case None =>
            case Some(filtered) =>
              FilteredKeepIds(cfg.filter, cfg.nowMicros, ads, filtered);
              var (viewed, s2) := ViewsSpec(cfg, net, b, f.s, filtered);
              if cfg.parseViews {
                ViewsOnlyCounters(cfg, net, b, f.s, filtered, 0);
              }
          }
      }
    }
  }

  /** Filtering keeps only listings of its input (up to the promotion flag), so ids stay truthy. */
  lemma FilteredKeepIds(cfg: FilterConfig, nowMicros: int, ads: seq<Item>, filtered: seq<Item>)
    requires Pipeline(cfg, nowMicros, ads) == Some(filtered)
    requires forall k :: 0 <= k < |ads| ==> IdTruthy(ads[k].id)
    ensures forall k :: 0 <= k < |filtered| ==> IdTruthy(filtered[k].id)
  {
    PipelineSubseq(cfg, nowMicros, ads, filtered);
    Seqs.SubseqMembers(Seqs.Map(Unflag, filtered), Seqs.Map(Unflag, ads));
    forall k | 0 <= k < |filtered| ensures IdTruthy(filtered[k].id) {
      assert Unflag(filtered[k]) in Seqs.Map(Unflag, filtered);
      var j :| 0 <= j < |ads| && Seqs.Map(Unflag, ads)[j] == Unflag(filtered[k]);
      assert filtered[k].id == ads[j].id;
    }
  }

  predicate AllHaveIds(pages: seq<seq<Item>>) {
    forall p, k :: 0 <= p < |pages| && 0 <= k < |pages[p]| ==> IdTruthy(pages[p][k].id)
  }

  /** Every page the crawl records holds only listings with a truthy id. */
  lemma {:induction false} CrawlListingsHaveIds(cfg: CrawlConfig, net: Network, b: Bounds, s: CrawlState, restarts: nat,
                                                index: nat, page: nat, url: Option<Url>, pages: seq<seq<Item>>)
    requires AllHaveIds(pages)
    ensures AllHaveIds(CrawlFrom(cfg, net, b, s, restarts, index, page, url, pages).pages)
    decreases restarts, |cfg.urls| - index, PagesPerUrl(cfg) - page, 1
  {
    if index < |cfg.urls| {
      if page >= PagesPerUrl(cfg) {
        CrawlListingsHaveIds(cfg, net, b, s, restarts, index + 1, 0, NextConfigured(cfg, index + 1), pages);
      } else {
        var step := PageStep(cfg, net, b, s, url);
        PageListingsHaveIds(cfg, net, b, s, url);
        AfterPageHaveIds(cfg, net, b, step.0, step.1, restarts, index, page, url, pages);
      }
    }
  }

  lemma {:induction false} AfterPageHaveIds(cfg: CrawlConfig, net: Network, b: Bounds, outcome: PageOutcome, s: CrawlState,
                                            restarts: nat, index: nat, page: nat, url: Option<Url>, pages: seq<seq<Item>>)
    requires index < |cfg.urls| && page < PagesPerUrl(cfg)
    requires AllHaveIds(pages)
    requires outcome.PageDone? ==> forall k :: 0 <= k < |outcome.ads| ==> IdTruthy(outcome.ads[k].id)
    ensures AllHaveIds(AfterPage(cfg, net, b, outcome, s, restarts, index, page, url, pages).pages)
    decreases restarts, |cfg.urls| - index, PagesPerUrl(cfg) - page, 0
  {
    match outcome
    case PageStopped =>
    case PageCrashed =>
    case PageFetchFailed =>
      if restarts > 0 {
        CrawlListingsHaveIds(cfg, net, b, LoadCookies(s), restarts - 1, 0, 0, NextConfigured(cfg, 0), pages);
      }
    case PageInvalid =>
      CrawlListingsHaveIds(cfg, net, b, s, restarts, index, page + 1, url, pages);
    case PageEmpty =>
      CrawlListingsHaveIds(cfg, net, b, s, restarts, index + 1, 0, NextConfigured(cfg, index + 1), pages);
    case PageDone(ads, next) =>
      var pages' := pages + [ads];
      assert forall p :: 0 <= p < |pages| ==> pages'[p] == pages[p];
      assert AllHaveIds(pages');
      CrawlListingsHaveIds(cfg, net, b, s, restarts, index, page + 1, next, pages');
  }

  /** A crawl with no URLs only loads the saved cookies. */
  lemma CrawlWithoutUrls(cfg: CrawlConfig, net: Network, b: Bounds, s: CrawlState)
    requires cfg.urls == []
    ensures Crawl(cfg, net, b, s) == Run(Finished, LoadCookies(s), [])
  {
  }

  /**
   * One iteration of the inner loop of `parse` decides the rest of the
   * crawl: a set stop event or an exception ends it; a fetch that gives
   * nothing restarts `parse` from the first URL with the saved cookies
   * reloaded, while restarts are left; a catalog that does not validate
   * goes on with the next iteration on the same URL; a page with no
   * listings left ends this URL, and the next URL starts from its first
   * page; a page with listings records them and goes on with the next
   * page's URL.
   */
  lemma CrawlStep(cfg: CrawlConfig, net: Network, b: Bounds, s: CrawlState, restarts: nat,
                  index: nat, page: nat, url: Option<Url>, pages: seq<seq<Item>>)
    requires index < |cfg.urls| && page < PagesPerUrl(cfg)
    ensures var step := PageStep(cfg, net, b, s, url);
            var run := CrawlFrom(cfg, net, b, s, restarts, index, page, url, pages);
            && (step.0.PageStopped? ==> run == Run(Stopped, step.1, pages))
            && (step.0.PageCrashed? ==> run == Run(Crashed, step.1, pages))
            && (step.0.PageFetchFailed? && restarts == 0 ==> run == Run(RestartsExhausted, step.1, pages))
            && (step.0.PageFetchFailed? && restarts > 0 ==>
                  run == CrawlFrom(cfg, net, b, LoadCookies(step.1), restarts - 1, 0, 0, NextConfigured(cfg, 0), pages))
            && (step.0.PageInvalid? ==> run == CrawlFrom(cfg, net, b, step.1, restarts, index, page + 1, url, pages))
            && (step.0.PageEmpty? ==>
                  run == CrawlFrom(cfg, net, b, step.1, restarts, index + 1, 0, NextConfigured(cfg, index + 1), pages))
            && (step.0.PageDone? ==>
                  run == CrawlFrom(cfg, net, b, step.1, restarts, index, page + 1, step.0.next, pages + [step.0.ads]))
  {
    var step := PageStep(cfg, net, b, s, url);
    assert CrawlFrom(cfg, net, b, s, restarts, index, page, url, pages)
        == AfterPage(cfg, net, b, step.0, step.1, restarts, index, page, url, pages);
  }

  /** The fetch of `url` from state `s` gives no body or an empty one. */
  predicate FetchGivesNothing(cfg: CrawlConfig, net: Network, b: Bounds, s: CrawlState, url: Url) {
    var f := FetchSpec(cfg, net, b, s, Page(url), cfg.maxRetries, 1);
    f.body.None? || f.body.value == []
  }

  /** The fetch of `url` from state `s` gives a page whose catalog validates and has no listing with a truthy id. */
  predicate NoListingsAt(cfg: CrawlConfig, net: Network, b: Bounds, s: CrawlState, url: Url) {
    var f := FetchSpec(cfg, net, b, s, Page(url), cfg.maxRetries, 1);
    && f.body.Some? && f.body.value != []
    && var c := WalkerCatalog(FindJsonOnPage(net.html(f.body.value).scripts), net.decodeItem);
       c.Catalog? && forall k :: 0 <= k < |c.items| ==> !IdTruthy(c.items[k].id)
  }

  /**
   * When each iteration ends as it does: it stops exactly when the stop
   * event is set, before any request, and otherwise the fetch gives nothing
   * or the page has no listing with a truthy id exactly in the cases named.
   */
  lemma PageOutcomes(cfg: CrawlConfig, net: Network, b: Bounds, s: CrawlState, url: Option<Url>)
    ensures PageStep(cfg, net, b, s, url).0.PageStopped? <==> cfg.hasStopEvent && net.stopped(s.stopChecks)
    ensures PageStep(cfg, net, b, s, url).0.PageStopped? ==> PageStep(cfg, net, b, s, url).1 == s.(stopChecks := s.stopChecks + 1)
    ensures PageStep(cfg, net, b, s, url).0.PageFetchFailed? <==>
      !CheckStop(cfg, net, s).0 && url.Some? && FetchGivesNothing(cfg, net, b, CheckStop(cfg, net, s).1, url.value)
    ensures PageStep(cfg, net, b, s, url).0.PageEmpty? <==>
      !CheckStop(cfg, net, s).0 && url.Some? && NoListingsAt(cfg, net, b, CheckStop(cfg, net, s).1, url.value)
  {
    var (stop, s1) := CheckStop(cfg, net, s);
    if !stop && url.Some? {
      var f := FetchSpec(cfg, net, b, s1, Page(url.value), cfg.maxRetries, 1);
      if f.body.Some? && f.body.value != [] {
        var c := WalkerCatalog(FindJsonOnPage(net.html(f.body.value).scripts), net.decodeItem);
        if c.Catalog? {
          EnrichEmpty(net, c.items);
        }
      }
    }
  }

  /** Cleaning and enrichment leave nothing exactly when no listing has a truthy id. */
  lemma EnrichEmpty(net: Network, items: seq<Item>)
    ensures Enrich(net, items) == [] <==> forall k :: 0 <= k < |items| ==> !IdTruthy(items[k].id)
  {
    var cleaned := CleanNullAds(items);
    assert |Enrich(net, items)| == |cleaned|;
    if cleaned != [] {
      assert cleaned[0] in cleaned;
    }
    forall k | 0 <= k < |items| && IdTruthy(items[k].id)
      ensures cleaned != []
    {
      assert items[k] in items;
    }
  }
}
