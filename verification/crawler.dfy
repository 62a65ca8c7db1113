/**
 * `AvitoParse` as a class: its counters, cookies, session jar, current IP
 * and rotation index are fields that its methods update in place. Every
 * method is proved to leave the object in the state the corresponding
 * function of `CrawlSpec` computes from the old state, and to return what
 * that function returns.
 */
module Crawler {
  import opened Wrappers
  import opened Models
  import opened Extract
  import opened Filters
  import opened PageUrl
  import opened CrawlSpec

  class AvitoParse {
    const cfg: CrawlConfig
    const net: Network
    const bounds: Bounds

    var good: nat
    var bad: nat
    var cookies: Option<Cookies>
    var userAgent: string
    var jar: Cookies
    var store: Option<Cookies>
    var currentIp: Option<string>
    var urlIndex: nat
    var gets: nat
    var ipReads: nat
    var rotations: nat
    var solves: nat
    var stopChecks: nat

    /** The object's fields as a value. */
    function State(): CrawlState
      reads this
    {
      CrawlState(good, bad, cookies, userAgent, jar, store, currentIp, urlIndex,
                 gets, ipReads, rotations, solves, stopChecks)
    }

    /** `AvitoParse(config)`: no cookies, a fresh session, both counters and the rotation index at 0. */
    constructor(cfg: CrawlConfig, net: Network, bounds: Bounds, savedCookies: Option<Cookies>, defaultAgent: string)
      ensures this.cfg == cfg && this.net == net && this.bounds == bounds
      ensures State() == CrawlState(0, 0, None, defaultAgent, map[], savedCookies, None, 0, 0, 0, 0, 0, 0)
    {
      this.cfg := cfg;
      this.net := net;
      this.bounds := bounds;
      good, bad := 0, 0;
      cookies := None;
      userAgent := defaultAgent;
      jar := map[];
      store := savedCookies;
      currentIp := None;
      urlIndex := 0;
      gets, ipReads, rotations, solves, stopChecks := 0, 0, 0, 0, 0;
    }

    /** `get_cookies()` */
    method GetCookies() returns (result: Option<Cookies>)
      modifies this
      ensures (result, State()) == GetCookiesSpec(net, old(State()))
    {
      var answer := net.solve(solves);
      solves := solves + 1;
      if answer.Some? && answer.value.0 != map[] {
        userAgent := answer.value.1;
        return Some(answer.value.0);
      }
      return None;
    }

    /** `save_cookies()` */
    method SaveCookies()
      modifies this
      ensures State() == CrawlSpec.SaveCookies(old(State()))
    {
      store := Some(jar);
    }

    /** `load_cookies()` */
    method LoadCookies()
      modifies this
      ensures State() == CrawlSpec.LoadCookies(old(State()))
    {
      if store.Some? {
        jar := jar + store.value;
      }
    }

    /** One IP-change request of `change_ip`, with the IP reads around it. */
    method Rotate() returns (rot: Rotation)
      requires ChangeUrls(cfg) != []
      modifies this
      ensures (rot, State()) == RotateOnce(cfg, net, old(State()))
    {
      ghost var s0 := State();
      var urls := ChangeUrls(cfg);
      var oldIp := net.ipRead(ipReads);
      var status := net.rotate(rotations, urls[urlIndex % |urls|]);
      ipReads, rotations := ipReads + 1, rotations + 1;
      assert State() == s0.(ipReads := s0.ipReads + 1, rotations := s0.rotations + 1);
      if status == Some(200) {
        rot := CheckNewIp(oldIp);
      } else {
        urlIndex := (urlIndex + 1) % |urls|;
        rot := Retry;
      }
    }

    /** The part of `change_ip` after a 200 answer: read the IP again and compare. */
    method CheckNewIp(oldIp: Option<string>) returns (rot: Rotation)
      requires ChangeUrls(cfg) != []
      modifies this
      ensures (rot, State()) == RotateSuccess(cfg, net, old(State()), oldIp)
    {
      var urls := ChangeUrls(cfg);
      var newIp := net.ipRead(ipReads);
      ipReads := ipReads + 1;
      if IpTruthy(newIp) && newIp != oldIp {
        currentIp := newIp;
        urlIndex := 0;
        return Adopted;
      } else if newIp == oldIp {
        urlIndex := urlIndex + 1;
        if urlIndex >= |urls| {
          urlIndex := 0;
        }
        return Retry;
      }
      return GiveUp;
    }

    /** `change_ip()`, allowed `fuel` IP-change requests. */
    method ChangeIp(fuel: nat) returns (ok: bool)
      modifies this
      ensures (ok, State()) == ChangeIpSpec(cfg, net, old(State()), fuel)
    {
      if ChangeUrls(cfg) == [] {
        return false;
      }
      var left := fuel;
      while left > 0
        invariant ChangeIpSpec(cfg, net, State(), left) == ChangeIpSpec(cfg, net, old(State()), fuel)
      {
        var rot := Rotate();
        match rot
        case Adopted =>
          return true;
        case GiveUp =>
          return false;
        case Retry =>
          left := left - 1;
      }
      return false;
    }

    /** The 429 branch of `fetch_data`. */
    method TooMany(attempt: nat)
      modifies this
      ensures State() == TooManyState(cfg, net, bounds, old(State()), attempt)
    {
      Throttle();
      if attempt >= 3 {
        ghost var s2 := State();
        var renewed := GetCookies();
        cookies := renewed;
        assert State() == RefreshCookies(net, s2);
      }
    }

    /** The part of the 429 branch every attempt goes through. */
    method Throttle()
      modifies this
      ensures State() == Throttled(cfg, net, bounds, old(State()))
    {
      ghost var s0 := State();
      bad := bad + 1;
      jar := map[];
      ghost var s1 := State();
      assert s1 == s0.(bad := s0.bad + 1, jar := map[]);
      assert Throttled(cfg, net, bounds, s0) == ChangeIpSpec(cfg, net, s1, bounds.ipAttempts).1;
      var _ := ChangeIp(bounds.ipAttempts);
    }

    /** The status checks of one answered request of `fetch_data`. */
    method Answer(reply: Reply, attempt: nat) returns (step: Step)
      modifies this
      ensures step == HandleReply(cfg, net, bounds, old(State()), reply, attempt)
      ensures State() == step.s
    {
      if reply.status >= 500 {
        return Errored(ServerErrorMessage(reply.status), State());
      }
      if reply.status == 429 {
        TooMany(attempt);
        return Errored(TooManyMessage(reply.status), State());
      }
      if reply.status in {403, 302} {
        var renewed := GetCookies();
        cookies := renewed;
        return Errored(BlockedMessage(reply.status), State());
      }
      SaveCookies();
      good := good + 1;
      return Fetched(reply.text, State());
    }

    /** The request of one attempt of `fetch_data` and the status checks on its answer. */
    method ExchangeOnce(target: Target, attempt: nat) returns (step: Step)
      modifies this
      ensures step == Exchange(cfg, net, bounds, old(State()), target, attempt)
      ensures State() == step.s
    {
      ghost var s0 := State();
      var answer := net.get(gets, target);
      gets := gets + 1;
      assert State() == s0.(gets := s0.gets + 1);
      match answer
      case Failed(message) =>
        return Errored(message, State());
      case Answered(reply) =>
        step := Receive(reply, attempt);
    }

    /** An answered request: its cookies join the session's, then the status checks. */
    method Receive(reply: Reply, attempt: nat) returns (step: Step)
      modifies this
      ensures step == HandleReply(cfg, net, bounds, old(State()).(jar := old(State()).jar + reply.setCookies), reply, attempt)
      ensures State() == step.s
    {
      ghost var s0 := State();
      jar := jar + reply.setCookies;
      assert State() == s0.(jar := s0.jar + reply.setCookies);
      step := Answer(reply, attempt);
    }

    /** One attempt of `fetch_data`, up to the `except` block. */
    method Attempt(target: Target, attempt: nat) returns (step: Step)
      modifies this
      ensures step == AttemptStep(cfg, net, bounds, old(State()), target, attempt)
      ensures State() == step.s
    {
      ghost var s0 := State();
      if cfg.hasStopEvent {
        var stop := net.stopped(stopChecks);
        stopChecks := stopChecks + 1;
        assert State() == CheckStop(cfg, net, s0).1;
        if stop {
          return Halted(State());
        }
      }
      assert AttemptStep(cfg, net, bounds, s0, target, attempt) == Exchange(cfg, net, bounds, State(), target, attempt);
      step := ExchangeOnce(target, attempt);
    }

    /** One attempt of `fetch_data` followed by its `except` block. */
    method TryOnce(target: Target, attempt: nat) returns (step: Step)
      modifies this
      ensures step == AttemptStep(cfg, net, bounds, old(State()), target, attempt)
      ensures State() == AfterStep(cfg, net, bounds, step)
    {
      step := Attempt(target, attempt);
      if step.Errored? {
        ghost var failed := State();
        if IsProxyError(step.message) && GetProxyObj(cfg).Some? {
          var _ := ChangeIp(bounds.ipAttempts);
        }
        assert State() == AfterError(cfg, net, bounds, failed, step.message);
      }
    }

    /**
     * `fetch_data(target, retries, backoff_factor)`: the body, or None when
     * the attempts run out or the stop event is set; `waits` lists the
     * backoff pauses taken.
     */
    method FetchData(target: Target, retries: int, backoff: int) returns (body: Option<string>, waits: seq<int>)
      modifies this
      ensures Fetch(body, State(), waits) == FetchSpec(cfg, net, bounds, old(State()), target, retries, backoff)
    {
      waits := [];
      var attempt: nat := 1;
      while attempt <= retries
        invariant attempt >= 1
        invariant FetchFrom(cfg, net, bounds, State(), target, attempt, retries, backoff, waits)
               == FetchSpec(cfg, net, bounds, old(State()), target, retries, backoff)
        decreases retries - attempt
      {
        ghost var goal := FetchFrom(cfg, net, bounds, State(), target, attempt, retries, backoff, waits);
        var step := TryOnce(target, attempt);
        assert goal == FetchNext(cfg, net, bounds, step, target, attempt, retries, backoff, waits);
        match step
        case Halted(_) =>
          return None, waits;
        case Fetched(text, _) =>
          return Some(text), waits;
        case Errored(_, _) =>
          if attempt < retries {
            waits := waits + [backoff * attempt];
            attempt := attempt + 1;
          } else {
            return None, waits;
          }
      }
      return None, waits;
    }

    /** `parse_views(ads)`: reads each listing's detail page and sets its view counters. */
    method ParseViews(ads: seq<Item>) returns (r: seq<Item>)
      modifies this
      ensures (r, State()) == ViewsSpec(cfg, net, bounds, old(State()), ads)
    {
      if !cfg.parseViews {
        return ads;
      }
      r := ads;
      for i := 0 to |ads|
        invariant |r| == |ads|
        invariant ViewsFrom(cfg, net, bounds, State(), r, i) == ViewsFrom(cfg, net, bounds, old(State()), ads, 0)
      {
        var body, _ := FetchData(Detail(r[i].urlPath), 3, 1);
        if body.Some? {
          var views := ExtractViews(net.html(body.value));
          if views.Some? {
            r := r[i := r[i].(totalViews := views.value.0, todayViews := views.value.1)];
          }
        }
      }
    }

    /** One iteration of the inner loop of `parse` on `url`. */
    method CrawlPage(url: Option<Url>) returns (outcome: PageOutcome)
      modifies this
      ensures (outcome, State()) == PageStep(cfg, net, bounds, old(State()), url)
    {
      ghost var s0 := State();
      if cfg.hasStopEvent {
        var stop := net.stopped(stopChecks);
        stopChecks := stopChecks + 1;
        assert State() == CheckStop(cfg, net, s0).1;
        if stop {
          return PageStopped;
        }
      }
      if url.None? {
        return PageCrashed;
      }
      ghost var s1 := State();
      var body, waits := FetchData(Page(url.value), cfg.maxRetries, 1);
      ghost var f := FetchSpec(cfg, net, bounds, s1, Page(url.value), cfg.maxRetries, 1);
      assert body == f.body && State() == f.s;
      if body.None? || body.value == [] {
        return PageFetchFailed;
      }
      var data := FindJsonOnPage(net.html(body.value).scripts);
      match WalkerCatalog(data, net.decodeItem)
      case CatalogRaised =>
        return PageCrashed;
      case CatalogInvalid =>
        return PageInvalid;
      case Catalog(items) =>
        var ads := CleanNullAds(items);
        ads := AddSellerToAds(ads, net.render);
        assert ads == Enrich(net, items);
        if ads == [] {
          return PageEmpty;
        }
        var filtered := FilterAds(cfg.filter, cfg.nowMicros, ads);
        if filtered.None? {
          return PageCrashed;
        }
        var viewed := ParseViews(filtered.value);
        return PageDone(viewed, NextPageUrl(url.value));
    }

    /**
     * `parse()`: loads the saved cookies, then fetches `count` pages for
     * each configured URL, following the next-page links. The source's two
     * nested loops are one loop here over the URL index and the page
     * number; a failed fetch restarts from the first URL, at most
     * `bounds.restarts` times.
     */
    method Parse() returns (end: RunEnd, pages: seq<seq<Item>>)
      modifies this
      ensures Run(end, State(), pages) == Crawl(cfg, net, bounds, old(State()))
    {
      LoadCookies();
      var restarts := bounds.restarts;
      var index: nat := 0;
      var page: nat := 0;
      var url := NextConfigured(cfg, 0);
      pages := [];
      while index < |cfg.urls|
        invariant CrawlFrom(cfg, net, bounds, State(), restarts, index, page, url, pages)
               == Crawl(cfg, net, bounds, old(State()))
        decreases restarts, |cfg.urls| - index, PagesPerUrl(cfg) - page
      {
        if page >= PagesPerUrl(cfg) {
          index, page := index + 1, 0;
          url := NextConfigured(cfg, index);
        } else {
          ghost var before := State();
          var outcome := CrawlPage(url);
          assert CrawlFrom(cfg, net, bounds, before, restarts, index, page, url, pages)
              == AfterPage(cfg, net, bounds, outcome, State(), restarts, index, page, url, pages);
          match outcome
          case PageStopped =>
            return Stopped, pages;
          case PageCrashed =>
            return Crashed, pages;
          case PageFetchFailed =>
            if restarts == 0 {
              return RestartsExhausted, pages;
            }
            LoadCookies();
            restarts, index, page := restarts - 1, 0, 0;
            url := NextConfigured(cfg, 0);
          case PageInvalid =>
            page := page + 1;
          case PageEmpty =>
            index, page := index + 1, 0;
            url := NextConfigured(cfg, index);
          case PageDone(ads, next) =>
            pages := pages + [ads];
            page := page + 1;
            url := next;
        }
      }
      return Finished, pages;
    }
  }
}
