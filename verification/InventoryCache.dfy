/** The two cache levels under the runtime inventory, and how old a served list can be. */
module InventoryCache {
  import opened Prelude

  /** A list of models or tools together with the moment its source answered. */
  datatype Listing = Listing(names: seq<string>, fetchedAt: int)

  /** A cached value and the moment the cache stamped it, which need not be when it was fetched. */
  datatype Cache = Cache(value: Option<Listing>, cachedAt: int)

  const EMPTY := Cache(None, 0)

  datatype Source = Models | Tools

  datatype Settings = Settings(ttl: nat, staleIfError: nat, modelsOn: bool, toolsOn: bool) {
    predicate On(src: Source) {
      if src == Models then modelsOn else toolsOn
    }
  }

  predicate Within(c: Cache, now: int, limit: int) {
    c.value.Some? && now - c.cachedAt <= limit
  }

  /** What loading one source yields: a list, whether its source failed, and when it was selected. */
  datatype Outcome = Outcome(value: Option<Listing>, failed: bool, selectedAt: int)

  // ---- One source, as `_load_models` and `_load_tools` treat it ----

  /** The source is switched off: an empty list as of now. */
  function OnOff(now: int): (Cache, Outcome) {
    (Cache(Some(Listing([], now)), now), Outcome(Some(Listing([], now)), false, now))
  }

  /** The client below answered; the service stamps the list afresh. */
  function OnAnswer(listing: Listing, now: int): (Cache, Outcome) {
    (Cache(Some(listing), now), Outcome(Some(listing), false, now))
  }

  /** The client below raised: fall back on the service's own cache while it is recent enough. */
  function OnFailure(outer: Cache, now: int, staleIfError: int): (Cache, Outcome) {
    (outer, Outcome(if Within(outer, now, staleIfError) then outer.value else None, true, now))
  }

  /** `age_seconds` of one source. */
  function ReportedAge(c: Cache, now: int): int {
    if c.value.None? || c.cachedAt <= 0 then 0 else if now - c.cachedAt < 0 then 0 else now - c.cachedAt
  }

  /** The client below the service: `list_models` of the model client and `list_tools` of the MCP client. */
  class CachingClient {
    const ttl: nat
    const staleIfError: nat
    var cache: Cache

    constructor (settings: Settings)
      ensures ttl == settings.ttl && staleIfError == settings.staleIfError && cache == EMPTY
    {
      ttl, staleIfError, cache := settings.ttl, settings.staleIfError, EMPTY;
    }

    /** A call that checks at `before` and, if it must ask its source, hears the answer (`None` for an error) at `after`. */
    method List(forceRefresh: bool, allowStale: bool, before: int, answer: Option<seq<string>>, after: int)
      returns (result: Option<Listing>)
      modifies this`cache
      ensures old(!forceRefresh && Within(cache, before, ttl)) ==> result == cache.value && cache == old(cache)
      ensures old(forceRefresh || !Within(cache, before, ttl)) && answer.Some?
              ==> result == Some(Listing(answer.value, after)) && cache == Cache(result, after)
      ensures old(forceRefresh || !Within(cache, before, ttl)) && answer.None?
              ==> && cache == old(cache)
                  && result == if allowStale && Within(cache, before, staleIfError) then cache.value else None
    {
      if !forceRefresh && cache.value.Some? && before - cache.cachedAt <= ttl {
        return cache.value;
      }
      match answer {
        case Some(names) =>
          cache := Cache(Some(Listing(names, after)), after);
          return cache.value;
        case None =>
          if allowStale && cache.value.Some? && before - cache.cachedAt <= staleIfError {
            return cache.value;
          }
          return None;
      }
    }
  }

  class InventoryService {
    const settings: Settings
    var models: Cache
    var tools: Cache

    constructor (settings: Settings)
      ensures this.settings == settings && models == EMPTY && tools == EMPTY
    {
      this.settings := settings;
      models, tools := EMPTY, EMPTY;
    }

    /** The fast path of `load`: both caches fresh. */
    method Snapshot(now: int) returns (served: Option<(Listing, Listing)>, age: int)
      ensures served.Some? <==> Within(models, now, settings.ttl) && Within(tools, now, settings.ttl)
      ensures served.Some? ==> Some(served.value.0) == models.value && Some(served.value.1) == tools.value
      ensures served.Some? ==> ReportedAge(models, now) <= age && ReportedAge(tools, now) <= age
      ensures served.Some? ==> age == ReportedAge(models, now) || age == ReportedAge(tools, now)
    {
      var m, t := ReportedAge(models, now), ReportedAge(tools, now);
      age := if m < t then t else m;
      if models.value.Some? && now - models.cachedAt <= settings.ttl && tools.value.Some? && now - tools.cachedAt <= settings.ttl {
        served := Some((models.value.value, tools.value.value));
      } else {
        served := None;
      }
    }

    method LoadModels(answer: Option<Listing>, now: int) returns (o: Outcome)
      modifies this`models
      ensures (models, o) == if !settings.modelsOn then OnOff(now)
                             else if answer.Some? then OnAnswer(answer.value, now)
                             else OnFailure(old(models), now, settings.staleIfError)
    {
      if !settings.modelsOn {
        models := Cache(Some(Listing([], now)), now);
        return Outcome(models.value, false, now);
      }
      match answer {
        case Some(listing) =>
          models := Cache(Some(listing), now);
          return Outcome(Some(listing), false, now);
        case None =>
          if Within(models, now, settings.staleIfError) {
            return Outcome(models.value, true, now);
          }
          return Outcome(None, true, now);
      }
    }

    method LoadTools(answer: Option<Listing>, now: int) returns (o: Outcome)
      modifies this`tools
      ensures (tools, o) == if !settings.toolsOn then OnOff(now)
                            else if answer.Some? then OnAnswer(answer.value, now)
                            else OnFailure(old(tools), now, settings.staleIfError)
    {
      if !settings.toolsOn {
        tools := Cache(Some(Listing([], now)), now);
        return Outcome(tools.value, false, now);
      }
      match answer {
        case Some(listing) =>
          tools := Cache(Some(listing), now);
          return Outcome(Some(listing), false, now);
        case None =>
          if Within(tools, now, settings.staleIfError) {
            return Outcome(tools.value, true, now);
          }
          return Outcome(None, true, now);
      }
    }

    /** Both caches of the service and of the clients below it. */
    method Invalidate(modelClient: CachingClient, toolClient: CachingClient)
      modifies this, modelClient`cache, toolClient`cache
      ensures models == EMPTY && tools == EMPTY && modelClient.cache == EMPTY && toolClient.cache == EMPTY
    {
      models, tools := EMPTY, EMPTY;
      modelClient.cache := EMPTY;
      toolClient.cache := EMPTY;
    }
  }

  // ---- Both levels under concurrent callers ----

  datatype Loading = Idle | Loading(force: bool, models: Option<Outcome>, tools: Option<Outcome>)

  datatype System = System(
    now: int,
    innerModels: Cache,
    innerTools: Cache,
    outerModels: Cache,
    outerTools: Cache,
    loading: Loading)
  {
    function Inner(src: Source): Cache {
      if src == Models then innerModels else innerTools
    }

    function Outer(src: Source): Cache {
      if src == Models then outerModels else outerTools
    }

    function Got(src: Source): Option<Outcome>
      requires loading.Loading?
    {
      if src == Models then loading.models else loading.tools
    }

    function WithInner(src: Source, c: Cache): System {
      if src == Models then this.(innerModels := c) else this.(innerTools := c)
    }

    function WithLoaded(src: Source, r: (Cache, Outcome)): System
      requires loading.Loading?
    {
      if src == Models
      then this.(outerModels := r.0, loading := loading.(models := Some(r.1)))
      else this.(outerTools := r.0, loading := loading.(tools := Some(r.1)))
    }
  }

  /** `Abandon` is a load cancelled while it gathers its two sources: what it stamped so far stays. */
  datatype Event =
    | Tick(seconds: nat)
    | OtherFetch(src: Source, names: seq<string>)
    | DropInner(src: Source)
    | Invalidate
    | Begin(force: bool)
    | Off(src: Source)
    | Hit(src: Source)
    | Fetched(src: Source, names: seq<string>)
    | Failed(src: Source)
    | Return
    | Abandon

  predicate Pending(s: System, src: Source) {
    s.loading.Loading? && s.Got(src).None?
  }

  predicate BothFresh(s: System, cfg: Settings) {
    Within(s.outerModels, s.now, cfg.ttl) && Within(s.outerTools, s.now, cfg.ttl)
  }

  predicate Enabled(s: System, e: Event, cfg: Settings) {
    match e
    case Tick(_) => true
    case OtherFetch(_, _) => true
    case DropInner(_) => true
    case Invalidate => true
    case Begin(force) => s.loading.Idle? && (force || !BothFresh(s, cfg))
    case Off(src) => Pending(s, src) && !cfg.On(src)
    case Hit(src) => Pending(s, src) && cfg.On(src) && !s.loading.force && Within(s.Inner(src), s.now, cfg.ttl)
    case Fetched(src, _) => Pending(s, src) && cfg.On(src)
    case Failed(src) => Pending(s, src) && cfg.On(src)
    case Return => s.loading.Loading? && s.loading.models.Some? && s.loading.tools.Some?
    case Abandon => s.loading.Loading?
  }

  function Apply(s: System, e: Event, cfg: Settings): System
    requires Enabled(s, e, cfg)
  {
    match e
    case Tick(seconds) => s.(now := s.now + seconds)
    case OtherFetch(src, names) => s.WithInner(src, Cache(Some(Listing(names, s.now)), s.now))
    case DropInner(src) => s.WithInner(src, EMPTY)
    case Invalidate => s.(innerModels := EMPTY, innerTools := EMPTY, outerModels := EMPTY, outerTools := EMPTY)
    case Begin(force) => s.(loading := Loading(force, None, None))
    case Off(src) => s.WithLoaded(src, OnOff(s.now))
    case Hit(src) => s.WithLoaded(src, OnAnswer(s.Inner(src).value.value, s.now))
    case Fetched(src, names) =>
      var listing := Listing(names, s.now);
      s.WithInner(src, Cache(Some(listing), s.now)).WithLoaded(src, OnAnswer(listing, s.now))
    case Failed(src) => s.WithLoaded(src, OnFailure(s.Outer(src), s.now, cfg.staleIfError))
    case Return => s.(loading := Idle)
    case Abandon => s.(loading := Idle)
  }

  function Initial(now: int): System {
    System(now, EMPTY, EMPTY, EMPTY, EMPTY, Idle)
  }

  predicate ValidRun(s: System, es: seq<Event>, cfg: Settings)
    decreases |es|
  {
    es != [] ==> Enabled(s, es[0], cfg) && ValidRun(Apply(s, es[0], cfg), es[1..], cfg)
  }

  function After(s: System, es: seq<Event>, cfg: Settings): System
    requires ValidRun(s, es, cfg)
    decreases |es|
  {
    if es == [] then s else After(Apply(s, es[0], cfg), es[1..], cfg)
  }

  // ---- What is served, and its age ----

  /** The lists a reader gets at this instant: the fresh snapshot, or the outcome of a load that returns now. */
  predicate ServesFromCache(s: System, src: Source, cfg: Settings, listing: Listing) {
    BothFresh(s, cfg) && s.Outer(src).value == Some(listing)
  }

  predicate ServesFromLoad(s: System, src: Source, cfg: Settings, listing: Listing) {
    Enabled(s, Return, cfg) && s.Got(src).value.value == Some(listing)
  }

  /** The lower cache stamps a list when it fetches it. */
  predicate FetchedAsStamped(c: Cache, now: int) {
    c.value.Some? ==> c.value.value.fetchedAt == c.cachedAt <= now
  }

  /** The upper cache may stamp a list the lower one held for up to its time to live. */
  predicate StampedLater(c: Cache, now: int, ttl: nat) {
    c.value.Some? ==> c.value.value.fetchedAt <= c.cachedAt <= now && c.cachedAt - c.value.value.fetchedAt <= ttl
  }

  predicate SelectedInTime(o: Outcome, now: int, cfg: Settings) {
    o.value.Some? ==>
      && o.value.value.fetchedAt <= o.selectedAt <= now
      && o.selectedAt - o.value.value.fetchedAt <= if o.failed then cfg.ttl + cfg.staleIfError else cfg.ttl
  }

  predicate Stamped(s: System, src: Source, cfg: Settings) {
    && FetchedAsStamped(s.Inner(src), s.now)
    && StampedLater(s.Outer(src), s.now, cfg.ttl)
    && (s.loading.Loading? && s.Got(src).Some? ==> SelectedInTime(s.Got(src).value, s.now, cfg))
  }

  /** What one loaded source stores and yields is as old as it may be. */
  lemma {:induction false} LoadedInTime(s: System, e: Event, cfg: Settings)
    requires Enabled(s, e, cfg) && (e.Off? || e.Hit? || e.Fetched? || e.Failed?) && Stamped(s, e.src, cfg)
    ensures Stamped(Apply(s, e, cfg), e.src, cfg)
  {
  }

  lemma {:induction false} OtherSourceUntouched(s: System, e: Event, cfg: Settings, src: Source)
    requires Enabled(s, e, cfg) && (e.Off? || e.Hit? || e.Fetched? || e.Failed?) && Stamped(s, src, cfg) && e.src != src
    ensures Stamped(Apply(s, e, cfg), src, cfg)
  {
  }

  lemma {:induction false} StepKeepsStamped(s: System, e: Event, cfg: Settings, src: Source)
    requires Stamped(s, src, cfg) && Enabled(s, e, cfg)
    ensures Stamped(Apply(s, e, cfg), src, cfg)
  {
    if e.Off? || e.Hit? || e.Fetched? || e.Failed? {
      if e.src == src {
        LoadedInTime(s, e, cfg);
      } else {
        OtherSourceUntouched(s, e, cfg, src);
      }
    }
  }

  lemma {:induction false} RunKeepsStamped(s: System, es: seq<Event>, cfg: Settings, src: Source)
    requires Stamped(s, src, cfg) && ValidRun(s, es, cfg)
    ensures Stamped(After(s, es, cfg), src, cfg)
    decreases |es|
  {
    if es != [] {
      StepKeepsStamped(s, es[0], cfg, src);
      RunKeepsStamped(Apply(s, es[0], cfg), es[1..], cfg, src);
    }
  }

  /**
    * Whatever happens around it, a list was fetched at most ttl + max(ttl, staleIfError) before the moment it was selected.
    * A list served from the service's cache is selected when it is served; a loading one may still wait for the other source.
    */
  lemma {:induction false} StalenessBound(start: int, es: seq<Event>, cfg: Settings, src: Source, listing: Listing)
    requires ValidRun(Initial(start), es, cfg)
    ensures var s := After(Initial(start), es, cfg);
      && (ServesFromCache(s, src, cfg, listing) ==> 0 <= s.now - listing.fetchedAt <= cfg.ttl + cfg.ttl)
      && (ServesFromLoad(s, src, cfg, listing)
          ==> 0 <= s.Got(src).value.selectedAt - listing.fetchedAt <= cfg.ttl + Max(cfg.ttl, cfg.staleIfError))
      && (ServesFromLoad(s, src, cfg, listing) && !s.Got(src).value.failed
          ==> s.Got(src).value.selectedAt - listing.fetchedAt <= cfg.ttl)
  {
    RunKeepsStamped(Initial(start), es, cfg, src);
  }

  // ---- The reported age ----

  predicate Stamps(e: Event, src: Source) {
    (e.Off? || e.Hit? || e.Fetched?) && e.src == src
  }

  /** The service stamps a list that the client below fetched earlier. */
  predicate StampsOldList(s: System, e: Event, src: Source) {
    e.Hit? && e.src == src && s.Inner(src).cachedAt < s.now
  }

  /** A stamp makes the reported age true for ever if and only if it is not put on a list the client below already held. */
  lemma {:induction false} StampReportsTrueAgeExactly(s: System, e: Event, cfg: Settings)
    requires Enabled(s, e, cfg) && (e.Off? || e.Hit? || e.Fetched?) && Stamped(s, e.src, cfg) && s.now > 0
    ensures var c := Apply(s, e, cfg).Outer(e.src);
      && c.value.Some?
      && ((forall later :: s.now <= later ==> ReportedAge(c, later) == later - c.value.value.fetchedAt)
          <==> !StampsOldList(s, e, e.src))
  {
    var c := Apply(s, e, cfg).Outer(e.src);
    assert ReportedAge(c, s.now) == 0;
  }

  /** Whether the last stamp of a source along a run was put on an older list; `before` answers for what came before the run. */
  predicate LastStampOnOldList(s: System, es: seq<Event>, cfg: Settings, src: Source, before: bool)
    requires ValidRun(s, es, cfg)
    decreases |es|
  {
    if es == [] then before
    else LastStampOnOldList(Apply(s, es[0], cfg), es[1..], cfg, src, if Stamps(es[0], src) then StampsOldList(s, es[0], src) else before)
  }

  predicate StampDiffers(c: Cache) {
    c.value.Some? && c.value.value.fetchedAt < c.cachedAt
  }

  lemma {:induction false} StepMovesStamp(s: System, e: Event, cfg: Settings, src: Source)
    requires Enabled(s, e, cfg) && Stamped(s, src, cfg) && Apply(s, e, cfg).Outer(src).value.Some?
    ensures StampDiffers(Apply(s, e, cfg).Outer(src)) <==> if Stamps(e, src) then StampsOldList(s, e, src) else StampDiffers(s.Outer(src))
    ensures !Stamps(e, src) ==> s.Outer(src).value.Some?
  {
  }

  lemma {:induction false} RunMovesStamp(s: System, es: seq<Event>, cfg: Settings, src: Source, before: bool)
    requires ValidRun(s, es, cfg) && Stamped(s, src, cfg)
    requires s.Outer(src).value.Some? ==> (before <==> StampDiffers(s.Outer(src)))
    ensures After(s, es, cfg).Outer(src).value.Some?
            ==> (LastStampOnOldList(s, es, cfg, src, before) <==> StampDiffers(After(s, es, cfg).Outer(src)))
    decreases |es|
  {
    if es != [] {
      var t := Apply(s, es[0], cfg);
      StepKeepsStamped(s, es[0], cfg, src);
      if t.Outer(src).value.Some? {
        StepMovesStamp(s, es[0], cfg, src);
      }
      RunMovesStamp(t, es[1..], cfg, src, if Stamps(es[0], src) then StampsOldList(s, es[0], src) else before);
    }
  }

  /** Over every run, a list served from the cache is as old as reported if and only if its last stamp was not put on an older list. */
  lemma {:induction false} ReportedAgeTrueExactly(start: int, es: seq<Event>, cfg: Settings, src: Source, listing: Listing)
    requires start > 0 && ValidRun(Initial(start), es, cfg)
    requires ServesFromCache(After(Initial(start), es, cfg), src, cfg, listing)
    ensures var s := After(Initial(start), es, cfg);
      ReportedAge(s.Outer(src), s.now) == s.now - listing.fetchedAt <==> !LastStampOnOldList(Initial(start), es, cfg, src, false)
  {
    RunKeepsStamped(Initial(start), es, cfg, src);
    RunKeepsPositive(Initial(start), es, cfg, src);
    RunMovesStamp(Initial(start), es, cfg, src, false);
  }

  /** The age a snapshot reports is the age of the stamp: the list itself is that old or up to a time to live older. */
  lemma {:induction false} ReportedAgeUnderstates(start: int, es: seq<Event>, cfg: Settings, src: Source, listing: Listing)
    requires start > 0 && ValidRun(Initial(start), es, cfg)
    ensures var s := After(Initial(start), es, cfg);
      ServesFromCache(s, src, cfg, listing)
      ==> var reported := ReportedAge(s.Outer(src), s.now);
          reported <= s.now - listing.fetchedAt <= reported + cfg.ttl
  {
    RunKeepsStamped(Initial(start), es, cfg, src);
    RunKeepsPositive(Initial(start), es, cfg, src);
  }

  predicate PositiveStamp(s: System, src: Source) {
    s.now > 0 && (s.Outer(src).value.Some? ==> s.Outer(src).cachedAt > 0)
  }

  lemma {:induction false} RunKeepsPositive(s: System, es: seq<Event>, cfg: Settings, src: Source)
    requires PositiveStamp(s, src) && ValidRun(s, es, cfg)
    ensures PositiveStamp(After(s, es, cfg), src)
    decreases |es|
  {
    if es != [] {
      RunKeepsPositive(Apply(s, es[0], cfg), es[1..], cfg, src);
    }
  }

  lemma {:induction false} OneMore(s: System, es: seq<Event>, e: Event, cfg: Settings)
    requires ValidRun(s, es, cfg) && Enabled(After(s, es, cfg), e, cfg)
    ensures ValidRun(s, es + [e], cfg) && After(s, es + [e], cfg) == Apply(After(s, es, cfg), e, cfg)
    decreases |es|
  {
    if es == [] {
      assert (es + [e])[1..] == [];
    } else {
      assert (es + [e])[1..] == es[1..] + [e];
      OneMore(Apply(s, es[0], cfg), es[1..], e, cfg);
    }
  }

  /** Another caller fetches; a load picks the list up when it is just about to lapse. */
  function PickUp(names: seq<string>, cfg: Settings): seq<Event> {
    [OtherFetch(Models, names), Tick(cfg.ttl), Begin(false), Hit(Models), Fetched(Tools, []), Return]
  }

  lemma {:induction false} PickUpRun(start: int, names: seq<string>, cfg: Settings)
    requires cfg.modelsOn && cfg.toolsOn
    ensures ValidRun(Initial(start), PickUp(names, cfg), cfg)
    ensures var listing, now := Listing(names, start), start + cfg.ttl;
      After(Initial(start), PickUp(names, cfg), cfg)
      == System(now, Cache(Some(listing), start), Cache(Some(Listing([], now)), now),
                Cache(Some(listing), now), Cache(Some(Listing([], now)), now), Idle)
  {
    var s, es := Initial(start), PickUp(names, cfg);
    OneMore(s, [], es[0], cfg);
    OneMore(s, [es[0]], es[1], cfg);
    assert [es[0]] + [es[1]] == es[..2];
    OneMore(s, es[..2], es[2], cfg);
    assert es[..2] + [es[2]] == es[..3];
    OneMore(s, es[..3], es[3], cfg);
    assert es[..3] + [es[3]] == es[..4];
    OneMore(s, es[..4], es[4], cfg);
    assert es[..4] + [es[4]] == es[..5];
    OneMore(s, es[..5], es[5], cfg);
    assert es[..5] + [es[5]] == es;
  }

  /**
    * Both halves of the bound are attained, for every setting: twice the time to live from the cache, ttl + staleIfError after
    * an error. The snapshot with the list of twice the time to live reports half of that.
    */
  lemma {:induction false} StalenessBoundAttained(start: int, names: seq<string>, cfg: Settings)
    requires cfg.modelsOn && cfg.toolsOn
    ensures var es := PickUp(names, cfg) + [Tick(cfg.ttl)];
      ValidRun(Initial(start), es, cfg)
      && var s := After(Initial(start), es, cfg);
         && ServesFromCache(s, Models, cfg, Listing(names, start)) && s.now - start == cfg.ttl + cfg.ttl
         && (start > 0 ==> Max(ReportedAge(s.Outer(Models), s.now), ReportedAge(s.Outer(Tools), s.now)) == cfg.ttl)
    ensures var es := PickUp(names, cfg) + [Tick(cfg.staleIfError)] + [Begin(true)] + [Failed(Models)] + [Fetched(Tools, [])];
      ValidRun(Initial(start), es, cfg)
      && var s := After(Initial(start), es, cfg);
         ServesFromLoad(s, Models, cfg, Listing(names, start)) && s.Got(Models).value.selectedAt - start == cfg.ttl + cfg.staleIfError
  {
    PickUpRun(start, names, cfg);
    var s, es := Initial(start), PickUp(names, cfg);
    OneMore(s, es, Tick(cfg.ttl), cfg);
    OneMore(s, es, Tick(cfg.staleIfError), cfg);
    OneMore(s, es + [Tick(cfg.staleIfError)], Begin(true), cfg);
    OneMore(s, es + [Tick(cfg.staleIfError)] + [Begin(true)], Failed(Models), cfg);
    OneMore(s, es + [Tick(cfg.staleIfError)] + [Begin(true)] + [Failed(Models)], Fetched(Tools, []), cfg);
  }
}
