/** The decision flow of `create_ticket` and the automation engine that owns
    the resolution cache: priority, then (LOW and MEDIUM only) auto-resolution,
    then assignment when nothing resolved the ticket, then the time estimate. */
module Intake {
  import opened Wrappers
  import opened Text
  import opened Tickets
  import opened PriorityRules
  import opened Cache
  import opened AutoResolve
  import opened Assignment
  import opened Estimate

  /** The engine's fixed tables. */
  datatype Config = Config(keywords: PriorityKeywords, kb: seq<KbEntry>, roster: seq<Handler>, baseTimes: BaseTimes)

  const SourceConfig := Config(SourceKeywords, SourceKnowledgeBase, SourceRoster, SourceBaseTimes)

  /** The validated request body. */
  datatype TicketRequest = TicketRequest(title: string, description: string, userEmail: string)

  /** The request validator: a title of 5 to 200 characters and a description
      of at least 10. */
  predicate ValidRequest(req: TicketRequest)
  {
    5 <= |req.title| <= 200 && |req.description| >= 10
  }

  /** The ticket record `create_ticket` builds and updates. */
  datatype Ticket = Ticket(
    title: string, description: string, category: Category, priority: Priority,
    status: Status, userEmail: string, createdAt: int,
    assignee: Option<string>, resolution: Option<string>, autoResolved: bool)

  function Info(t: Ticket): TicketInfo
  {
    TicketInfo(t.title, t.description, t.category, t.priority)
  }

  function NewTicket(req: TicketRequest, c: Category, p: Priority, now: int): Ticket
  {
    Ticket(req.title, req.description, c, p, NEW, req.userEmail, now, None, None, false)
  }

  /** Python's truth test on the optional resolution text. */
  predicate Usable(r: Option<string>)
  {
    r.Some? && r.value != ""
  }

  /** The state a ticket leaves intake in: either resolved automatically with
      a non-empty resolution and no assignee, or in progress with a roster
      member as assignee and no resolution. */
  predicate Disposed(t: Ticket, roster: seq<Handler>)
  {
    || (t.status == RESOLVED && Usable(t.resolution) && t.autoResolved && t.assignee.None?)
    || (t.status == IN_PROGRESS && t.resolution.None? && !t.autoResolved
        && exists i | 0 <= i < |roster| :: t.assignee == Some(roster[i].id))
  }

  /** `create_ticket` as a function of the cache before it: the ticket, its
      estimated resolution time and the cache after it. */
  function IntakeOutcome(cfg: Config, store: Store, req: TicketRequest, c: Category, ai: AiOutcome, now: int, hour: int)
    : (res: (Ticket, nat, Store))
    requires ValidRequest(req) && |cfg.roster| > 0
    ensures Disposed(res.0, cfg.roster)
    ensures res.0.title == req.title && res.0.description == req.description
    ensures res.0.userEmail == req.userEmail && res.0.createdAt == now
    ensures res.0.category == c
    ensures res.0.priority == DeterminePriority(cfg.keywords, req.title + " " + req.description)
    ensures res.1 == PredictResolutionTime(cfg.baseTimes, c, res.0.priority, hour)
    ensures res.0.status == IN_PROGRESS ==> res.0.assignee == Some(cfg.roster[Assign(cfg.roster, c).value].id)
    ensures res.0.status == RESOLVED ==> res.0.resolution == AutoResolution(store, cfg.kb, Info(res.0), ai, now).0
    ensures AutoResolvable(res.0.priority) ==> res.2 == AutoResolution(store, cfg.kb, Info(res.0), ai, now).1
    ensures !AutoResolvable(res.0.priority) ==> res.0.status == IN_PROGRESS && res.2 == store
    ensures res.0.status == RESOLVED ==> res.2 == Put(store, CacheKey(c, req.title), res.0.resolution.value, ResolutionTtl, now)
                                         || res.2 == store
  {
    var priority := DeterminePriority(cfg.keywords, req.title + " " + req.description);
    var ticket := NewTicket(req, c, priority, now);
    var auto := if AutoResolvable(priority) then AutoResolution(store, cfg.kb, Info(ticket), ai, now) else (None, store);
    var estimate := PredictResolutionTime(cfg.baseTimes, c, priority, hour);
    if Usable(auto.0) then
      (ticket.(status := RESOLVED, resolution := auto.0, autoResolved := true), estimate, auto.1)
    else
      var pick := Assign(cfg.roster, c).value;
      (ticket.(status := IN_PROGRESS, assignee := Some(cfg.roster[pick].id)), estimate, auto.1)
  }

  /** A ticket is resolved exactly when it is LOW or MEDIUM and auto-resolution
      returns non-empty text; that text is its resolution. */
  lemma ResolvedIffAutoResolved(cfg: Config, store: Store, req: TicketRequest, c: Category, ai: AiOutcome, now: int, hour: int)
    requires ValidRequest(req) && |cfg.roster| > 0
    ensures var t := IntakeOutcome(cfg, store, req, c, ai, now, hour).0;
            var auto := AutoResolution(store, cfg.kb, Info(t), ai, now);
            t.status == RESOLVED <==> AutoResolvable(t.priority) && Usable(auto.0)
  {
  }

  /** With non-empty knowledge-base texts, a ticket left for a handler leaves
      the cache exactly as it was: a miss, a declined reply or a failed AI
      call writes nothing. */
  lemma UnresolvedLeavesCache(cfg: Config, store: Store, req: TicketRequest, c: Category, ai: AiOutcome, now: int, hour: int)
    requires ValidRequest(req) && |cfg.roster| > 0
    requires forall i | 0 <= i < |cfg.kb| :: cfg.kb[i].resolution != ""
    ensures var res := IntakeOutcome(cfg, store, req, c, ai, now, hour);
            res.0.status == IN_PROGRESS ==> res.2 == store
  {
  }

  /** HIGH and CRITICAL tickets never reach the cache, the knowledge base or
      the AI: their outcome is the same for every cache, knowledge base and
      AI outcome. */
  lemma UrgentTicketsSkipAutoResolution(cfg: Config, s1: Store, s2: Store, kb2: seq<KbEntry>, req: TicketRequest, c: Category,
                                        ai1: AiOutcome, ai2: AiOutcome, now: int, hour: int)
    requires ValidRequest(req) && |cfg.roster| > 0
    requires !AutoResolvable(DeterminePriority(cfg.keywords, req.title + " " + req.description))
    ensures IntakeOutcome(cfg, s1, req, c, ai1, now, hour).0 == IntakeOutcome(cfg.(kb := kb2), s2, req, c, ai2, now, hour).0
    ensures IntakeOutcome(cfg, s1, req, c, ai1, now, hour).2 == s1
  {
  }

  const OutageRequest := TicketRequest("System completely down, URGENT", "production outage", "ops@company.com")

  /** "System completely down, URGENT" is CRITICAL and, whatever the cache
      holds and the AI would say, is routed to a handler; as a NETWORK ticket
      with the source's tables it goes to john, 90 * 1.5 = 135 minutes at 10:00. */
  lemma OutageIsRouted(store: Store, ai: AiOutcome, now: int)
    ensures var res := IntakeOutcome(SourceConfig, store, OutageRequest, NETWORK, ai, now, 10);
            && res.0.priority == CRITICAL
            && res.0.status == IN_PROGRESS
            && res.0.assignee == Some("john.doe@company.com")
            && res.1 == 135
            && res.2 == store
  {
    var text := Lower(OutageRequest.title + " " + OutageRequest.description);
    assert text[18..22] == "down";
    assert OccursAt(text, SourceKeywords.critical[3], 18);
    SourceRosterRouting(NETWORK);
  }

  /** The automation engine: its tables and its Redis client. */
  class ServiceDesk {
    const config: Config
    const cache: ResolutionCache

    predicate Valid()
    {
      |config.roster| > 0
    }

    constructor (config: Config, cache: ResolutionCache)
      requires |config.roster| > 0
      ensures Valid() && this.config == config && this.cache == cache
    {
      this.config := config;
      this.cache := cache;
    }

    /** `auto_resolve_ticket`: cache lookup, the knowledge-base loop with early
        return, then the AI outcome for LOW and MEDIUM tickets; every
        resolution found after the cache is written back for an hour. */
    method AutoResolveTicket(t: TicketInfo, ai: AiOutcome, now: int) returns (resolution: Option<string>)
      modifies cache
      ensures (resolution, cache.store) == AutoResolution(old(cache.store), config.kb, t, ai, now)
    {
      var key := CacheKey(t.category, t.title);
      var cached := cache.Get(key, now);
      if cached.Some? && cached.value != "" {
        return cached;
      }
      var text := TicketText(t);
      for i := 0 to |config.kb|
        invariant cache.store == old(cache.store)
        invariant forall j :: 0 <= j < i ==> !AnyOccurs(config.kb[j].keywords, text)
      {
        if AnyOccurs(config.kb[i].keywords, text) {
          cache.SetEx(key, ResolutionTtl, config.kb[i].resolution, now);
          return Some(config.kb[i].resolution);
        }
      }
      if AutoResolvable(t.priority) {
        var reply := GenerateAiResolution(ai);
        if reply.Some? && reply.value != "" {
          cache.SetEx(key, ResolutionTtl, reply.value, now);
          return reply;
        }
      }
      return None;
    }

    /** `create_ticket` after classification: the category is given, `now` is
        the creation time and `hour` the local hour used by the estimate. */
    method CreateTicket(req: TicketRequest, category: Category, ai: AiOutcome, now: int, hour: int)
      returns (ticket: Ticket, estimate: nat)
      requires Valid() && ValidRequest(req)
      modifies cache
      ensures (ticket, estimate, cache.store) == IntakeOutcome(config, old(cache.store), req, category, ai, now, hour)
      ensures Disposed(ticket, config.roster)
    {
      var priority := DeterminePriority(config.keywords, req.title + " " + req.description);
      ticket := NewTicket(req, category, priority, now);

      var resolution: Option<string> := None;
      if AutoResolvable(priority) {
        resolution := AutoResolveTicket(Info(ticket), ai, now);
        if Usable(resolution) {
          ticket := ticket.(status := RESOLVED, resolution := resolution, autoResolved := true);
        }
      }

      if !Usable(resolution) {
        var pick := AssignTicket(config.roster, category);
        ticket := ticket.(assignee := Some(config.roster[pick.value].id), status := IN_PROGRESS);
      }

      estimate := PredictResolutionTime(config.baseTimes, ticket.category, ticket.priority, hour);
    }
  }
}
