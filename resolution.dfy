/** `auto_resolve_ticket` and the reply filter of `_generate_ai_resolution`:
    the resolution cache, then the ordered knowledge base, then (for LOW and
    MEDIUM tickets only) the outcome of the AI call. */
module AutoResolve {
  import opened Wrappers
  import opened Text
  import opened Lists
  import opened Tickets
  import opened Cache

  /** The fields of a ticket that auto-resolution reads. */
  datatype TicketInfo = TicketInfo(title: string, description: string, category: Category, priority: Priority)

  /** One knowledge-base entry: an issue type, its keywords and a canned resolution. */
  datatype KbEntry = KbEntry(issueType: string, keywords: seq<string>, resolution: string)

  /** The knowledge base the source hard-codes, in its order. */
  const SourceKnowledgeBase: seq<KbEntry> := [
    KbEntry("PASSWORD_RESET", ["password", "reset", "forgot", "locked"],
      "Your password has been reset. Please follow these steps:\n"
      + "1. Check your email for the password reset link\n"
      + "2. Click the link and create a new password\n"
      + "3. Use at least 8 characters with a mix of letters, numbers, and symbols\n"
      + "4. Try logging in with your new password\n\n"
      + "If you don't receive the email within 5 minutes, check your spam folder."),
    KbEntry("WIFI_CONNECTION", ["wifi", "wireless", "connect", "network"],
      "To resolve WiFi connection issues:\n"
      + "1. Restart your device\n"
      + "2. Forget the network and reconnect\n"
      + "3. Ensure you're using the correct password\n"
      + "4. Check if other devices can connect\n"
      + "5. Move closer to the access point\n\n"
      + "Network: CompanyWiFi\n"
      + "Password: [Check with IT if needed]"),
    KbEntry("SOFTWARE_CRASH", ["crash", "error", "stopped working", "not responding"],
      "To resolve application crashes:\n"
      + "1. Close the application completely\n"
      + "2. Restart your computer\n"
      + "3. Check for software updates\n"
      + "4. Clear application cache if possible\n"
      + "5. Reinstall if the issue persists\n\n"
      + "If this doesn't resolve the issue, we'll need to investigate further.")
  ]

  /** Seconds a written resolution stays in the cache. */
  const ResolutionTtl: nat := 3600

  /** Number of title characters that take part in the cache key. */
  const TitleKeyLength: nat := 50

  /** `f"resolution:{category}:{title[:50]}"` */
  function CacheKey(c: Category, title: string): string
  {
    "resolution:" + CategoryName(c) + ":" + Prefix(title, TitleKeyLength)
  }

  lemma CategoryNameHasNoColon(c: Category)
    ensures ':' !in CategoryName(c)
  {
  }

  /** In `n + [sep] + r` with no `sep` in `n`, the first `sep` is at index `|n|`. */
  lemma FirstSeparator(n: string, r: string, sep: char)
    requires sep !in n
    ensures (n + [sep] + r)[|n|] == sep
    ensures forall i :: 0 <= i < |n| ==> (n + [sep] + r)[i] != sep
  {
  }

  /** Two strings joined by a separator that occurs in neither left part split
      back into the same parts. */
  lemma SplitAtSeparator(n1: string, r1: string, n2: string, r2: string, sep: char)
    requires sep !in n1 && sep !in n2
    requires n1 + [sep] + r1 == n2 + [sep] + r2
    ensures n1 == n2 && r1 == r2
  {
    var s := n1 + [sep] + r1;
    FirstSeparator(n1, r1, sep);
    FirstSeparator(n2, r2, sep);
    assert |n1| == |n2|;
    assert n1 == s[..|n1|] == n2;
    assert r1 == s[|n1| + 1..] == r2;
  }

  /** Keys with a common tag and a separator that occurs in neither name
      split back into the same names and the same remainders. */
  lemma TaggedSplit(tag: string, n1: string, r1: string, n2: string, r2: string, sep: char)
    requires sep !in n1 && sep !in n2
    requires tag + n1 + [sep] + r1 == tag + n2 + [sep] + r2
    ensures n1 == n2 && r1 == r2
  {
    var k := tag + n1 + [sep] + r1;
    assert k[|tag|..] == n1 + [sep] + r1;
    assert k[|tag|..] == n2 + [sep] + r2;
    SplitAtSeparator(n1, r1, n2, r2, sep);
  }

  lemma CategoryNameInjective(c1: Category, c2: Category)
    ensures CategoryName(c1) == CategoryName(c2) ==> c1 == c2
  {
  }

  /** Tickets share a cache slot exactly when they have the same category and
      the same first 50 title characters. */
  lemma CacheKeyInjective(c1: Category, t1: string, c2: Category, t2: string)
    ensures CacheKey(c1, t1) == CacheKey(c2, t2) <==> c1 == c2 && Prefix(t1, TitleKeyLength) == Prefix(t2, TitleKeyLength)
  {
    var n1, n2 := CategoryName(c1), CategoryName(c2);
    var p1, p2 := Prefix(t1, TitleKeyLength), Prefix(t2, TitleKeyLength);
    assert CacheKey(c1, t1) == "resolution:" + n1 + [':'] + p1;
    assert CacheKey(c2, t2) == "resolution:" + n2 + [':'] + p2;
    if CacheKey(c1, t1) == CacheKey(c2, t2) {
      CategoryNameHasNoColon(c1);
      CategoryNameHasNoColon(c2);
      TaggedSplit("resolution:", n1, p1, n2, p2, ':');
      CategoryNameInjective(c1, c2);
    }
  }

  /** The text the knowledge base is matched against: lower-cased title and
      description joined by a space. */
  function TicketText(t: TicketInfo): string
  {
    Lower(t.title + " " + t.description)
  }

  /** Index of the first knowledge-base entry with a keyword in `text`. */
  function KbMatch(kb: seq<KbEntry>, text: string): Option<nat>
  {
    FirstMatch(kb, (e: KbEntry) => AnyOccurs(e.keywords, text))
  }

  /** What the AI call produced: an exception (network error, timeout, missing
      content) or the text of the reply. */
  datatype AiOutcome = Failed | Reply(content: string)

  /** Phrases that mark a reply as a refusal or an escalation. */
  const EscalationPhrases: seq<string> := ["contact it", "admin required", "none"]

  /** `_generate_ai_resolution` after the call: a failure, or a reply whose
      lower-cased text contains an escalation phrase, gives no resolution;
      any other reply is returned unchanged. */
  function GenerateAiResolution(ai: AiOutcome): (r: Option<string>)
    ensures r.Some? <==> ai.Reply? && !AnyOccurs(EscalationPhrases, Lower(ai.content))
    ensures r.Some? ==> r.value == ai.content
  {
    match ai
    case Failed => None
    case Reply(content) =>
      if AnyOccurs(EscalationPhrases, Lower(content)) then None else Some(content)
  }

  /** The phrase test is a raw substring test too: "none" inside
      "nonetheless" declines an otherwise useful reply. */
  lemma NonethelessIsDeclined()
    ensures GenerateAiResolution(Reply("Nonetheless, restart it.")) == None
  {
    var t := Lower("Nonetheless, restart it.");
    assert t[0..4] == "none";
    assert OccursAt(t, EscalationPhrases[2], 0);
  }

  /** The cached value, if it is there, unexpired and non-empty
      (Python's `if cached_resolution:`). */
  function CachedResolution(store: Store, t: TicketInfo, now: int): Option<string>
  {
    var hit := Lookup(store, CacheKey(t.category, t.title), now);
    if hit.Some? && hit.value != "" then hit else None
  }

  /** `auto_resolve_ticket` as a function of the cache before the call: the
      resolution returned (None when there is none) and the cache after it. */
  function AutoResolution(store: Store, kb: seq<KbEntry>, t: TicketInfo, ai: AiOutcome, now: int): (res: (Option<string>, Store))
    ensures res.1 == store || (res.0.Some? && res.1 == Put(store, CacheKey(t.category, t.title), res.0.value, ResolutionTtl, now))
    ensures res.0.None? ==> res.1 == store
    ensures res.0.Some? ==>
      || res.0 == Lookup(store, CacheKey(t.category, t.title), now)
      || (exists i | 0 <= i < |kb| :: kb[i].resolution == res.0.value)
      || (AutoResolvable(t.priority) && ai == Reply(res.0.value))
  {
    var key := CacheKey(t.category, t.title);
    match CachedResolution(store, t, now)
    case Some(v) => (Some(v), store)
    case None =>
      match KbMatch(kb, TicketText(t))
      case Some(i) => (Some(kb[i].resolution), Put(store, key, kb[i].resolution, ResolutionTtl, now))
      case None =>
        if !AutoResolvable(t.priority) then (None, store)
        else
          match GenerateAiResolution(ai)
          case Some(r) =>
            if r != "" then (Some(r), Put(store, key, r, ResolutionTtl, now)) else (None, store)
          case None => (None, store)
  }

  /** A usable cache hit is returned as it is; nothing is written. */
  lemma CacheHitShortCircuits(store: Store, kb: seq<KbEntry>, t: TicketInfo, ai: AiOutcome, now: int, v: string)
    requires Lookup(store, CacheKey(t.category, t.title), now) == Some(v) && v != ""
    ensures AutoResolution(store, kb, t, ai, now) == (Some(v), store)
  {
  }

  /** On a cache miss the first matching knowledge-base entry answers, and its
      resolution is cached under the ticket's key for an hour. */
  lemma KbFirstMatchIsCached(store: Store, kb: seq<KbEntry>, t: TicketInfo, ai: AiOutcome, now: int, i: nat)
    requires CachedResolution(store, t, now).None?
    requires i < |kb| && AnyOccurs(kb[i].keywords, TicketText(t))
    requires forall j :: 0 <= j < i ==> !AnyOccurs(kb[j].keywords, TicketText(t))
    ensures AutoResolution(store, kb, t, ai, now)
         == (Some(kb[i].resolution), store[CacheKey(t.category, t.title) := Entry(kb[i].resolution, now + 3600)])
  {
  }

  /** Without a cache hit or a knowledge-base match, only a LOW or MEDIUM
      ticket with an accepted, non-empty AI reply is resolved; everything
      else yields no resolution and leaves the cache alone. */
  lemma AiFallback(store: Store, kb: seq<KbEntry>, t: TicketInfo, ai: AiOutcome, now: int)
    requires CachedResolution(store, t, now).None?
    requires forall j :: 0 <= j < |kb| ==> !AnyOccurs(kb[j].keywords, TicketText(t))
    ensures AutoResolution(store, kb, t, ai, now)
         == if AiAccepted(t, ai)
            then (Some(ai.content), store[CacheKey(t.category, t.title) := Entry(ai.content, now + 3600)])
            else (None, store)
  {
  }

  /** The AI reply is used: the ticket is LOW or MEDIUM and the reply is
      non-empty and free of escalation phrases. */
  predicate AiAccepted(t: TicketInfo, ai: AiOutcome)
  {
    AutoResolvable(t.priority) && ai.Reply? && ai.content != ""
    && !AnyOccurs(EscalationPhrases, Lower(ai.content))
  }

  /** The AI outcome matters only when there is no usable cache hit, no
      knowledge-base match and the priority is LOW or MEDIUM. */
  lemma AiNotConsulted(store: Store, kb: seq<KbEntry>, t: TicketInfo, ai1: AiOutcome, ai2: AiOutcome, now: int)
    requires CachedResolution(store, t, now).Some? || KbMatch(kb, TicketText(t)).Some? || !AutoResolvable(t.priority)
    ensures AutoResolution(store, kb, t, ai1, now) == AutoResolution(store, kb, t, ai2, now)
  {
  }

  const PasswordTicket := TicketInfo("Forgot my password", "locked out, need reset", ACCESS, LOW)

  /** A password ticket meets an empty cache: the PASSWORD_RESET entry answers
      and is cached. */
  lemma ForgottenPasswordIsResolved(ai: AiOutcome, now: int)
    ensures AutoResolution(map[], SourceKnowledgeBase, PasswordTicket, ai, now)
         == (Some(SourceKnowledgeBase[0].resolution),
             map[CacheKey(ACCESS, "Forgot my password") := Entry(SourceKnowledgeBase[0].resolution, now + 3600)])
  {
    var t := PasswordTicket;
    var text := TicketText(t);
    assert text[10..18] == "password";
    assert OccursAt(text, SourceKnowledgeBase[0].keywords[0], 10);
    assert AnyOccurs(SourceKnowledgeBase[0].keywords, text);
  }
}
