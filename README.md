# IT service desk intake and rightsizing helpers, in Dafny

This project models the decision logic of the service-desk automation engine in
`project2_service_desk.py`:
- it assigns a priority from keyword tiers;
- it attempts auto-resolution through a time-bounded Redis cache, a knowledge
  base and an AI reply filter;
- it routes unresolved tickets to a handler by skill and workload ratio;
- it estimates the resolution time;
- the `create_ticket` endpoint chains these steps into one ticket disposition.

The project also models two rightsizing helpers of `project1_cost_optimizer.py`:
the downsizing recommendation and the monthly savings total.

Modules, one per file:

- `Wrappers`, `Lists`, `Text`: supporting modules.
  - `Text` holds ASCII lower-casing and substring occurrence, which stands in
    for Python's `in` on strings. It also holds `Prefix` (`s[:n]`) and
    `ReplaceAll`, which follows `str.replace`.
  - `Lists` holds the first-match search that every "first entry whose keyword
    occurs" loop uses.
- `Tickets`: the category, priority and status enumerations.
- `PriorityRules`: `_determine_priority`. The keyword tiers are a parameter;
  `SourceKeywords` holds the source's lists.
- `Cache`:
  - The Redis store is a map from key to (value, expiry).
  - A read hits only before the expiry.
  - `ResolutionCache` is an in-memory stand-in for the Redis client. `get`
    reads its store, and `setex` updates it in place.
- `AutoResolve`: `auto_resolve_ticket` and the reply filter of
  `_generate_ai_resolution`. It models the cache key, the knowledge base
  (`SourceKnowledgeBase`) and the AI outcome as an input.
- `Assignment`: `assign_ticket` over a handler roster (`SourceRoster`).
  - `Assign` is its specification.
  - `AssignTicket` is the collecting loop, the stable sort's head and the
    `min` fallback.
- `Estimate`: `predict_resolution_time` with its base-time table
  (`SourceBaseTimes`).
- `Intake`:
  - `IntakeOutcome` specifies `create_ticket`'s decision flow.
  - The `ServiceDesk` class owns the cache. Its `AutoResolveTicket` and
    `CreateTicket` methods update the cache and are proved equal to the
    specification functions.
- `Rightsizing`: `_get_rightsizing_recommendation` and
  `_calculate_rightsizing_savings`.

Behaviour of the code worth knowing:

- `create_ticket` calls `auto_resolve_ticket` only for LOW and MEDIUM tickets,
  so HIGH and CRITICAL tickets never consult the cache, the knowledge base or
  the AI (`UrgentTicketsSkipAutoResolution`).
- The business-hours test `9 <= hour <= 17` includes the 17:00-17:59 hour
  (`SourceEstimates`).
- Among candidates with equal load ratios, the handler listed earlier in the roster
  wins, because Python's sort is stable. The least-loaded fallback also picks
  the first handler of minimal load, because `min` keeps the first.
- The category is whatever the classifier returned. `create_ticket` has no
  default category for a failed classification.
- `create_ticket` never sets a resolution timestamp.
- "VPN not connecting" / "cannot connect to VPN from home, getting error" is
  MEDIUM, because "error" is a MEDIUM keyword. It therefore goes through
  auto-resolution.

## Model

| member | source | states |
|---|---|---|
| PriorityRules.DeterminePriority | project2_service_desk.py:191-206 | A non-LOW priority has a keyword of its own tier in the lower-cased text. No tier above the result has a keyword in it, so tier precedence, not keyword count, decides. |
| PriorityRules.CaseInsensitive | project2_service_desk.py:193 | The priority of a text equals the priority of its lower-cased form. |
| PriorityRules.PriorityMonotone | project2_service_desk.py:199-206 | Appending text never lowers the priority. |
| PriorityRules.DownloadIsCritical | project2_service_desk.py:195-200 | "Cannot download the report" is CRITICAL, because the raw substring test finds "down" inside "download". |
| PriorityRules.UpperCaseKeywordIsCritical | project2_service_desk.py:193-200 | "Printer URGENT" is CRITICAL. Keywords match after lower-casing. |
| Lists.FirstMatch | project2_service_desk.py:270-275 | Returns the index of the first element satisfying the test, or None exactly when no element does. |
| Cache.LookupAfterPut | project2_service_desk.py:274 | After `setex(key, ttl, v)` at time `now`, reading `key` at a later time gives `v` strictly before `now + ttl` and a miss from then on. |
| Cache.LookupOtherKey | project2_service_desk.py:274 | Writing one key leaves the reads of every other key unchanged. |
| Cache.ResolutionCache.constructor | project2_service_desk.py:97 | The in-memory stand-in for the Redis client starts with an empty store. |
| Cache.ResolutionCache.Get | project2_service_desk.py:220 | Returns the stored value exactly when the key is present and unexpired. |
| Cache.ResolutionCache.SetEx | project2_service_desk.py:274 | The store afterwards is the old store with the key bound to the value and expiry `now + ttl`. |
| AutoResolve.CacheKeyInjective | project2_service_desk.py:219 | Two tickets share a cache key if and only if they have the same category and the same first 50 title characters. |
| AutoResolve.GenerateAiResolution | project2_service_desk.py:310-320 | Gives a resolution exactly when the AI call returned a reply whose lower-cased text holds none of "contact it", "admin required", "none". The resolution is the reply unchanged. |
| AutoResolve.NonethelessIsDeclined | project2_service_desk.py:313-314 | A reply beginning "Nonetheless" is declined, because it contains "none". |
| AutoResolve.AutoResolution | project2_service_desk.py:208-284 | The cache is either unchanged or gains exactly the returned resolution under the ticket's key with a 3600-second lifetime. No resolution means no write. A resolution comes from the cache, a knowledge-base entry, or, for LOW and MEDIUM only, the AI reply. |
| AutoResolve.CacheHitShortCircuits | project2_service_desk.py:218-223 | A usable cache hit is returned, and nothing is written. |
| AutoResolve.KbFirstMatchIsCached | project2_service_desk.py:268-275 | On a miss, the first knowledge-base entry with a keyword in the lower-cased title and description answers. Its text is cached under the key for an hour. |
| AutoResolve.AiFallback | project2_service_desk.py:277-284 | Without a hit or a knowledge-base match, the AI reply is returned and cached exactly when the ticket is LOW or MEDIUM and the reply is accepted and non-empty. Otherwise the result is None and the cache is unchanged. |
| AutoResolve.AiNotConsulted | project2_service_desk.py:277-279 | When there is a hit, a knowledge-base match, or an urgent priority, the AI outcome does not affect the result. |
| AutoResolve.ForgottenPasswordIsResolved | project2_service_desk.py:226-275 | "Forgot my password" / "locked out, need reset" against an empty cache is answered by PASSWORD_RESET and cached. |
| Assignment.BestUpTo | project2_service_desk.py:355-367 | Among the first n handlers, returns the eligible one of least ratio, earliest on ties. Returns None exactly when none of them is eligible. |
| Assignment.LeastLoadedUpTo | project2_service_desk.py:361-363 | Among the first n handlers, returns the first of minimal current load. |
| Assignment.Assign | project2_service_desk.py:322-367 | An eligible handler (skilled, below capacity) exists: the result is the eligible one of lowest load ratio, earliest on ties. Otherwise: the first least-loaded handler of the whole roster. None only for an empty roster. |
| Assignment.BestUnique | project2_service_desk.py:366-367 | The ratio-and-order rule singles out one handler. |
| Assignment.MinByLoad | project2_service_desk.py:363 | The loop finds the first handler of minimal load. |
| Assignment.HeadOfSortByRatio | project2_service_desk.py:366-367 | The head of the stable sort is a candidate whose ratio is at most every candidate's ratio and strictly below that of every earlier candidate. |
| Assignment.AssignTicket | project2_service_desk.py:322-367 | The collecting loop, sort head and fallback return exactly `Assign`'s choice. |
| Assignment.LowerRatioWins | project2_service_desk.py:355-367 | A handler at 3/12 beats one at 5/10, although both are skilled. |
| Assignment.ExhaustedSkillFallsBack | project2_service_desk.py:361-363 | With every skilled handler at capacity, the least-loaded handler of any skill is chosen. |
| Assignment.SourceRosterRouting | project2_service_desk.py:333-367 | With the source's roster, routing is as follows. HARDWARE goes to john. SOFTWARE and EMAIL go to jane. NETWORK goes to john, whose ratio 0.5 is below bob's 0.875. ACCESS goes to bob. OTHER falls back to jane, the least loaded. |
| Estimate.PredictResolutionTime | project2_service_desk.py:369-417 | The estimate is the floor of 1.5 times the base time in hours 9-17 inclusive and of 0.8 times it otherwise. The base time is 180 for pairs the table lacks. |
| Estimate.EstimatePositive | project2_service_desk.py:407-417 | With base times of at least two minutes, every estimate is positive. |
| Estimate.SourceTableWellFormed | project2_service_desk.py:380-405 | Every entry of the source's table is at least 2 and a multiple of 5. |
| Estimate.BusinessHoursSlower | project2_service_desk.py:410-417 | For a positive base time, a business-hours estimate exceeds an after-hours one. |
| Estimate.SourceEstimates | project2_service_desk.py:380-417 | NETWORK/HIGH gives 225 minutes at 17:00 and 120 at 18:00. OTHER/LOW (absent from the table) gives 270 at 10:00 and 144 at 08:00. |
| Intake.IntakeOutcome | project2_service_desk.py:494-540 | Every valid request leaves intake in one of two states. (1) RESOLVED with a non-empty resolution, auto-resolved and unassigned. (2) IN_PROGRESS with a roster member assigned and no resolution. The title, description, user email and creation time are the request's and the clock's. The category is the given one, and the priority is that of "title description". The estimate is `PredictResolutionTime` for that category and priority. An IN_PROGRESS ticket's assignee is `Assign`'s pick. A RESOLVED ticket's resolution is `AutoResolution`'s text. For LOW and MEDIUM tickets the cache afterwards is the one `AutoResolution` leaves, so no resolution means no cache write. HIGH and CRITICAL tickets are IN_PROGRESS and leave the cache as it was. A resolved ticket's cache change is at most the write of its resolution. |
| Intake.ResolvedIffAutoResolved | project2_service_desk.py:514-526 | A ticket is RESOLVED exactly when it is LOW or MEDIUM and auto-resolution returns non-empty text. |
| Intake.UnresolvedLeavesCache | project2_service_desk.py:514-526 | When every knowledge-base text is non-empty, a ticket left IN_PROGRESS leaves the cache exactly as it was. |
| Intake.UrgentTicketsSkipAutoResolution | project2_service_desk.py:514-517 | A HIGH or CRITICAL ticket's outcome is independent of the cache contents, the knowledge base and the AI outcome, and the cache is left unchanged. |
| Intake.OutageIsRouted | project2_service_desk.py:499-529 | "System completely down, URGENT" as a NETWORK ticket has the following outcome, whatever the cache and the AI hold. It is CRITICAL and IN_PROGRESS, it is assigned to john, it is estimated at 135 minutes at 10:00, and the cache is unchanged. |
| Intake.ServiceDesk.constructor | project2_service_desk.py:93-100 | The engine keeps its tables and its cache client. |
| Intake.ServiceDesk.AutoResolveTicket | project2_service_desk.py:208-284 | The cache lookup, knowledge-base loop and AI step return `AutoResolution`'s resolution and leave the client's store equal to `AutoResolution`'s store. |
| Intake.ServiceDesk.CreateTicket | project2_service_desk.py:494-540 | The ticket, the estimate and the new cache state equal `IntakeOutcome`. The ticket is RESOLVED or IN_PROGRESS as stated there. |
| Text.ReplaceAllAbsent | project1_cost_optimizer.py:161 | `str.replace` with a pattern that does not occur leaves the string unchanged. |
| Text.ReplaceAllOnce | project1_cost_optimizer.py:161 | When the first occurrence of the pattern is at index i and none starts at or after i+len(pat), `str.replace` gives `s[:i] + rep + s[i+len(pat):]`. |
| Rightsizing.Recommend | project1_cost_optimizer.py:149-164 | The generic smaller-family advice is given exactly when no size key occurs in the type. Otherwise the type has the first occurring key replaced, at every occurrence, by its smaller size. |
| Rightsizing.DoubleSizesNeverFire | project1_cost_optimizer.py:151-161 | The '2xlarge' and '4xlarge' entries are never chosen, because 'xlarge', tested first, occurs in them. |
| Rightsizing.TwoXlargeBecomesTwoLarge | project1_cost_optimizer.py:151-162 | m5.2xlarge is recommended as m5.2large. 'xlarge' is the first key found, and it occurs once, at index 4. |
| Rightsizing.CalculateRightsizingSavings | project1_cost_optimizer.py:166-183 | The nested loop with `break` totals, per instance, 30 times the saving of the first size key occurring in its type. |
| Rightsizing.SavingsAppend | project1_cost_optimizer.py:176-183 | The total over two lists of instances is the sum of their totals. |
| Rightsizing.SavingsNonNegative | project1_cost_optimizer.py:176-183 | With non-negative savings per size, the total is never negative. |
| Rightsizing.SourceInstanceSaving | project1_cost_optimizer.py:169-181 | With the source's table, an instance saves 1500 if its type contains 'large' and nothing otherwise. 'large' is tested first and occurs in every other key. |
| Rightsizing.SourceSavings | project1_cost_optimizer.py:169-183 | With the source's table, the total is 1500 times the number of instance types containing 'large'. |

## Left out

- Category classification (TF-IDF and naive Bayes, `classify_ticket`) is a trained model. The category is an input to the intake functions.
- The OpenAI call is an input, `AiOutcome`: an exception, or the reply's text. The prompt and the model parameters are not modelled.
- Redis connection errors are not modelled, nor is the byte decoding of cached values. The cache is an in-memory map, and the clock (`now`, in seconds) is a parameter.
- `datetime.now()` is a parameter: the creation time and the current hour.
- The random ticket id, the database models, FastAPI, pydantic response objects, background tasks and `async` scheduling are not modelled. The request validator is the predicate `ValidRequest`.
- `generate_analytics_dashboard`, `get_ticket`, `escalate_ticket` and the notification code are not modelled. They are outside the intake flow.
- `project3_deploy.py` is not part of this model.
- The rest of `project1_cost_optimizer.py` is not modelled: the boto3 calls, the CPU statistics and reporting. The rightsizing helpers take instance types as strings, and the CPU figure only appears in the recommendation's message text.
- Text.Lower: lower-cases ASCII letters only. Python's `str.lower` also folds other Unicode letters.
- AutoResolve.SourceKnowledgeBase: the resolution texts keep their content lines, including the blank line inside each text. They drop the indentation of the triple-quoted literals, the literal's leading empty line and its trailing indentation-only line.
- AutoResolve.GenerateAiResolution: the message printed when the AI call fails is not modelled. A failure just gives no resolution.
- Estimate.PredictResolutionTime: computes the floor exactly. Python multiplies floats, and the two agree for base times far below 2^50.
- Assignment.Assign: compares load ratios exactly by cross-multiplication. Python compares float quotients, which can round two different ratios to the same float only for loads and capacities beyond 2^26.
- Assignment.Assign: returns None for an empty roster, where Python's `min` raises. The source roster is never empty.
- Assignment.HeadOfSortByRatio: the list sort itself is not modelled. Only its head, the first element of minimal key under a stable sort, is computed.
- Rightsizing.Recommend: returns the recommended type or the generic advice, not the formatted message with the CPU percentage.
- Concrete scenarios in which a keyword is absent (for example "Forgot my password" being LOW) are not stated as lemmas. Only scenarios established by a keyword occurrence are.
