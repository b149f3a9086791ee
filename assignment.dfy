/** `assign_ticket`: route a ticket to a skilled handler with spare capacity
    and the lowest load ratio, or, when nobody qualifies, to the handler with
    the lowest raw load. */
module Assignment {
  import opened Wrappers
  import opened Tickets

  /** One member of the team roster. */
  datatype Handler = Handler(id: string, categories: seq<Category>, maxTickets: nat, currentLoad: nat)

  /** The roster the source hard-codes, in its order. */
  const SourceRoster: seq<Handler> := [
    Handler("john.doe@company.com", [HARDWARE, NETWORK], 10, 5),
    Handler("jane.smith@company.com", [SOFTWARE, EMAIL], 12, 3),
    Handler("bob.wilson@company.com", [ACCESS, NETWORK], 8, 7)
  ]

  /** Skilled in the category and below capacity. */
  predicate Eligible(h: Handler, c: Category)
  {
    c in h.categories && h.currentLoad < h.maxTickets
  }

  predicate HasCandidate(roster: seq<Handler>, c: Category)
  {
    exists j :: 0 <= j < |roster| && Eligible(roster[j], c)
  }

  /** `a.currentLoad / a.maxTickets < b.currentLoad / b.maxTickets`, by cross-multiplication. */
  predicate RatioLess(a: Handler, b: Handler)
  {
    a.currentLoad * b.maxTickets < b.currentLoad * a.maxTickets
  }

  /** `a.currentLoad / a.maxTickets <= b.currentLoad / b.maxTickets`, by cross-multiplication. */
  predicate RatioAtMost(a: Handler, b: Handler)
  {
    a.currentLoad * b.maxTickets <= b.currentLoad * a.maxTickets
  }

  lemma MulMonotone(x: int, y: int, z: int)
    requires x <= y && z >= 0
    ensures x * z <= y * z
  {
  }

  lemma MulStrictMonotone(x: int, y: int, z: int)
    requires x < y && z > 0
    ensures x * z < y * z
  {
  }

  lemma MulCancel(x: int, y: int, z: int)
    requires z > 0
    ensures x * z <= y * z ==> x <= y
    ensures x * z < y * z ==> x < y
  {
  }

  /** The ratio order is transitive, strictly so when its first step is strict. */
  lemma RatioTransitive(a: Handler, b: Handler, c: Handler)
    requires a.maxTickets > 0 && b.maxTickets > 0 && c.maxTickets > 0
    requires RatioAtMost(a, b) && RatioAtMost(b, c)
    ensures RatioAtMost(a, c)
    ensures RatioLess(a, b) ==> RatioLess(a, c)
  {
    var al, am, bl, bm, cl, cm := a.currentLoad, a.maxTickets, b.currentLoad, b.maxTickets, c.currentLoad, c.maxTickets;
    MulMonotone(al * bm, bl * am, cm);
    MulMonotone(bl * cm, cl * bm, am);
    assert al * bm * cm == (al * cm) * bm;
    assert bl * am * cm == bl * cm * am;
    assert cl * bm * am == (cl * am) * bm;
    MulCancel(al * cm, cl * am, bm);
    if RatioLess(a, b) {
      MulStrictMonotone(al * bm, bl * am, cm);
      MulCancel(al * cm, cl * am, bm);
    }
  }

  /** Index `k` is the handler the sort picks among the first `n`: eligible,
      with a minimal ratio, and strictly better than every earlier eligible one
      (the sort is stable, so ties go to roster order). */
  predicate IsBestAmong(roster: seq<Handler>, c: Category, n: nat, k: nat)
    requires n <= |roster|
  {
    && k < n
    && Eligible(roster[k], c)
    && (forall j :: 0 <= j < n && Eligible(roster[j], c) ==> RatioAtMost(roster[k], roster[j]))
    && (forall j :: 0 <= j < k && Eligible(roster[j], c) ==> RatioLess(roster[k], roster[j]))
  }

  /** Index `k` is what `min` by `current_load` returns among the first `n`:
      a minimal load, strictly below every earlier one. */
  predicate IsLeastLoadedAmong(roster: seq<Handler>, n: nat, k: nat)
    requires n <= |roster|
  {
    && k < n
    && (forall j :: 0 <= j < n ==> roster[k].currentLoad <= roster[j].currentLoad)
    && (forall j :: 0 <= j < k ==> roster[k].currentLoad < roster[j].currentLoad)
  }

  /** An eligible handler with a strictly lower ratio than the best so far is
      the new best. */
  lemma NewBest(roster: seq<Handler>, c: Category, n: nat, k: nat)
    requires 0 < n <= |roster| && IsBestAmong(roster, c, n - 1, k)
    requires Eligible(roster[n - 1], c) && RatioLess(roster[n - 1], roster[k])
    ensures IsBestAmong(roster, c, n, n - 1)
  {
    forall j | 0 <= j < n - 1 && Eligible(roster[j], c)
      ensures RatioLess(roster[n - 1], roster[j])
    {
      RatioTransitive(roster[n - 1], roster[k], roster[j]);
    }
  }

  /** Index of the best eligible handler among the first `n`, None if none of
      them is eligible. */
  function BestUpTo(roster: seq<Handler>, c: Category, n: nat): (r: Option<nat>)
    requires n <= |roster|
    ensures r.Some? <==> exists j :: 0 <= j < n && Eligible(roster[j], c)
    ensures r.Some? ==> IsBestAmong(roster, c, n, r.value)
  {
    if n == 0 then None
    else
      var b := BestUpTo(roster, c, n - 1);
      if !Eligible(roster[n - 1], c) then b
      else if b.None? then Some(n - 1)
      else if RatioLess(roster[n - 1], roster[b.value]) then
        NewBest(roster, c, n, b.value);
        Some(n - 1)
      else b
  }

  /** Index of the least loaded handler among the first `n`, None if `n` is 0. */
  function LeastLoadedUpTo(roster: seq<Handler>, n: nat): (r: Option<nat>)
    requires n <= |roster|
    ensures r.Some? <==> n > 0
    ensures r.Some? ==> IsLeastLoadedAmong(roster, n, r.value)
  {
    if n == 0 then None
    else
      var b := LeastLoadedUpTo(roster, n - 1);
      if b.None? || roster[n - 1].currentLoad < roster[b.value].currentLoad then Some(n - 1) else b
  }

  /** The index of the handler `assign_ticket` returns; None only for an empty
      roster, where Python's `min` raises. */
  function Assign(roster: seq<Handler>, c: Category): (r: Option<nat>)
    ensures r.None? <==> |roster| == 0
    ensures HasCandidate(roster, c) ==> r.Some? && IsBestAmong(roster, c, |roster|, r.value)
    ensures !HasCandidate(roster, c) && r.Some? ==> IsLeastLoadedAmong(roster, |roster|, r.value)
  {
    var best := BestUpTo(roster, c, |roster|);
    if best.Some? then best else LeastLoadedUpTo(roster, |roster|)
  }

  /** The tie-breaking rules leave no choice: the best handler is unique. */
  lemma BestUnique(roster: seq<Handler>, c: Category, k1: nat, k2: nat)
    requires IsBestAmong(roster, c, |roster|, k1) && IsBestAmong(roster, c, |roster|, k2)
    ensures k1 == k2
  {
    var a, b := roster[k1], roster[k2];
    assert RatioAtMost(a, b) && RatioAtMost(b, a);
    assert k1 < k2 ==> RatioLess(b, a);
    assert k2 < k1 ==> RatioLess(a, b);
    assert a.currentLoad * b.maxTickets == b.currentLoad * a.maxTickets;
  }

  lemma LeastLoadedUnique(roster: seq<Handler>, k1: nat, k2: nat)
    requires IsLeastLoadedAmong(roster, |roster|, k1) && IsLeastLoadedAmong(roster, |roster|, k2)
    ensures k1 == k2
  {
    assert roster[k1].currentLoad == roster[k2].currentLoad;
  }

  /** Python's `min(roster, key=current_load)`: the first handler of minimal load. */
  method MinByLoad(roster: seq<Handler>) returns (least: nat)
    requires |roster| > 0
    ensures IsLeastLoadedAmong(roster, |roster|, least)
  {
    least := 0;
    for i := 1 to |roster|
      invariant IsLeastLoadedAmong(roster, i, least)
    {
      if roster[i].currentLoad < roster[least].currentLoad {
        least := i;
      }
    }
  }

  /** `suitable.sort(key=ratio)` followed by `suitable[0]`: the sort is stable,
      so its head is the first element of minimal ratio. `suitable` holds
      roster indices in increasing order. */
  method HeadOfSortByRatio(roster: seq<Handler>, suitable: seq<nat>) returns (best: nat)
    requires |suitable| > 0
    requires forall q :: 0 <= q < |suitable| ==> suitable[q] < |roster| && roster[suitable[q]].maxTickets > 0
    requires forall q, q' :: 0 <= q < q' < |suitable| ==> suitable[q] < suitable[q']
    ensures best in suitable
    ensures forall q :: 0 <= q < |suitable| ==> RatioAtMost(roster[best], roster[suitable[q]])
    ensures forall q :: 0 <= q < |suitable| && suitable[q] < best ==> RatioLess(roster[best], roster[suitable[q]])
  {
    best := suitable[0];
    var pos := 0;
    for m := 1 to |suitable|
      invariant pos < m && suitable[pos] == best
      invariant forall q :: 0 <= q < m ==> RatioAtMost(roster[best], roster[suitable[q]])
      invariant forall q :: 0 <= q < m && suitable[q] < best ==> RatioLess(roster[best], roster[suitable[q]])
    {
      var next := roster[suitable[m]];
      if RatioLess(next, roster[best]) {
        forall q | 0 <= q < m
          ensures RatioLess(next, roster[suitable[q]])
        {
          RatioTransitive(next, roster[best], roster[suitable[q]]);
        }
        best, pos := suitable[m], m;
      }
    }
  }

  /** `assign_ticket` as the source runs it: collect the eligible handlers in
      roster order, take the head of their sort by ratio, or fall back to `min`
      by load over the whole roster. Returns the roster index of the handler. */
  method AssignTicket(roster: seq<Handler>, c: Category) returns (pick: Option<nat>)
    ensures pick == Assign(roster, c)
  {
    var suitable: seq<nat> := [];
    for i := 0 to |roster|
      invariant forall q :: 0 <= q < |suitable| ==> suitable[q] < i && Eligible(roster[suitable[q]], c)
      invariant forall q, q' :: 0 <= q < q' < |suitable| ==> suitable[q] < suitable[q']
      invariant forall j :: 0 <= j < i && Eligible(roster[j], c) ==> j in suitable
    {
      if Eligible(roster[i], c) {
        suitable := suitable + [i];
      }
    }

    if |suitable| == 0 {
      if |roster| == 0 {
        return None;
      }
      var least := MinByLoad(roster);
      LeastLoadedUnique(roster, least, Assign(roster, c).value);
      return Some(least);
    }

    var best := HeadOfSortByRatio(roster, suitable);
    assert IsBestAmong(roster, c, |roster|, best) by {
      forall j | 0 <= j < |roster| && Eligible(roster[j], c)
        ensures RatioAtMost(roster[best], roster[j])
        ensures j < best ==> RatioLess(roster[best], roster[j])
      {
        var q :| 0 <= q < |suitable| && suitable[q] == j;
      }
    }
    BestUnique(roster, c, best, Assign(roster, c).value);
    pick := Some(best);
  }

  /** Handler A at 5/10 and handler B at 3/12, both skilled: B has the lower
      ratio and gets the ticket. */
  lemma LowerRatioWins()
    ensures Assign([Handler("a", [NETWORK], 10, 5), Handler("b", [NETWORK], 12, 3)], NETWORK) == Some(1)
  {
    var roster := [Handler("a", [NETWORK], 10, 5), Handler("b", [NETWORK], 12, 3)];
    assert Eligible(roster[1], NETWORK);
  }

  /** With every skilled handler at capacity, the least loaded handler gets the
      ticket even without the skill. */
  lemma ExhaustedSkillFallsBack()
    ensures Assign([Handler("a", [ACCESS], 8, 8), Handler("b", [EMAIL], 12, 3)], ACCESS) == Some(1)
  {
  }

  /** The handler each category goes to with the source's roster. */
  function SourceRoute(c: Category): nat
  {
    match c
    case HARDWARE => 0
    case NETWORK => 0
    case SOFTWARE => 1
    case EMAIL => 1
    case ACCESS => 2
    case OTHER => 1
  }

  /** Routing with the source's roster: HARDWARE and NETWORK to john (5/10
      beats bob's 7/8), SOFTWARE and EMAIL to jane, ACCESS to bob, and OTHER,
      which nobody handles, to jane, the least loaded. */
  lemma SourceRosterRouting(c: Category)
    ensures Assign(SourceRoster, c) == Some(SourceRoute(c))
  {
    var r := SourceRoster;
    assert BestUpTo(r, c, 1) == if c in r[0].categories then Some(0) else None;
    assert BestUpTo(r, c, 2) == if c in r[0].categories then Some(0) else if c in r[1].categories then Some(1) else None;
    assert BestUpTo(r, c, 3) == if c in r[0].categories then Some(0) else if c in r[1].categories then Some(1)
                                else if c in r[2].categories then Some(2) else None;
    if c == OTHER {
      assert LeastLoadedUpTo(r, 2) == Some(1);
      assert LeastLoadedUpTo(r, 3) == Some(1);
    }
  }
}
