/** The keyword priority classifier `_determine_priority`: three ordered tiers
    of raw substring tests on the lower-cased ticket text. */
module PriorityRules {
  import opened Text
  import opened Tickets

  /** The keyword lists of the CRITICAL, HIGH and MEDIUM tiers. */
  datatype PriorityKeywords = PriorityKeywords(critical: seq<string>, high: seq<string>, medium: seq<string>)

  /** The lists the source hard-codes. */
  const SourceKeywords := PriorityKeywords(
    ["urgent", "critical", "emergency", "down", "crashed", "broken", "asap"],
    ["important", "quickly", "soon", "cannot work", "blocked"],
    ["issue", "problem", "error", "help"])

  /** The keywords that raise a ticket to priority `p`; LOW is what is left. */
  function TierKeywords(kw: PriorityKeywords, p: Priority): seq<string>
  {
    match p
    case CRITICAL => kw.critical
    case HIGH => kw.high
    case MEDIUM => kw.medium
    case LOW => []
  }

  /** The priority of a ticket text: the most urgent tier one of whose keywords
      occurs in the lower-cased text, LOW if there is none. One CRITICAL
      keyword outranks any number of lower-tier keywords. */
  function DeterminePriority(kw: PriorityKeywords, text: string): (p: Priority)
    ensures p != LOW ==> AnyOccurs(TierKeywords(kw, p), Lower(text))
    ensures forall q :: AnyOccurs(TierKeywords(kw, q), Lower(text)) ==> Rank(q) <= Rank(p)
  {
    var t := Lower(text);
    if AnyOccurs(kw.critical, t) then CRITICAL
    else if AnyOccurs(kw.high, t) then HIGH
    else if AnyOccurs(kw.medium, t) then MEDIUM
    else LOW
  }

  /** The classifier ignores letter case. */
  lemma CaseInsensitive(kw: PriorityKeywords, text: string)
    ensures DeterminePriority(kw, text) == DeterminePriority(kw, Lower(text))
  {
    LowerIdempotent(text);
  }

  /** Appending text (the description after the title) never lowers the priority. */
  lemma PriorityMonotone(kw: PriorityKeywords, a: string, b: string)
    ensures Rank(DeterminePriority(kw, a)) <= Rank(DeterminePriority(kw, a + b))
  {
    var p := DeterminePriority(kw, a);
    if p != LOW {
      var k :| 0 <= k < |TierKeywords(kw, p)| && Contains(Lower(a), TierKeywords(kw, p)[k]);
      LowerConcat(a, b);
      ContainsExtend(Lower(a), Lower(b), TierKeywords(kw, p)[k]);
      assert AnyOccurs(TierKeywords(kw, p), Lower(a + b));
    }
  }

  /** The substring test matches inside words: "download" contains "down",
      so a ticket about a download is CRITICAL. */
  lemma DownloadIsCritical()
    ensures DeterminePriority(SourceKeywords, "Cannot download the report") == CRITICAL
  {
    var t := Lower("Cannot download the report");
    assert t[7..11] == "down";
    assert OccursAt(t, SourceKeywords.critical[3], 7);
  }

  /** Upper-case keywords count: "URGENT" is found after lower-casing. */
  lemma UpperCaseKeywordIsCritical()
    ensures DeterminePriority(SourceKeywords, "Printer URGENT") == CRITICAL
  {
    var t := Lower("Printer URGENT");
    assert t[8..14] == "urgent";
    assert OccursAt(t, SourceKeywords.critical[0], 8);
  }
}
