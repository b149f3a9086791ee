/** The enumerations of the service desk: ticket category, priority and status. */
module Tickets {

  datatype Category = HARDWARE | SOFTWARE | NETWORK | ACCESS | EMAIL | OTHER

  /** The string value of a category, as it appears inside a cache key. */
  function CategoryName(c: Category): string
  {
    match c
    case HARDWARE => "HARDWARE"
    case SOFTWARE => "SOFTWARE"
    case NETWORK => "NETWORK"
    case ACCESS => "ACCESS"
    case EMAIL => "EMAIL"
    case OTHER => "OTHER"
  }

  datatype Priority = LOW | MEDIUM | HIGH | CRITICAL

  /** Urgency order of the priorities: LOW < MEDIUM < HIGH < CRITICAL. */
  function Rank(p: Priority): nat
  {
    match p
    case LOW => 0
    case MEDIUM => 1
    case HIGH => 2
    case CRITICAL => 3
  }

  /** The priorities for which automatic resolution is attempted. */
  predicate AutoResolvable(p: Priority)
  {
    p == LOW || p == MEDIUM
  }

  datatype Status = NEW | IN_PROGRESS | RESOLVED | CLOSED | ESCALATED
}
