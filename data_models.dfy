/**
 * The records of the ticket collection: the `TicketStatus` enumeration, the
 * embedded `Comment` and the `Ticket` document (data_models.py).
 */
module Models {
  import opened Wrappers
  import opened Text

  /** A naive datetime, as an instant on an ordered time line. */
  type Time = int

  /** The four statuses a ticket can be in; `Value` is the enumeration member's string value. */
  datatype TicketStatus = Backlog | Progress | Review | Closed {
    function Value(): string {
      match this
      case Backlog => "backlog"
      case Progress => "progress"
      case Review => "review"
      case Closed => "closed"
    }
  }

  /** Python's `TicketStatus(value)`: the member whose value is `value`, or `None` where Python raises. */
  function StatusOf(value: string): (r: Option<TicketStatus>)
    ensures r.Some? <==> value in {"backlog", "progress", "review", "closed"}
    ensures r.Some? ==> r.value.Value() == value
  {
    if value == "backlog" then Some(Backlog)
    else if value == "progress" then Some(Progress)
    else if value == "review" then Some(Review)
    else if value == "closed" then Some(Closed)
    else None
  }

  /** A string that is the value of some `TicketStatus` member. */
  predicate IsStatusValue(value: string) {
    StatusOf(value).Some?
  }

  /** The enumeration round-trips through its values, and distinct members have distinct values. */
  lemma StatusValueRoundTrip(s: TicketStatus, value: string)
    ensures StatusOf(s.Value()) == Some(s)
    ensures StatusOf(value) == Some(s) <==> s.Value() == value
  {
  }

  /**
   * Every member's value is already stripped and lower-case, so the
   * normalisation `parse_status` applies leaves it as it is.
   */
  lemma StatusValueNormalised(s: TicketStatus)
    ensures Strip(s.Value()) == s.Value()
    ensures Lower(s.Value()) == s.Value()
  {
    LowerWordNormalised(s.Value());
  }

  /** An embedded comment: who wrote it and what it says; it has no identity of its own. */
  datatype Comment = Comment(commenter: string, text: string)

  /**
   * A ticket document. The status is stored as a plain string, not as a
   * `TicketStatus`; `closeTime` and `deleteTime` are the two optional fields,
   * and comments keep the order in which they were added.
   */
  datatype Ticket = Ticket(
    title: string,
    status: string,
    text: string,
    createTime: Time,
    closeTime: Option<Time>,
    deleteTime: Option<Time>,
    creator: string,
    assignee: string,
    comments: seq<Comment>
  )
}
