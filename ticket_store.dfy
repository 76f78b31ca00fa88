/**
 * The resource functions of data_resources.py: fetching, listing, creating
 * and updating tickets in the ticket collection. The document store is an
 * in-memory map from identifier to ticket together with a counter that
 * issues fresh identifiers; `datetime.now()` is the parameter `now`.
 */
module Resources {
  import opened Wrappers
  import opened Text
  import opened Models

  /** A ticket's identifier, issued by the store when the ticket is first saved. */
  type Id = nat

  /** `get_ticket`'s exception: "{id} is not a valid ticket ID". */
  datatype LookupError = NotFound(id: Id)

  /** A value in the keyword arguments `get_ticket_list` builds. */
  datatype Operand = StatusList(values: seq<string>) | Instant(time: Time)

  /** The keywords `get_ticket_list` can pass to `Ticket.objects(...)`, each a field and an operator. */
  datatype Keyword =
    | StatusIn        // status__in
    | CreateTimeGte   // create_time__gte
    | CreateTimeLte   // create_time__lte
    | CloseTimeGte    // close_time__gte
    | CloseTimeLte    // close_time__lte

  /** The keyword arguments of the query. */
  type Query = map<Keyword, Operand>

  /**
   * How the document store evaluates such a query on one ticket: every
   * condition present must hold, and a comparison on an absent field
   * (a ticket without a close time) does not hold.
   */
  predicate Matches(t: Ticket, query: Query) {
    && (StatusIn in query ==>
          query[StatusIn].StatusList? && t.status in query[StatusIn].values)
    && (CreateTimeGte in query ==>
          query[CreateTimeGte].Instant? && t.createTime >= query[CreateTimeGte].time)
    && (CreateTimeLte in query ==>
          query[CreateTimeLte].Instant? && t.createTime <= query[CreateTimeLte].time)
    && (CloseTimeGte in query ==>
          query[CloseTimeGte].Instant? && t.closeTime.Some?
          && t.closeTime.value >= query[CloseTimeGte].time)
    && (CloseTimeLte in query ==>
          query[CloseTimeLte].Instant? && t.closeTime.Some?
          && t.closeTime.value <= query[CloseTimeLte].time)
  }

  /** `x` lies within the inclusive bounds that are given; an absent `x` lies within none. */
  predicate InBounds(x: Option<Time>, lower: Option<Time>, upper: Option<Time>) {
    && (lower.Some? ==> x.Some? && lower.value <= x.value)
    && (upper.Some? ==> x.Some? && x.value <= upper.value)
  }

  /**
   * The listing contract: a ticket is listed when it satisfies the AND of the
   * supplied conditions; no status list, or an empty one, means every status.
   */
  predicate Listed(t: Ticket, statuses: Option<seq<string>>,
                   lowerCreate: Option<Time>, upperCreate: Option<Time>,
                   lowerClose: Option<Time>, upperClose: Option<Time>)
  {
    && (statuses.None? || statuses.value == [] || t.status in statuses.value)
    && InBounds(Some(t.createTime), lowerCreate, upperCreate)
    && InBounds(t.closeTime, lowerClose, upperClose)
  }

  /** `query` holds one keyword per supplied argument, with that argument as its operand. */
  predicate Encodes(query: Query, statuses: Option<seq<string>>,
                    lowerCreate: Option<Time>, upperCreate: Option<Time>,
                    lowerClose: Option<Time>, upperClose: Option<Time>)
  {
    && (StatusIn in query <==> statuses.Some? && statuses.value != [])
    && (StatusIn in query ==> query[StatusIn] == StatusList(statuses.value))
    && (CreateTimeGte in query <==> lowerCreate.Some?)
    && (CreateTimeGte in query ==> query[CreateTimeGte] == Instant(lowerCreate.value))
    && (CreateTimeLte in query <==> upperCreate.Some?)
    && (CreateTimeLte in query ==> query[CreateTimeLte] == Instant(upperCreate.value))
    && (CloseTimeGte in query <==> lowerClose.Some?)
    && (CloseTimeGte in query ==> query[CloseTimeGte] == Instant(lowerClose.value))
    && (CloseTimeLte in query <==> upperClose.Some?)
    && (CloseTimeLte in query ==> query[CloseTimeLte] == Instant(upperClose.value))
  }

  /** The store's evaluation of a query that encodes the arguments agrees with the listing contract. */
  lemma MatchesIffListed(t: Ticket, query: Query, statuses: Option<seq<string>>,
                         lowerCreate: Option<Time>, upperCreate: Option<Time>,
                         lowerClose: Option<Time>, upperClose: Option<Time>)
    requires Encodes(query, statuses, lowerCreate, upperCreate, lowerClose, upperClose)
    ensures Matches(t, query) <==> Listed(t, statuses, lowerCreate, upperCreate, lowerClose, upperClose)
  {
  }

  /** The stored tickets the listing contract selects, under their identifiers. */
  function Listing(tickets: map<Id, Ticket>, statuses: Option<seq<string>>,
                   lowerCreate: Option<Time>, upperCreate: Option<Time>,
                   lowerClose: Option<Time>, upperClose: Option<Time>): map<Id, Ticket>
  {
    map id | id in tickets && Listed(tickets[id], statuses, lowerCreate, upperCreate, lowerClose, upperClose)
      :: tickets[id]
  }

  /** Running a query that encodes the arguments against the store yields their listing. */
  lemma QueryResultIsListing(tickets: map<Id, Ticket>, query: Query, statuses: Option<seq<string>>,
                             lowerCreate: Option<Time>, upperCreate: Option<Time>,
                             lowerClose: Option<Time>, upperClose: Option<Time>)
    requires Encodes(query, statuses, lowerCreate, upperCreate, lowerClose, upperClose)
    ensures (map id | id in tickets && Matches(tickets[id], query) :: tickets[id])
         == Listing(tickets, statuses, lowerCreate, upperCreate, lowerClose, upperClose)
  {
    forall id | id in tickets
      ensures Matches(tickets[id], query)
              <==> Listed(tickets[id], statuses, lowerCreate, upperCreate, lowerClose, upperClose)
    {
      MatchesIffListed(tickets[id], query, statuses, lowerCreate, upperCreate, lowerClose, upperClose);
    }
  }

  /** Without any argument every stored ticket is listed. */
  lemma ListingWithoutArguments(tickets: map<Id, Ticket>)
    ensures Listing(tickets, None, None, None, None, None) == tickets
  {
  }

  /** An empty status list constrains nothing, just like an absent one. */
  lemma ListingEmptyStatusList(tickets: map<Id, Ticket>,
                               lowerCreate: Option<Time>, upperCreate: Option<Time>,
                               lowerClose: Option<Time>, upperClose: Option<Time>)
    ensures Listing(tickets, Some([]), lowerCreate, upperCreate, lowerClose, upperClose)
         == Listing(tickets, None, lowerCreate, upperCreate, lowerClose, upperClose)
  {
  }

  /** Listing by one status gives exactly the tickets in that status. */
  lemma ListingByOneStatus(tickets: map<Id, Ticket>, status: string, id: Id)
    ensures id in Listing(tickets, Some([status]), None, None, None, None)
            <==> id in tickets && tickets[id].status == status
  {
  }

  /** Several statuses select the union of what each selects (membership, not intersection). */
  lemma ListingStatusUnion(tickets: map<Id, Ticket>, a: seq<string>, b: seq<string>,
                           lowerCreate: Option<Time>, upperCreate: Option<Time>,
                           lowerClose: Option<Time>, upperClose: Option<Time>)
    requires a != [] && b != []
    ensures Listing(tickets, Some(a + b), lowerCreate, upperCreate, lowerClose, upperClose)
         == Listing(tickets, Some(a), lowerCreate, upperCreate, lowerClose, upperClose)
          + Listing(tickets, Some(b), lowerCreate, upperCreate, lowerClose, upperClose)
  {
  }

  /**
   * With every saved status valid, listing by all four status values is
   * listing without a status list: no status list is the same as all of them.
   */
  lemma ListingAllStatuses(tickets: map<Id, Ticket>,
                           lowerCreate: Option<Time>, upperCreate: Option<Time>,
                           lowerClose: Option<Time>, upperClose: Option<Time>)
    requires StatusValues(tickets)
    ensures Listing(tickets, Some([Backlog.Value(), Progress.Value(), Review.Value(), Closed.Value()]),
                    lowerCreate, upperCreate, lowerClose, upperClose)
         == Listing(tickets, None, lowerCreate, upperCreate, lowerClose, upperClose)
  {
  }

  /** A request argument that is present and not blank after stripping. */
  predicate Supplied(arg: Option<string>) {
    arg.Some? && Strip(arg.value) != []
  }

  /** What `update_ticket` makes of the fetched ticket `before`, field by field. */
  predicate UpdatedAs(before: Ticket, after: Ticket,
                      assignee: Option<string>, status: Option<string>,
                      commenter: Option<string>, comment: Option<string>, now: Time)
  {
    && after.assignee == (if Supplied(assignee) then Strip(assignee.value) else before.assignee)
    && after.status == (if status.Some? then status.value else before.status)
    && after.closeTime == (if status.None? then before.closeTime
                           else if status.value == Closed.Value() then Some(now)
                           else None)
    && after.comments == before.comments
                         + (if Supplied(commenter) && Supplied(comment)
                            then [Comment(Strip(commenter.value), Strip(comment.value))]
                            else [])
    && after.title == before.title && after.text == before.text
    && after.creator == before.creator
    && after.createTime == before.createTime && after.deleteTime == before.deleteTime
  }

  /**
   * What every ticket saved through these operations satisfies: it has a close
   * time only when it is closed, it has no delete time, and each comment has a
   * stripped, non-blank commenter and text.
   */
  predicate WellFormed(t: Ticket) {
    && (t.closeTime.Some? ==> t.status == Closed.Value())
    && t.deleteTime.None?
    && forall c | c in t.comments ::
         c.commenter != [] && Trimmed(c.commenter) && c.text != [] && Trimmed(c.text)
  }

  /** An update keeps a ticket well formed. */
  lemma UpdatePreservesWellFormed(before: Ticket, after: Ticket,
                                  assignee: Option<string>, status: Option<string>,
                                  commenter: Option<string>, comment: Option<string>, now: Time)
    requires WellFormed(before)
    requires UpdatedAs(before, after, assignee, status, commenter, comment, now)
    ensures WellFormed(after)
  {
  }

  /** Identifiers already issued are below `nextId`, and every saved ticket is well formed. */
  predicate Consistent(tickets: map<Id, Ticket>, nextId: Id) {
    && (forall id | id in tickets :: id < nextId)
    && (forall id | id in tickets :: WellFormed(tickets[id]))
  }

  /** Every saved status is the value of a `TicketStatus` member. */
  predicate StatusValues(tickets: map<Id, Ticket>) {
    forall id | id in tickets :: IsStatusValue(tickets[id].status)
  }

  /** Saving a well-formed ticket under an issued identifier keeps the collection consistent. */
  lemma SaveKeepsConsistent(tickets: map<Id, Ticket>, nextId: Id, id: Id, t: Ticket)
    requires Consistent(tickets, nextId) && id < nextId && WellFormed(t)
    ensures Consistent(tickets[id := t], nextId)
  {
  }

  /** Saving a ticket whose status is a member's value keeps every saved status valid. */
  lemma SaveKeepsStatusValues(tickets: map<Id, Ticket>, id: Id, t: Ticket)
    requires StatusValues(tickets) && IsStatusValue(t.status)
    ensures StatusValues(tickets[id := t])
  {
  }

  /** The ticket collection. */
  class TicketStore {
    /** The saved tickets, by identifier. */
    var tickets: map<Id, Ticket>
    /** The identifier the next saved ticket receives. */
    var nextId: Id

    /** The object invariant. */
    ghost predicate Valid()
      reads this
    {
      Consistent(tickets, nextId)
    }

    /** Every saved status is valid: what callers that parse statuses first obtain. */
    ghost predicate StatusesValid()
      reads this
    {
      StatusValues(tickets)
    }

    /** An empty collection. */
    constructor ()
      ensures Valid() && StatusesValid()
      ensures tickets == map[]
    {
      tickets := map[];
      nextId := 0;
    }

    /** `get_ticket`: the ticket saved under `id`, or `NotFound` when there is none. */
    method GetTicket(id: Id) returns (r: Result<Ticket, LookupError>)
      ensures r.Ok? <==> id in tickets
      ensures r.Ok? ==> r.value == tickets[id]
      ensures r.Err? ==> r.error == NotFound(id)
    {
      if id in tickets {
        r := Ok(tickets[id]);
      } else {
        r := Err(NotFound(id));
      }
    }

    /**
     * `get_ticket_list`: builds the query keyword by keyword, one per supplied
     * argument, and returns the tickets the store matches against it; these
     * are exactly the tickets the listing contract selects.
     */
    method GetTicketList(statuses: Option<seq<string>>,
                         lowerCreate: Option<Time>, upperCreate: Option<Time>,
                         lowerClose: Option<Time>, upperClose: Option<Time>)
      returns (result: map<Id, Ticket>)
      ensures result == Listing(tickets, statuses, lowerCreate, upperCreate, lowerClose, upperClose)
    {
      var query: Query := map[];
      if statuses.Some? && statuses.value != [] {
        query := query[StatusIn := StatusList(statuses.value)];
      }
      if lowerCreate.Some? {
        query := query[CreateTimeGte := Instant(lowerCreate.value)];
      }
      if upperCreate.Some? {
        query := query[CreateTimeLte := Instant(upperCreate.value)];
      }
      if lowerClose.Some? {
        query := query[CloseTimeGte := Instant(lowerClose.value)];
      }
      if upperClose.Some? {
        query := query[CloseTimeLte := Instant(upperClose.value)];
      }
      assert Encodes(query, statuses, lowerCreate, upperCreate, lowerClose, upperClose);
      result := map id | id in tickets && Matches(tickets[id], query) :: tickets[id];
      QueryResultIsListing(tickets, query, statuses, lowerCreate, upperCreate, lowerClose, upperClose);
    }

    /**
     * `create_ticket`: saves a new ticket under a fresh identifier, stamped
     * with `now` as its creation time, with no close time (whatever its
     * status), no delete time and no comments; no other ticket changes.
     */
    method CreateTicket(title: string, text: string, creator: string, assignee: string,
                        status: string, now: Time)
      returns (id: Id, ticket: Ticket)
      requires Valid()
      modifies this
      ensures Valid()
      ensures id !in old(tickets) && tickets == old(tickets)[id := ticket]
      ensures ticket == Ticket(title, status, text, now, None, None, creator, assignee, [])
      ensures old(StatusesValid()) && IsStatusValue(status) ==> StatusesValid()
    {
      ticket := Ticket(title := title, status := status, text := text,
                       createTime := now, closeTime := None, deleteTime := None,
                       creator := creator, assignee := assignee, comments := []);
      id := nextId;
      nextId := nextId + 1;
      tickets := tickets[id := ticket];
    }

    /**
     * `update_ticket`: fetches the ticket, changes its assignee, its status
     * (with its close time) and its comments one at a time as `UpdatedAs`
     * says, and saves it back; an unknown identifier fails with nothing changed.
     */
    method UpdateTicket(id: Id, assignee: Option<string>, status: Option<string>,
                        commenter: Option<string>, comment: Option<string>, now: Time)
      returns (r: Result<Ticket, LookupError>)
      requires Valid()
      modifies this
      ensures Valid() && nextId == old(nextId)
      ensures id !in old(tickets) ==> r == Err(NotFound(id)) && tickets == old(tickets)
      ensures id in old(tickets) ==> r.Ok? && tickets == old(tickets)[id := r.value]
      ensures r.Ok? ==> UpdatedAs(old(tickets)[id], r.value, assignee, status, commenter, comment, now)
      ensures old(StatusesValid()) && (status.Some? ==> IsStatusValue(status.value)) ==> StatusesValid()
    {
      var fetched := GetTicket(id);
      if fetched.Err? {
        return Err(fetched.error);
      }
      var ticket := fetched.value;
      ghost var before := ticket;

      if Supplied(assignee) {
        ticket := ticket.(assignee := Strip(assignee.value));
      }

      if status.Some? {
        if status.value == Closed.Value() {
          ticket := ticket.(closeTime := Some(now));
        } else {
          ticket := ticket.(closeTime := None);
        }
        ticket := ticket.(status := status.value);
      }

      if Supplied(commenter) && Supplied(comment) {
        ticket := ticket.(comments := ticket.comments
                                      + [Comment(commenter := Strip(commenter.value),
                                                 text := Strip(comment.value))]);
      }

      assert UpdatedAs(before, ticket, assignee, status, commenter, comment, now);
      UpdatePreservesWellFormed(before, ticket, assignee, status, commenter, comment, now);
      SaveKeepsConsistent(tickets, nextId, id, ticket);
      if StatusValues(tickets) && (status.Some? ==> IsStatusValue(status.value)) {
        SaveKeepsStatusValues(tickets, id, ticket);
      }
      tickets := tickets[id := ticket];
      r := Ok(ticket);
    }
  }
}
