/**
 * The repository's own test scenarios, replayed against the model: what a
 * client of `TicketStore` can conclude from the operations' contracts alone.
 */
module Scenarios {
  import opened Wrappers
  import opened Models
  import opened Resources

  /** A ticket that was created and is then fetched by its identifier comes back unchanged. */
  method CreatedTicketIsFetched(title: string, text: string, creator: string, assignee: string,
                                status: string, now: Time)
    returns (created: Ticket, fetched: Result<Ticket, LookupError>)
    ensures fetched == Ok(created)
    ensures created.createTime == now && created.closeTime.None?
  {
    var store := new TicketStore();
    var id;
    id, created := store.CreateTicket(title, text, creator, assignee, status, now);
    fetched := store.GetTicket(id);
  }

  /**
   * `tickets` holds exactly the tickets `created`, under the distinct
   * identifiers `ids`, the `k`-th ticket under the `k`-th identifier.
   */
  ghost predicate SavedInOrder(tickets: map<Id, Ticket>, ids: seq<Id>, created: seq<Ticket>) {
    && |ids| == |created|
    && (forall k, m :: 0 <= k < m < |ids| ==> ids[k] != ids[m])
    && tickets.Keys == (set k | 0 <= k < |ids| :: ids[k])
    && (forall k :: 0 <= k < |ids| ==> ids[k] in tickets && tickets[ids[k]] == created[k])
  }

  /** Saving one more ticket under an unused identifier extends the order by it. */
  lemma SaveInOrder(tickets: map<Id, Ticket>, ids: seq<Id>, created: seq<Ticket>, id: Id, t: Ticket)
    requires SavedInOrder(tickets, ids, created) && id !in tickets
    ensures SavedInOrder(tickets[id := t], ids + [id], created + [t])
  {
    var after := ids + [id];
    var grown := set k | 0 <= k < |after| :: after[k];
    var earlier := set k | 0 <= k < |ids| :: ids[k];
    forall x | x in grown ensures x in earlier + {id} {
      var k :| 0 <= k < |after| && after[k] == x;
      if k < |ids| {
        assert ids[k] == x;
      }
    }
    forall x | x in earlier ensures x in grown {
      var k :| 0 <= k < |ids| && ids[k] == x;
      assert after[k] == x;
    }
    assert after[|ids|] == id;
    assert tickets[id := t].Keys == grown;
  }

  /** The ticket `create_ticket` makes from these fields, in progress and not yet closed. */
  predicate CreatedInProgress(t: Ticket, title: string, text: string, creator: string,
                              assignee: string, now: Time)
  {
    t == Ticket(title, Progress.Value(), text, now, None, None, creator, assignee, [])
  }

  /**
   * Tickets created one after another in a fresh store, all in progress, are
   * listed, every one of them and nothing else, when the listing is asked for
   * without arguments. Ticket `k` has the `k`-th title, text, creator,
   * assignee and creation time.
   */
  method ViewAllTickets(titles: seq<string>, texts: seq<string>, creators: seq<string>,
                        assignees: seq<string>, nows: seq<Time>)
    returns (ids: seq<Id>, created: seq<Ticket>, listed: map<Id, Ticket>)
    requires |texts| == |creators| == |assignees| == |nows| == |titles|
    ensures |created| == |titles|
    ensures SavedInOrder(listed, ids, created)
    ensures forall k :: 0 <= k < |created| ==>
              CreatedInProgress(created[k], titles[k], texts[k], creators[k], assignees[k], nows[k])
  {
    var store := new TicketStore();
    ids, created := [], [];
    for i := 0 to |titles|
      invariant store.Valid()
      invariant |created| == i
      invariant SavedInOrder(store.tickets, ids, created)
      invariant forall k :: 0 <= k < i ==>
                  CreatedInProgress(created[k], titles[k], texts[k], creators[k], assignees[k], nows[k])
    {
      ghost var before := store.tickets;
      var id, ticket := store.CreateTicket(titles[i], texts[i], creators[i], assignees[i],
                                           Progress.Value(), nows[i]);
      SaveInOrder(before, ids, created, id, ticket);
      ids, created := ids + [id], created + [ticket];
    }
    listed := store.GetTicketList(None, None, None, None, None);
    ListingWithoutArguments(store.tickets);
  }

  /** The members of `TicketStatus` in declaration order. */
  const AllStatuses: seq<TicketStatus> := [Backlog, Progress, Review, Closed]

  /**
   * With `id` the only saved ticket, listing by each status in turn finds that
   * ticket under its own status and nothing under any other.
   */
  method ListEachStatus(store: TicketStore, id: Id, status: TicketStatus)
    returns (listings: seq<map<Id, Ticket>>)
    requires store.tickets.Keys == {id} && store.tickets[id].status == status.Value()
    ensures |listings| == |AllStatuses|
    ensures forall k :: 0 <= k < |AllStatuses| ==>
              listings[k] == if AllStatuses[k] == status then store.tickets else map[]
  {
    listings := [];
    for k := 0 to |AllStatuses|
      invariant |listings| == k
      invariant forall m :: 0 <= m < k ==>
                  listings[m] == if AllStatuses[m] == status then store.tickets else map[]
    {
      var listed := store.GetTicketList(Some([AllStatuses[k].Value()]), None, None, None, None);
      StatusValueRoundTrip(AllStatuses[k], status.Value());
      assert listed == if AllStatuses[k] == status then store.tickets else map[];
      listings := listings + [listed];
    }
  }

  /**
   * What the test checks after moving ticket `id` to `status`: the moved ticket
   * has that status and a close time exactly when it is closed, and listing by
   * each status finds it under its own status and nothing under any other.
   */
  predicate MoveChecked(id: Id, status: TicketStatus, now: Time,
                        moved: Ticket, listed: seq<map<Id, Ticket>>)
  {
    && moved.status == status.Value()
    && moved.closeTime == (if status == Closed then Some(now) else None)
    && |listed| == |AllStatuses|
    && forall m :: 0 <= m < |AllStatuses| ==>
         listed[m] == if AllStatuses[m] == status then map[id := moved] else map[]
  }

  /**
   * A ticket created in progress is moved through every status in turn.
   * `moves[k]` is the ticket after the move to `AllStatuses[k]` and
   * `listings[k]` the listings by each status taken right after that move;
   * every move passes the test's checks. Each move reads the clock afresh:
   * `nows[k]` is the time of the move to `AllStatuses[k]`.
   */
  method TicketUpdates(title: string, text: string, creator: string, assignee: string,
                       created: Time, nows: seq<Time>)
    returns (id: Id, moves: seq<Ticket>, listings: seq<seq<map<Id, Ticket>>>)
    requires |nows| == |AllStatuses|
    ensures |moves| == |listings| == |AllStatuses|
    ensures forall k :: 0 <= k < |AllStatuses| ==>
              MoveChecked(id, AllStatuses[k], nows[k], moves[k], listings[k])
  {
    var store := new TicketStore();
    var ticket;
    id, ticket := store.CreateTicket(title, text, creator, assignee, Progress.Value(), created);
    moves, listings := [], [];
    var i := 0;
    while i < |AllStatuses|
      invariant 0 <= i <= |AllStatuses|
      invariant |moves| == |listings| == i
      invariant store.Valid() && store.tickets.Keys == {id}
      invariant forall k :: 0 <= k < i ==>
                  MoveChecked(id, AllStatuses[k], nows[k], moves[k], listings[k])
    {
      var status := AllStatuses[i];
      var updated := store.UpdateTicket(id, None, Some(status.Value()), None, None, nows[i]);
      var moved := updated.value;
      assert store.tickets == map[id := moved];
      var listed := ListEachStatus(store, id, status);
      assert MoveChecked(id, status, nows[i], moved, listed);
      moves, listings := moves + [moved], listings + [listed];
      i := i + 1;
    }
  }
}
