# Ticket tracker core, modelled in Dafny

This project models the ticket lifecycle of a small ticket-tracking web service:
the request-field parsers (`parse_status`, `parse_title`, `parse_datetime`), the
ticket collection with its four operations (`get_ticket`, `get_ticket_list`,
`create_ticket`, `update_ticket`), and the records they work on (`TicketStatus`,
`Comment`, `Ticket`).

- `wrappers.dfy` (`Wrappers`): `Option` for Python's `None`, `Result` for a raised exception.
- `text.dfy` (`Text`): Python's `str.strip()` and `str.lower()` on `seq<char>`, with
  `Strip` characterised independently of how it scans (`StripUnique`).
- `data_models.dfy` (`Models`): the `TicketStatus` enumeration and its value lookup,
  and the `Comment` and `Ticket` records. A ticket's status is a plain string, as in
  the document schema; `closeTime` and `deleteTime` are the optional fields.
- `parsers.dfy` (`Parsers`): the three parsers as functions.
- `ticket_store.dfy` (`Resources`): the class `TicketStore`. It holds the saved tickets
  as a `map<Id, Ticket>` and a counter `nextId` that issues fresh identifiers. Its
  methods follow the Python functions step by step. `GetTicketList` builds the query's
  keyword arguments one at a time and evaluates them as the document store does
  (`Matches`). It is proved equal to the listing contract of the endpoint's docstring
  (`Listed`, `Listing`). The object invariant `Valid` says that every saved ticket:
  - has a close time only when it is closed;
  - has no delete time;
  - has only comments whose commenter and text are stripped and non-blank.
- `scenarios.dfy` (`Scenarios`): the repository's three tests (test.py), replayed as
  client methods proved from the operations' contracts.

The clock is a parameter: every operation that calls `datetime.now()` takes `now`.
`datetime.strptime` is the parameter `strptime` of `ParseDatetime`. It is a partial
parser that takes a string and a format and returns `None` where Python raises
`ValueError`. Instants are integers on an ordered time line.

Where the code and the repository's own statement of intent differ, the model follows
the code:
- Close time: the comment at test.py:106-107 says a close time is kept exactly when a
  ticket is closed. The code only guarantees "a close time implies closed". `create_ticket`
  never sets a close time, even for a ticket created with status `closed`.
  `CreateTicket` and `WellFormed` state this.
- Unknown ids: the lookup error is a plain exception in the code, and it reaches
  clients as a server error. The model returns `NotFound(id)`.

`get_ticket_list` tests its arguments for truth. A status list constrains the
listing only when it is present and non-empty. A bound constrains it whenever it is
present, because a Python datetime is always true. The document store's `$gte` and
`$lte` never match a ticket without a close time. The record fields the schema marks
required are the non-`Option` fields of `Ticket` and `Comment`, so every value has them.

`Lower` lower-cases the ASCII letters and the Kelvin sign (U+212A), which Python
lower-cases to `k`. So `parse_status` accepts "bac\u212alog" as "backlog", and so does
the model (`ParseStatusKelvinSign`). Every other non-ASCII character is left as it is.
For `parse_status` this makes no difference. Python lower-cases every other non-ASCII
character to a string that is still non-ASCII, so no status value can come out of it.
The one case that maps to more than one character, U+0130, becomes `i` followed by a
combining dot, and that is not a status value either.

## Model

| member | source | states |
|---|---|---|
| `Models.StatusOf` | data_models.py:9-13 | the enumeration lookup `TicketStatus(value)` succeeds exactly for the four literals "backlog", "progress", "review", "closed", and returns the member whose value it is |
| `Models.StatusValueRoundTrip` | data_models.py:9-13 | every member is found again from its value, and only from its value: the four values are distinct |
| `Models.StatusValueNormalised` | data_models.py:9-13 | every member's value is lower-case and has no surrounding white space |
| `Text.Strip` | data_resources.py:14 | the result has no white space at either end and is no longer than the input (that it is empty exactly for blank input, and that it is the unique trimmed middle part, are the two lemmas below) |
| `Text.StripEmptyIffBlank` | data_resources.py:34 | stripping yields the empty string exactly when every character is white space, the test `not s.strip()` |
| `Text.StripUnique` | data_resources.py:14 | whenever the input splits into a blank prefix, a part without white space at its ends and a blank suffix, stripping returns that part |
| `Text.StripIdempotent` | data_resources.py:14 | stripping twice is stripping once |
| `Text.Lower` | data_resources.py:14 | `str.lower()` one character for one, so the length is kept; it lower-cases A to Z and the Kelvin sign, which Python maps to `k`, and leaves every other character as it is, where Python also lower-cases non-ASCII letters (see "## Left out") |
| `Text.LowerIsLowerCase` | data_resources.py:14 | the result contains no upper-case ASCII letter and no Kelvin sign, and lower-case ASCII letters come through unchanged |
| `Text.LowerStripCommute` | data_resources.py:14 | lower-casing and stripping commute |
| `Text.RefineIdempotent` | data_resources.py:14 | the refinement `lower(strip(s))` applied to its own result changes nothing |
| `Parsers.ParseStatus` | data_resources.py:10-15 | succeeds exactly when `lower(strip(raw))` is one of the four status values, and then returns that refined string; every other input is an `InvalidStatus` error |
| `Parsers.ParseStatusOfValue` | data_resources.py:14-15 | each member's own value is accepted unchanged |
| `Parsers.ParseStatusKelvinSign` | data_resources.py:14-15 | "backlog" spelt with a Kelvin sign in place of `k` is accepted as "backlog", as Python's lower-casing makes it |
| `Parsers.ParseStatusIdempotent` | data_resources.py:14-15 | parsing a successful result again gives the same result |
| `Parsers.ParseTitle` | data_resources.py:32-36 | fails with `BlankTitle` exactly when the title is empty or all white space, and otherwise returns the title unstripped |
| `Parsers.ParseDatetime` | data_resources.py:18-29 | never fails; a successful full-timestamp parse wins; otherwise the date-only parse is the result; `None` exactly when neither format parses |
| `Resources.MatchesIffListed` | data_resources.py:150-167 | the store's evaluation of the keyword arguments built from the request agrees with the AND of the supplied conditions |
| `Resources.QueryResultIsListing` | data_resources.py:167 | the tickets the store returns for such a query are exactly the listing of the arguments, with their ids |
| `Resources.ListingWithoutArguments` | data_resources.py:103 | with no arguments every saved ticket is listed |
| `Resources.ListingEmptyStatusList` | data_resources.py:152-153 | an empty status list constrains nothing, exactly like an absent one |
| `Resources.ListingByOneStatus` | data_resources.py:96-97 | listing by one status gives exactly the saved tickets in that status |
| `Resources.ListingStatusUnion` | data_resources.py:96-97 | listing by several statuses gives the union of the listings by each (membership, not intersection) |
| `Resources.ListingAllStatuses` | data_resources.py:96-97 | when every saved status is a status value (the invariant `StatusesValid` that `parse_status` upholds), listing by all four status values equals listing without a status list: "no specification is equivalent to specifying all statuses" |
| `Resources.UpdatePreservesWellFormed` | data_resources.py:190-207 | an update keeps a ticket well formed: close time only when closed, no delete time, every comment stripped and non-blank |
| `Resources.TicketStore.constructor` | test.py:13-15 | the fresh, emptied test database: the collection starts empty and satisfies the invariant |
| `Resources.TicketStore.GetTicket` | data_resources.py:118-126 | returns the ticket saved under the id when there is one, and `NotFound(id)` exactly when there is none; it changes nothing |
| `Resources.TicketStore.GetTicketList` | data_resources.py:146-167 | returns exactly the saved tickets (with their ids) that satisfy every supplied condition: status membership and inclusive creation and close-time bounds, where a ticket without a close time is outside any close bound |
| `Resources.TicketStore.CreateTicket` | data_resources.py:170-183 | saves exactly one new ticket under an unused id and changes no other; the ticket has the given fields, creation time `now`, no close time even when its status is closed, no delete time and no comments; the invariant is kept, and statuses stay valid when the given status is valid |
| `Resources.TicketStore.UpdateTicket` | data_resources.py:186-211 | an unknown id fails with `NotFound` and nothing changes. Otherwise only that ticket changes, as follows. The assignee becomes the stripped argument when that is present and non-blank. A given status replaces the old one, and the close time becomes `now` when the new status is `closed` and absent otherwise. Without a status, status and close time stay as they were. One stripped comment is appended after the earlier ones exactly when commenter and comment are both non-blank. All other fields are unchanged. The invariant is kept |
| `Scenarios.CreatedTicketIsFetched` | test.py:28-49 | a ticket fetched right after its creation equals the created ticket |
| `Scenarios.ViewAllTickets` | test.py:51-71 | tickets created one after another in a fresh store are listed without arguments: the listing holds exactly the created tickets, each under its own distinct identifier, and each created ticket has its given fields, status `progress`, its own creation time and no close time |
| `Scenarios.SaveInOrder` | test.py:53-62 | saving one more ticket under an unused identifier adds exactly that ticket to the saved tickets and keeps the identifiers distinct |
| `Scenarios.ListEachStatus` | test.py:113-127 | with one saved ticket, listing by its status finds exactly it, and listing by any other status finds nothing |
| `Scenarios.TicketUpdates` | test.py:79-127 | a ticket created in progress is moved to each status in turn; each move reads the clock afresh, and after each move the returned ticket has that status and a close time, the time of that move, exactly when it is closed, listing by its status finds exactly it, and listing by any other status finds nothing |

## Left out

- The HTTP resource classes, `reqparse` argument handling and the response status codes
  (data_resources.py:43-111): request binding, not ticket logic. The model's operations
  take the already-parsed arguments.
- `resource_output` (data_resources.py:129-138): JSON serialisation through library code.
- The document store itself is replaced by a map. This leaves out indexing, the order
  of query results and store connectivity failures. MongoDB also stores datetimes with
  millisecond precision, so a saved time can lose its microseconds.
- Identifiers are natural numbers issued by a counter, not ObjectIds. A malformed id
  string, which fails differently in the store library, is not representable.
- `EmailField` validation on `save()` (data_models.py:19, 33-34): it is library code.
  The model accepts any creator, assignee or commenter string. In the service, an
  invalid address makes the save fail.
- `datetime.strptime`'s grammar (digit counts, leniency, calendar checks) is not modelled;
  `ParseDatetime` keeps the order of the two formats and the `None` fallback.
- `Lower`: non-ASCII characters other than the Kelvin sign are left unchanged, so
  Python's full Unicode case mapping is not modelled. This does not affect
  `ParseStatus`, as explained above.
- `ParseTitle`: `str(title)` is the identity here, because the request field is
  already a string.
- Lost updates between concurrent `update_ticket` calls: the model is sequential.
- app.py page routes, server.py start-up, and the test fixture's database connection and
  application set-up: I/O and configuration. The fresh empty database the fixture makes is
  the `TicketStore` constructor.
