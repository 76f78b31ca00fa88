/**
 * The request-field parsers of data_resources.py: they turn raw strings into
 * a status value, a title or a datetime, or reject them.
 */
module Parsers {
  import opened Wrappers
  import opened Text
  import opened Models

  /** Why a request field was rejected (Python raises `ValueError` for both). */
  datatype ParseError =
    | InvalidStatus  // the refined string is not the value of any `TicketStatus` member
    | BlankTitle     // "Title cannot be blank"

  /**
   * `parse_status`: strip and lower-case the raw string, then look it up as a
   * `TicketStatus` value; the result is that (refined) string.
   */
  function ParseStatus(raw: string): (r: Result<string, ParseError>)
    ensures r.Ok? <==> IsStatusValue(Lower(Strip(raw)))
    ensures r.Ok? ==> r.value == Lower(Strip(raw))
    ensures r.Err? ==> r.error == InvalidStatus
  {
    var refined := Lower(Strip(raw));
    match StatusOf(refined)
    case Some(s) => Ok(s.Value())
    case None => Err(InvalidStatus)
  }

  /** Every member's own value is accepted as it is. */
  lemma ParseStatusOfValue(s: TicketStatus)
    ensures ParseStatus(s.Value()) == Ok(s.Value())
  {
    StatusValueNormalised(s);
  }

  /** A KELVIN SIGN in place of `k` lower-cases to `k`, so this spelling of "backlog" is accepted. */
  lemma ParseStatusKelvinSign()
    ensures ParseStatus("bac\U{212A}log") == Ok("backlog")
  {
    assert Strip("bac\U{212A}log") == "bac\U{212A}log" by {
      var w := "bac\U{212A}log";
      assert w[0..|w|] == w && w[..0] == [] && w[|w|..] == [];
      StripUnique(w, 0, |w|);
    }
    assert Lower("bac\U{212A}log") == "backlog";
  }

  /** Parsing what `parse_status` returned gives the same result again. */
  lemma ParseStatusIdempotent(raw: string)
    requires ParseStatus(raw).Ok?
    ensures ParseStatus(ParseStatus(raw).value) == ParseStatus(raw)
  {
    RefineIdempotent(raw);
  }

  /** `parse_title`: reject a title that is blank after stripping, else keep it unstripped. */
  function ParseTitle(title: string): (r: Result<string, ParseError>)
    ensures r.Err? <==> Blank(title)
    ensures r.Ok? ==> r.value == title
    ensures r.Err? ==> r.error == BlankTitle
  {
    StripEmptyIffBlank(title);
    if Strip(title) == [] then Err(BlankTitle) else Ok(title)
  }

  /** The full-timestamp format `parse_datetime` tries first. */
  const FullFormat: string := "%Y-%m-%dT%H:%M:%S.%f"

  /** The date-only format `parse_datetime` falls back to. */
  const DateFormat: string := "%Y-%m-%d"

  /**
   * `parse_datetime`: `strptime(text, format)` is Python's `datetime.strptime`,
   * with `None` where it raises `ValueError`. The first format that parses
   * wins; when neither does the result is `None`, never an error.
   */
  function ParseDatetime(dateStr: string, strptime: (string, string) -> Option<Time>): (r: Option<Time>)
    ensures r.Some? <==> strptime(dateStr, FullFormat).Some? || strptime(dateStr, DateFormat).Some?
    ensures strptime(dateStr, FullFormat).Some? ==> r == strptime(dateStr, FullFormat)
    ensures strptime(dateStr, FullFormat).None? ==> r == strptime(dateStr, DateFormat)
  {
    match strptime(dateStr, FullFormat)
    case Some(t) => Some(t)
    case None =>
      match strptime(dateStr, DateFormat)
      case Some(t) => Some(t)
      case None => None
  }
}
