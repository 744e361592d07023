/** The list query of the funnels endpoint (`FunnelQueryDto`): which values
    the validation pipe lets through, and the defaults the service then sees.
    A rejected query never reaches the service; it is a 400. */
module FunnelQuery {
  import opened Common
  import opened Entities

  /** The query string as received; an absent parameter is `None`. */
  datatype RawQuery = RawQuery(page: Option<int>, limit: Option<int>, status: Option<string>, search: Option<string>)

  /** A validated query, defaults filled in. */
  datatype Query = Query(page: int, limit: int, status: Option<FunnelStatus>, search: Option<string>)

  const DefaultPage := 1
  const DefaultLimit := 10
  const MaxLimit := 50

  /** The bounds the service relies on: a positive page and a limit of 1 to 50. */
  predicate ValidQuery(q: Query) {
    q.page >= 1 && 1 <= q.limit <= MaxLimit
  }

  function StatusName(s: FunnelStatus): string {
    match s
    case Draft => "DRAFT"
    case Active => "ACTIVE"
    case Archived => "ARCHIVED"
  }

  /** `@IsEnum(FunnelStatus)`: the enum value a literal names, if any. */
  function ParseStatus(s: string): (r: Option<FunnelStatus>)
    ensures r.Some? ==> StatusName(r.value) == s
  {
    if s == "DRAFT" then Some(FunnelStatus.Draft)
    else if s == "ACTIVE" then Some(FunnelStatus.Active)
    else if s == "ARCHIVED" then Some(FunnelStatus.Archived)
    else None
  }

  /** Every status is accepted under its own name. */
  lemma ParseStatusName(s: FunnelStatus)
    ensures ParseStatus(StatusName(s)) == Some(s)
  {
  }

  /** The DTO's validation: `page` an integer of at least 1 (default 1),
      `limit` an integer from 1 to 50 (default 10), `status` absent or a
      status name, `search` anything. */
  function Validate(raw: RawQuery): (r: Result<Query>)
    ensures r.Ok? <==>
      && (raw.page.None? || raw.page.value >= 1)
      && (raw.limit.None? || 1 <= raw.limit.value <= MaxLimit)
      && (raw.status.None? || ParseStatus(raw.status.value).Some?)
    ensures r.Ok? ==> ValidQuery(r.value)
    ensures r.Ok? ==> r.value.page == raw.page.GetOr(DefaultPage) && r.value.limit == raw.limit.GetOr(DefaultLimit)
    ensures r.Ok? ==> r.value.search == raw.search
    ensures r.Ok? ==> (r.value.status.None? <==> raw.status.None?)
    ensures r.Ok? && raw.status.Some? ==> StatusName(r.value.status.value) == raw.status.value
    ensures r.Err? ==> r.error.BadRequest?
  {
    if raw.page.Some? && raw.page.value < 1 then Err(BadRequest("page must not be less than 1"))
    else if raw.limit.Some? && raw.limit.value < 1 then Err(BadRequest("limit must not be less than 1"))
    else if raw.limit.Some? && raw.limit.value > MaxLimit then Err(BadRequest("limit must not be greater than 50"))
    else if raw.status.Some? && ParseStatus(raw.status.value).None? then Err(BadRequest("status must be a valid enum value"))
    else
      Ok(Query(raw.page.GetOr(DefaultPage), raw.limit.GetOr(DefaultLimit),
               if raw.status.Some? then ParseStatus(raw.status.value) else None,
               raw.search))
  }

  /** A query that passes validation is left as it is by a second validation. */
  lemma ValidateIdempotent(raw: RawQuery)
    requires Validate(raw).Ok?
    ensures var q := Validate(raw).value;
      Validate(RawQuery(Some(q.page), Some(q.limit),
                        if q.status.Some? then Some(StatusName(q.status.value)) else None, q.search)) == Ok(q)
  {
    var q := Validate(raw).value;
    if q.status.Some? {
      ParseStatusName(q.status.value);
    }
  }
}
