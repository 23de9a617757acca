/**
 * The meta handler's decision: given what the upstream meta request
 * produced, return the meta unchanged or `{ meta: null }`. The HTTP fetch
 * itself is an input.
 */
module MetaHandler {
  import opened Wrappers
  import opened Filter

  /**
   * The outcome of fetching `/meta/{type}/{id}.json` upstream:
   * `Failed` for any error thrown while fetching or processing the
   * response, `Fetched(None)` when `response.data.meta` is absent.
   */
  datatype Upstream = Failed | Fetched(meta: Option<Item>)

  /** The handler's reply `{ meta }`; `None` is `{ meta: null }`, i.e. "not found". */
  datatype MetaResponse = MetaResponse(meta: Option<Item>)

  /** The meta handler: null out absent, blocked and failed lookups, else pass the meta through. */
  function HandleMeta(upstream: Upstream): (resp: MetaResponse)
    ensures resp.meta.None? <==>
      (upstream.Failed? || upstream.meta.None? || ShouldFilterItem(upstream.meta.value))
    ensures resp.meta.Some? ==> upstream == Fetched(resp.meta)
  {
    match upstream
    case Failed => MetaResponse(None)
    case Fetched(None) => MetaResponse(None)
    case Fetched(Some(meta)) =>
      if ShouldFilterItem(meta) then MetaResponse(None) else MetaResponse(Some(meta))
  }

  /** A meta the handler serves is one the blocking policy allows. */
  lemma ServedMetaIsAllowed(upstream: Upstream)
    requires HandleMeta(upstream).meta.Some?
    ensures !Blocked(HandleMeta(upstream).meta.value)
  {
    ShouldFilterItemMeetsPolicy(HandleMeta(upstream).meta.value);
  }

  /** Passing a reply through the handler again changes nothing. */
  lemma HandleMetaIdempotent(upstream: Upstream)
    ensures HandleMeta(Fetched(HandleMeta(upstream).meta)) == HandleMeta(upstream)
  {
  }
}
