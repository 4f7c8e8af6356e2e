// Pages of canonical events, as a source answers them.
module Pages {
  import opened Wrappers
  import opened Community

  datatype Page = Page(events: seq<Committed>, hasMore: bool)

  /** Events numbered after `after`, at most `limit` of them. */
  function PageOf(log: seq<Committed>, after: nat, limit: nat): Page {
    if after >= |log| then Page([], false)
    else if |log| - after <= limit then Page(log[after..], false)
    else Page(log[after..after + limit], true)
  }

  function NormalizeLimit(limit: int): Option<nat> {
    if limit == 0 then Some(DEFAULT_PAGE_LIMIT)
    else if limit < 1 || limit > MAX_PAGE_LIMIT then None
    else Some(limit)
  }

  /** A page is the next events after a position, as many as 1 to 256 asked for or
      100 by default, and says exactly whether more follow. */
  lemma PageIsNext(log: seq<Committed>, after: nat, limit: int)
    ensures NormalizeLimit(limit).Some? <==> 0 <= limit <= 256
    ensures 0 <= limit <= 256 ==>
              var most, page := if limit == 0 then 100 else limit, PageOf(log, after, NormalizeLimit(limit).value);
              var rest := if after >= |log| then [] else log[after..];
              && page.events == (if |rest| <= most then rest else rest[..most])
              && (page.hasMore <==> |rest| > most)
  {
  }
}
