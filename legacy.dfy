/**
 * The legacy frontend: one request to a single configured instance, no
 * status check, no fallback, no alias fields, and an `esc` that throws on
 * a truthy value that is not a string. It shares the page model (cards,
 * pager, screen) with the main frontend, so the two can be compared.
 */
module Legacy {
  import opened JsValue
  import opened Faults
  import opened Html
  import opened Render
  import Resolver

  /**
   * What `fetch(url)` followed by `res.json()` yields: an error thrown by
   * either call (network failure, a body that is not JSON), or a response
   * with its status and parsed body.
   */
  datatype Reply = Threw(message: string) | Parsed(status: int, body: Value)

  /** The values the legacy `esc` accepts: falsy ones and strings. */
  predicate Escapable(v: Value) {
    !Truthy(v) || v.Str?
  }

  /**
   * The card for one item `r`: `esc(r.url)` as target and link line,
   * `esc(r.title)` and `esc(r.content || "")`. Reading a field of a null
   * item throws, and so does `esc` of any truthy non-string field.
   */
  function LegacyItemCard(r: Value): (c: Result<Card>)
    ensures c.Ok? <==> !Nullish(r) && Escapable(Prop(r, "url")) && Escapable(Prop(r, "title")) && Escapable(Prop(r, "content"))
    ensures c.Err? ==> c.fault == TypeFault
    ensures c.Ok? ==> c.value.href == c.value.link
    ensures c.Ok? ==> Inert(c.value.href) && Inert(c.value.title) && Inert(c.value.snippet)
  {
    if Nullish(r) then Err(TypeFault)
    else
      var url := EscLegacy(Prop(r, "url"));
      var title := EscLegacy(Prop(r, "title"));
      var snippet := EscLegacy(Or(Prop(r, "content"), Str("")));
      if url.Ok? && title.Ok? && snippet.Ok? then Ok(Card(url.value, title.value, url.value, snippet.value))
      else Err(TypeFault)
  }

  /**
   * A legacy card shows its item's own fields and nothing else: decoding
   * the entities gives back `url`, `title` and `content` as strings, with
   * a missing or falsy field showing as the empty string.
   */
  lemma LegacyCardShowsItem(r: Value)
    requires LegacyItemCard(r).Ok?
    ensures Unescape(LegacyItemCard(r).value.href) == Text(Prop(r, "url"))
    ensures Unescape(LegacyItemCard(r).value.title) == Text(Prop(r, "title"))
    ensures Unescape(LegacyItemCard(r).value.snippet) == Text(Prop(r, "content"))
  {
    UnescapeEscape(Text(Prop(r, "url")));
    UnescapeEscape(Text(Prop(r, "title")));
    UnescapeEscape(Text(Prop(r, "content")));
  }

  /**
   * On an item that carries a non-empty string `url`, `title` and
   * `content` and no engine, both frontends render the same card.
   */
  lemma LegacyAgreesOnPlainItems(r: Value)
    requires r.Obj?
    requires Prop(r, "url").Str? && Prop(r, "url").s != ""
    requires Prop(r, "title").Str? && Prop(r, "title").s != ""
    requires Prop(r, "content").Str? && Prop(r, "content").s != ""
    requires !Truthy(Prop(r, "engine"))
    ensures LegacyItemCard(r) == Ok(CardFor(r))
  {
    assert Esc(Str("")) == "";
    EscapeConcat(Text(Prop(r, "url")), "");
    assert Text(Prop(r, "url")) + "" == Text(Prop(r, "url"));
  }

  /**
   * Where the frontends part on an item without title or link: the legacy
   * frontend renders both as empty text, the main frontend shows its
   * "(no title)" and "#" placeholders.
   */
  lemma MissingFieldsDiffer(r: Value)
    requires r.Obj?
    requires !Truthy(Prop(r, "title")) && !Truthy(Prop(r, "name"))
    requires !Truthy(Prop(r, "url")) && !Truthy(Prop(r, "link"))
    requires Escapable(Prop(r, "content"))
    ensures LegacyItemCard(r).Ok?
    ensures LegacyItemCard(r).value.title == "" && LegacyItemCard(r).value.href == ""
    ensures Unescape(CardFor(r).title) == "(no title)"
    ensures CardFor(r).href == "#"
  {
    MissingTitleShowsPlaceholder(r);
    MissingLinkPointsNowhere(r);
  }

  /**
   * Where the frontends part on a non-zero numeric title: the legacy `esc`
   * has no `replace` to call on a number and throws, the main frontend
   * prints the number.
   */
  lemma NumericTitleDiffers(r: Value)
    requires r.Obj? && Prop(r, "title").Num? && Prop(r, "title").n != 0
    ensures LegacyItemCard(r) == Err(TypeFault)
    ensures Unescape(CardFor(r).title) == IntToString(Prop(r, "title").n)
  {
    assert TitleOf(r) == Prop(r, "title");
    UnescapeEscape(IntToString(Prop(r, "title").n));
  }

  predicate AllItemsRender(items: seq<Value>) {
    forall k :: 0 <= k < |items| ==> LegacyItemCard(items[k]).Ok?
  }

  function LegacyCards(items: seq<Value>): (cards: seq<Card>)
    requires AllItemsRender(items)
    ensures |cards| == |items|
  {
    seq(|items|, i requires 0 <= i < |items| => LegacyItemCard(items[i]).value)
  }

  /**
   * What the legacy `renderResults(json, q, page)` leaves on the page, or
   * the TypeError it throws. Only `results` is read: a falsy or empty one
   * gives the no-results message (without an instance); a truthy value that
   * is not an array cannot be iterated. Next is offered when the item count
   * reaches `CONFIG.perPage` as is: never when it is missing.
   */
  function LegacyRenderSpec(json: Value, q: string, page: int, perPage: Option<int>): Result<Listing> {
    if Nullish(json) then Err(TypeFault)
    else
      var results := Prop(json, "results");
      if ListsNothing(results) then Ok(NoResults(Esc(Str(q)), None))
      else if !results.Arr? then Err(TypeFault)
      else if !AllItemsRender(results.items) then Err(TypeFault)
      else Ok(Results(LegacyCards(results.items), MakePager(q, page, |results.items|, perPage)))
  }

  /** The legacy `renderResults`. */
  method LegacyRenderResults(json: Value, q: string, page: int, perPage: Option<int>) returns (r: Result<Listing>)
    ensures r == LegacyRenderSpec(json, q, page, perPage)
  {
    if Nullish(json) {
      return Err(TypeFault);
    }
    var results := Prop(json, "results");
    if ListsNothing(results) {
      return Ok(NoResults(Esc(Str(q)), None));
    }
    if !results.Arr? {
      return Err(TypeFault);
    }
    var cards := ForEachCard(results.items, LegacyItemCard);
    if cards.Err? {
      return Err(cards.fault);
    }
    assert cards.value == LegacyCards(results.items);
    return Ok(Results(cards.value, MakePager(q, page, |results.items|, perPage)));
  }

  /**
   * The legacy pager differs from the main one only in its threshold: a
   * missing `perPage` never offers Next, and a zero `perPage` always does,
   * where the main frontend falls back to 10 in both cases.
   */
  lemma LegacyThresholdDiffers(q: string, page: int, count: nat)
    ensures MakePager(q, page, count, None).next == None
    ensures MakePager(q, page, count, Some(0)).next == Some(Rerun(q, page + 1))
    ensures MakePager(q, page, count, Some(NextThreshold(None))).next.Some? <==> count >= 10
    ensures MakePager(q, page, count, Some(NextThreshold(Some(0)))).next.Some? <==> count >= 10
  {
  }

  const LegacyFailedStatus := "Search failed"

  /**
   * The legacy `runSearch(q, page)` against the instance at `base`, given
   * the reply to its single request and the pager controls `before` on the
   * page when it starts: the results and "Results from <base>", or "Search
   * failed" and the escaped error message when fetching, parsing or
   * rendering throws. The HTTP status is never looked at. Only
   * `renderResults` clears the pager, so when fetching or parsing throws
   * the controls of the previous search stay on the page.
   */
  function LegacySearch(base: string, perPage: Option<int>, q: string, page: int, before: Pager, reply: Reply): (s: Screen)
    ensures s.Showing? <==> reply.Parsed? && LegacyRenderSpec(reply.body, q, page, perPage).Ok?
    ensures s.Showing? ==> s.status == "Results from " + base && s.listing == LegacyRenderSpec(reply.body, q, page, perPage).value
    ensures s.Failed? ==> s.status == LegacyFailedStatus && Inert(s.errorHtml)
    ensures reply.Threw? ==> Unescape(s.errorHtml) == reply.message && s.controls == before
    ensures reply.Parsed? && s.Failed? ==> s.controls == Pager(None, None)
    ensures reply.Parsed? && s.Failed? ==> Unescape(s.errorHtml) == Message(LegacyRenderSpec(reply.body, q, page, perPage).fault)
  {
    match reply
    case Threw(message) =>
      UnescapeEscape(message);
      Failed(LegacyFailedStatus, Escape(message), before)
    case Parsed(_, body) =>
      match LegacyRenderSpec(body, q, page, perPage)
      case Ok(listing) => Showing("Results from " + base, listing)
      case Err(f) =>
        UnescapeEscape(Message(f));
        Failed(LegacyFailedStatus, Escape(Message(f)), Pager(None, None))
  }

  /**
   * After a results page beyond the first, a search whose fetch throws still
   * shows that page's Previous control, and the control re-runs the earlier
   * query rather than the one that failed.
   */
  lemma FailedFetchKeepsOldControls(base: string, perPage: Option<int>, q0: string, page0: int, before: Pager,
                                    body0: Value, q: string, page: int, message: string)
    requires page0 > 1
    requires LegacyRenderSpec(body0, q0, page0, perPage).Ok? && LegacyRenderSpec(body0, q0, page0, perPage).value.Results?
    ensures var first := LegacySearch(base, perPage, q0, page0, before, Parsed(200, body0));
            first.Showing? && first.listing.Results?
            && LegacySearch(base, perPage, q, page, first.listing.pager, Threw(message))
               == Failed(LegacyFailedStatus, Escape(message), first.listing.pager)
            && first.listing.pager.previous == Some(Rerun(q0, page0 - 1))
  {
  }

  /**
   * An error response is rendered like any other: whatever its status, a
   * body the legacy renderer accepts is shown, where the main frontend
   * rejects a response whose status is not ok before reading its body.
   */
  lemma LegacyIgnoresStatus(base: string, perPage: Option<int>, q: string, page: int, before: Pager, status: int, body: Value)
    requires LegacyRenderSpec(body, q, page, perPage).Ok?
    ensures LegacySearch(base, perPage, q, page, before, Parsed(status, body))
         == Showing("Results from " + base, LegacyRenderSpec(body, q, page, perPage).value)
    ensures !Resolver.IsOk(status) ==> Resolver.Classify(base, Resolver.Responded(status, body)) == Resolver.Reject(HttpStatus(status, base))
  {
  }
}
