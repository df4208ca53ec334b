/**
 * `renderResults` of the main frontend: which array of an accepted payload
 * is rendered, how each item's aliased fields collapse to one canonical
 * record, what is inserted into the page for it (escaped), and when the
 * Previous and Next controls appear. The page itself is modelled as the
 * list of rendered result cards and the pager; markup layout is not.
 */
module Render {
  import opened JsValue
  import opened Faults
  import opened Html

  /** The canonical result record every accepted item shape collapses to. */
  datatype Item = Item(title: string, link: string, snippet: string, engine: string)

  /** The escaped text inserted for one result: link target, title, link line, snippet. */
  datatype Card = Card(href: string, title: string, link: string, snippet: string)

  /** A control that re-runs the search for `query` on `page`. */
  datatype Rerun = Rerun(query: string, page: int)

  datatype Pager = Pager(previous: Option<Rerun>, next: Option<Rerun>)

  /** What the results region shows after a successful fetch. */
  datatype Listing =
    | NoResults(queryHtml: string, instanceHtml: Option<string>)
    | Results(cards: seq<Card>, pager: Pager)

  /**
   * The status line and results region after a search. A failed search
   * also leaves whatever pager controls are still on the page.
   */
  datatype Screen =
    | Showing(status: string, listing: Listing)
    | Failed(status: string, errorHtml: string, controls: Pager)

  const DefaultPerPage := 10

  /** `CONFIG.perPage || 10` */
  function NextThreshold(perPage: Option<int>): (t: int)
    ensures perPage.Some? && perPage.value != 0 ==> t == perPage.value
    ensures perPage.None? || perPage.value == 0 ==> t == DefaultPerPage
  {
    match perPage
    case None => DefaultPerPage
    case Some(p) => if p == 0 then DefaultPerPage else p
  }

  /**
   * The pager: Previous re-runs `page - 1` exactly when `page > 1`; Next
   * re-runs `page + 1` exactly when `count` reaches the threshold (no
   * threshold: never). Both keep the query.
   */
  function MakePager(q: string, page: int, count: int, threshold: Option<int>): (p: Pager)
    ensures p.previous.Some? <==> page > 1
    ensures p.previous.Some? ==> p.previous.value == Rerun(q, page - 1)
    ensures p.next.Some? <==> threshold.Some? && count >= threshold.value
    ensures p.next.Some? ==> p.next.value == Rerun(q, page + 1)
  {
    Pager(if page > 1 then Some(Rerun(q, page - 1)) else None,
          if threshold.Some? && count >= threshold.value then Some(Rerun(q, page + 1)) else None)
  }

  /** `item.title || item.name || '(no title)'` */
  function TitleOf(item: Value): Value
    requires !Nullish(item)
  {
    Or(Or(Prop(item, "title"), Prop(item, "name")), Str("(no title)"))
  }

  /** `item.url || item.link || '#'` */
  function LinkOf(item: Value): Value
    requires !Nullish(item)
  {
    Or(Or(Prop(item, "url"), Prop(item, "link")), Str("#"))
  }

  /** `item.content || item.snippet || item.description || ''` */
  function SnippetOf(item: Value): Value
    requires !Nullish(item)
  {
    Or(Or(Or(Prop(item, "content"), Prop(item, "snippet")), Prop(item, "description")), Str(""))
  }

  /** `item.engine ? ' · ' + item.engine : ''` */
  function EngineOf(item: Value): string
    requires !Nullish(item)
  {
    if Truthy(Prop(item, "engine")) then " · " + ToJsString(Prop(item, "engine")) else ""
  }

  /**
   * The canonical record of an item: for each field the first truthy alias,
   * as text, and otherwise the placeholder.
   */
  function Normalize(item: Value): (it: Item)
    requires !Nullish(item)
    ensures it.title == if Truthy(Prop(item, "title")) then ToJsString(Prop(item, "title"))
                        else if Truthy(Prop(item, "name")) then ToJsString(Prop(item, "name"))
                        else "(no title)"
    ensures it.link == if Truthy(Prop(item, "url")) then ToJsString(Prop(item, "url"))
                       else if Truthy(Prop(item, "link")) then ToJsString(Prop(item, "link"))
                       else "#"
    ensures it.snippet == if Truthy(Prop(item, "content")) then ToJsString(Prop(item, "content"))
                          else if Truthy(Prop(item, "snippet")) then ToJsString(Prop(item, "snippet"))
                          else if Truthy(Prop(item, "description")) then ToJsString(Prop(item, "description"))
                          else ""
    ensures it.engine == if Truthy(Prop(item, "engine")) then " · " + ToJsString(Prop(item, "engine")) else ""
  {
    Item(Text(TitleOf(item)), Text(LinkOf(item)), Text(SnippetOf(item)), EngineOf(item))
  }

  /**
   * The text inserted for one item: every interpolation goes through `esc`,
   * so no field of the card can open a tag or close an attribute.
   */
  function CardFor(item: Value): (c: Card)
    requires !Nullish(item)
    ensures Inert(c.href) && Inert(c.title) && Inert(c.link) && Inert(c.snippet)
  {
    Card(Esc(LinkOf(item)), Esc(TitleOf(item)), Esc(LinkOf(item)) + Esc(Str(EngineOf(item))), Esc(SnippetOf(item)))
  }

  /**
   * A card shows exactly its item's canonical record: decoding the
   * entities gives back the title, the link (as target and, followed by the
   * engine label, as text) and the snippet.
   */
  lemma CardShowsItem(item: Value)
    requires !Nullish(item)
    ensures Unescape(CardFor(item).href) == Normalize(item).link
    ensures Unescape(CardFor(item).title) == Normalize(item).title
    ensures Unescape(CardFor(item).link) == Normalize(item).link + Normalize(item).engine
    ensures Unescape(CardFor(item).snippet) == Normalize(item).snippet
  {
    var it := Normalize(item);
    UnescapeEscape(it.link);
    UnescapeEscape(it.title);
    UnescapeEscape(it.snippet);
    assert Esc(Str(EngineOf(item))) == Escape(it.engine);
    EscapeConcat(it.link, it.engine);
    UnescapeEscape(it.link + it.engine);
  }

  /** An item without title or name shows the "(no title)" placeholder. */
  lemma MissingTitleShowsPlaceholder(item: Value)
    requires !Nullish(item) && !Truthy(Prop(item, "title")) && !Truthy(Prop(item, "name"))
    ensures Unescape(CardFor(item).title) == "(no title)"
  {
    assert TitleOf(item) == Str("(no title)");
    UnescapeEscape("(no title)");
  }

  /** An item without url or link points at "#". */
  lemma MissingLinkPointsNowhere(item: Value)
    requires !Nullish(item) && !Truthy(Prop(item, "url")) && !Truthy(Prop(item, "link"))
    ensures CardFor(item).href == "#"
  {
    assert LinkOf(item) == Str("#");
    EscapePlainText("#");
  }

  /** Text that `esc` leaves as it is. */
  predicate Plain(v: Value) {
    v.Str? && v.s != [] && forall i :: 0 <= i < |v.s| ==> !IsSpecial(v.s[i])
  }

  /**
   * An item whose title, url and content are non-empty strings free of
   * `&`, `<`, `>` and `"`, and which names no engine, renders its fields
   * verbatim.
   */
  lemma PlainFieldsPassThrough(item: Value)
    requires !Nullish(item)
    requires Plain(Prop(item, "title")) && Plain(Prop(item, "url")) && Plain(Prop(item, "content"))
    requires !Truthy(Prop(item, "engine"))
    ensures CardFor(item) == Card(Prop(item, "url").s, Prop(item, "title").s, Prop(item, "url").s, Prop(item, "content").s)
  {
    var title, url, content := Prop(item, "title"), Prop(item, "url"), Prop(item, "content");
    assert Esc(TitleOf(item)) == title.s by {
      assert TitleOf(item) == title;
      EscapePlainText(title.s);
    }
    assert Esc(LinkOf(item)) == url.s by {
      assert LinkOf(item) == url;
      EscapePlainText(url.s);
    }
    assert Esc(SnippetOf(item)) == content.s by {
      assert SnippetOf(item) == content;
      EscapePlainText(content.s);
    }
    assert Esc(Str(EngineOf(item))) == "";
    assert url.s + "" == url.s;
  }

  /**
   * `Array.isArray(json.results) ? json.results : (json.results || json.data || [])`.
   * The chosen value is always truthy, so the `!arr` test never fires.
   */
  function RenderedArray(json: Value): (arr: Value)
    requires !Nullish(json)
    ensures Truthy(arr)
    ensures Truthy(Prop(json, "results")) ==> arr == Prop(json, "results")
    ensures !Truthy(Prop(json, "results")) && Truthy(Prop(json, "data")) ==> arr == Prop(json, "data")
    ensures !Truthy(Prop(json, "results")) && !Truthy(Prop(json, "data")) ==> arr == Arr([])
  {
    if IsArray(Prop(json, "results")) then Prop(json, "results")
    else Or(Or(Prop(json, "results"), Prop(json, "data")), Arr([]))
  }

  /** `!arr || arr.length === 0` */
  predicate ListsNothing(arr: Value) {
    !Truthy(arr) || Prop(arr, "length") == Num(0)
  }

  predicate NoNullItem(items: seq<Value>) {
    forall i :: 0 <= i < |items| ==> !Nullish(items[i])
  }

  function Cards(items: seq<Value>): (cards: seq<Card>)
    requires NoNullItem(items)
    ensures |cards| == |items|
  {
    seq(|items|, i requires 0 <= i < |items| => CardFor(items[i]))
  }

  /**
   * What `renderResults(json, q, page, usedInstance)` leaves on the page,
   * or the TypeError it throws: the no-results message when the chosen
   * array is empty; otherwise a card per item and the pager. A chosen value
   * that is not an array cannot be iterated, and a null item has no fields.
   */
  function RenderSpec(json: Value, q: string, page: int, perPage: Option<int>, used: string): Result<Listing> {
    if Nullish(json) then Err(TypeFault)
    else
      var arr := RenderedArray(json);
      if ListsNothing(arr) then Ok(NoResults(Esc(Str(q)), Some(Esc(Str(used)))))
      else if !arr.Arr? then Err(TypeFault)
      else if !NoNullItem(arr.items) then Err(TypeFault)
      else Ok(Results(Cards(arr.items), MakePager(q, page, |arr.items|, Some(NextThreshold(perPage)))))
  }

  /**
   * The main frontend's card for one `forEach` item: reading a field of a
   * null item throws; any other item yields its card.
   */
  function ItemCard(item: Value): (r: Result<Card>)
    ensures r.Ok? <==> !Nullish(item)
    ensures r.Err? ==> r.fault == TypeFault
  {
    if Nullish(item) then Err(TypeFault) else Ok(CardFor(item))
  }

  /**
   * A `forEach` that appends one card per item, in array order. The first
   * item whose card cannot be built throws, and the whole render fails with
   * that item's fault.
   */
  method ForEachCard(items: seq<Value>, card: Value -> Result<Card>) returns (r: Result<seq<Card>>)
    ensures r.Ok? <==> forall k :: 0 <= k < |items| ==> card(items[k]).Ok?
    ensures r.Ok? ==> |r.value| == |items| && forall k :: 0 <= k < |items| ==> r.value[k] == card(items[k]).value
    ensures r.Err? ==> exists k :: 0 <= k < |items| && card(items[k]) == Err(r.fault)
  {
    var shown: seq<Card> := [];
    var i := 0;
    while i < |items|
      invariant 0 <= i <= |items|
      invariant |shown| == i
      invariant forall k :: 0 <= k < i ==> card(items[k]).Ok? && shown[k] == card(items[k]).value
    {
      var c := card(items[i]);
      if c.Err? {
        return Err(c.fault);
      }
      shown := shown + [c.value];
      i := i + 1;
    }
    return Ok(shown);
  }

  /**
   * `renderResults`: the no-results message, or the cards followed by the
   * pager controls.
   */
  method RenderResults(json: Value, q: string, page: int, perPage: Option<int>, used: string)
    returns (r: Result<Listing>)
    ensures r == RenderSpec(json, q, page, perPage, used)
  {
    if Nullish(json) {
      return Err(TypeFault);
    }
    var arr := RenderedArray(json);
    if ListsNothing(arr) {
      return Ok(NoResults(Esc(Str(q)), Some(Esc(Str(used)))));
    }
    if !arr.Arr? {
      return Err(TypeFault);
    }
    var cards := ForEachCard(arr.items, ItemCard);
    if cards.Err? {
      return Err(cards.fault);
    }
    assert NoNullItem(arr.items) by {
      forall k | 0 <= k < |arr.items| ensures !Nullish(arr.items[k]) {
        assert ItemCard(arr.items[k]).Ok?;
      }
    }
    assert cards.value == Cards(arr.items);
    var pager := MakePager(q, page, |arr.items|, Some(NextThreshold(perPage)));
    return Ok(Results(cards.value, pager));
  }

  /**
   * The no-results message appears exactly when the chosen array is empty,
   * and it comes without a pager; otherwise there is one card per item, in
   * order, each showing its item.
   */
  lemma RenderedListing(json: Value, q: string, page: int, perPage: Option<int>, used: string)
    requires !Nullish(json)
    requires RenderSpec(json, q, page, perPage, used).Ok?
    ensures RenderSpec(json, q, page, perPage, used).value.NoResults? <==> Prop(RenderedArray(json), "length") == Num(0)
    ensures RenderSpec(json, q, page, perPage, used).value.Results? ==>
              var items := RenderedArray(json).items;
              var cards := RenderSpec(json, q, page, perPage, used).value.cards;
              |items| > 0 && |cards| == |items| && forall i :: 0 <= i < |items| ==> !Nullish(items[i]) && cards[i] == CardFor(items[i])
    ensures RenderSpec(json, q, page, perPage, used).value.Results? ==>
              RenderSpec(json, q, page, perPage, used).value.pager
              == MakePager(q, page, |RenderedArray(json).items|, Some(NextThreshold(perPage)))
  {
  }

  /**
   * Every array of non-null items renders, whatever its items hold; the
   * pager then depends only on the page and the number of items.
   */
  lemma ArraysRender(json: Value, q: string, page: int, perPage: Option<int>, used: string)
    requires !Nullish(json)
    requires RenderedArray(json).Arr? && NoNullItem(RenderedArray(json).items)
    ensures RenderSpec(json, q, page, perPage, used).Ok?
    ensures RenderedArray(json).items == [] ==> RenderSpec(json, q, page, perPage, used).value.NoResults?
    ensures RenderedArray(json).items != [] ==>
              RenderSpec(json, q, page, perPage, used).value.Results?
              && RenderSpec(json, q, page, perPage, used).value.pager
                 == MakePager(q, page, |RenderedArray(json).items|, Some(NextThreshold(perPage)))
  {
  }

  /** A payload whose `results` holds one item renders that item's card. */
  lemma OneItemRenders(json: Value, item: Value, q: string, page: int, perPage: Option<int>, used: string)
    requires !Nullish(json) && Prop(json, "results") == Arr([item]) && !Nullish(item)
    ensures RenderSpec(json, q, page, perPage, used)
         == Ok(Results([CardFor(item)], MakePager(q, page, 1, Some(NextThreshold(perPage)))))
  {
    assert RenderedArray(json) == Arr([item]);
    assert !ListsNothing(Arr([item])) && NoNullItem([item]);
    assert Cards([item])[0] == CardFor(item);
    assert Cards([item]) == [CardFor(item)];
  }

  /**
   * With the deployed threshold of 10: exactly 10 items offer Next, 9 do
   * not; page 1 offers no Previous, page 2 offers Previous to page 1 with
   * the same query.
   */
  lemma PagerBoundaries(q: string)
    ensures MakePager(q, 1, 10, Some(NextThreshold(Some(10)))).next == Some(Rerun(q, 2))
    ensures MakePager(q, 1, 9, Some(NextThreshold(Some(10)))).next == None
    ensures MakePager(q, 1, 10, Some(NextThreshold(Some(10)))).previous == None
    ensures MakePager(q, 2, 0, Some(NextThreshold(Some(10)))).previous == Some(Rerun(q, 1))
  {
  }
}
