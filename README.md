# Searx frontend model

A static web page lets a user search through public Searx metasearch
instances. Two versions of the page script exist:

- `script.js`, the main frontend, tries the instances configured in
  `config.js` one after another. For each instance it sends up to two
  requests (the user's page as `pageno = page - 1`, then, only when that
  fails, `pageno = 0` as a fallback)
  and accepts the first response whose status is ok and whose JSON body has a
  usable shape. It renders the results of the first instance that answers as
  escaped HTML cards with Previous/Next controls. When no instance answers, or
  rendering throws, it shows a failure line and the escaped error message.
- `Script.js`, the legacy frontend, sends a single request to one configured
  instance. It has no status check, no fallback and no alias fields, and its
  `esc` throws on any truthy value that is not a string.

The model covers both frontends:

- `JsValue` (`js_value.dfy`): the JSON values the scripts handle, with the
  JavaScript meanings of truthiness, `||`, property reads, `toString` and
  `join` that the scripts rely on.
- `Faults` (`faults.dfy`): the errors thrown along the way and their messages.
- `Html` (`escape.dfy`): both escaping functions, their decoding partner, and
  the proof that the two spellings compute the same text.
- `Request` (`request.dfy`): the request URLs of both frontends, as a base
  plus an ordered list of query parameters.
- `Resolver` (`resolver.dfy`):
  - `tryInstance` and `fetchFromInstances` as loops over the two URLs and
    over the instances, each proved against a recursive specification
    function.
  - The network is an input. Each instance has a `Probe`: whether its base
    URL parses, and what each of the two requests returned (a timeout, a
    rejected promise, or a response with status and parsed body).
- `Render` (`render.dfy`): `renderResults` of the main frontend. It is a
  loop over the items that builds one card each, proved against a
  specification function, together with the pager heuristics.
- `Legacy` (`legacy.dfy`): the legacy card, `renderResults` and `runSearch`,
  and lemmas that pin down where the two frontends agree and where they part.
- `Controller` (`controller.dfy`):
  - the deployed `CONFIG`
  - `runSearch` as a function of the configuration and the network
  - the form's submit handler with JavaScript's `trim`
  - scenario lemmas about whole searches

What the page shows at the end of a search is a `Screen`. It is either the
status line plus a listing (cards and pager, or the no-results message), or
the failure status line plus the escaped error text and whatever pager
controls are still on the page. The main frontend clears the pager before
it fetches, so a failed search shows none. The legacy frontend clears it
only inside `renderResults`: when its fetch or JSON parsing throws, the
previous search's Previous/Next controls stay, and they re-run the previous
query (`Legacy.FailedFetchKeepsOldControls`).

Some of the code's behaviour differs from what its comments and names
suggest. The model follows the code:

- The `pageno = 0` request is commented as a fallback for instances that
  count pages differently, but it is sent after any failure of the first
  request: a timeout, a network error, a non-ok status or an unexpected
  shape (`Resolver.TryInstanceOutcome`).
- The comment at script.js:17 says the page number is passed directly; the
  code sends `pageno = max(0, page - 1)`. The clamp never applies to a page
  a user can reach (`Controller.ReachedPagesStayPositive`).
- The shape check is commented as accepting any object with `results` or
  `query`; it accepts any truthy `results`, `error` or `query`. So:
  - A payload with only an `error` field counts as an answer and renders
    "No results". The next instance is not tried.
  - A truthy `results` that is not an array is accepted, and `renderResults`
    then throws a TypeError unless its `length` is 0, in which case it
    renders "No results" (`Controller.AcceptedButUnrenderable`,
    `Controller.AcceptedZeroLengthListsNothing`).
- The legacy frontend never looks at the HTTP status
  (`Legacy.LegacyIgnoresStatus`).
- Its Next control compares against `CONFIG.perPage` without the main
  frontend's default of 10 (`Legacy.LegacyThresholdDiffers`).

## Model

| member | source | states |
|---|---|---|
| JsValue.JoinAt | script.js:75 | `join` places each part between the join of the parts before it and the join of the parts after it, separated by the separator |
| Faults.AllFailedMessageNamesEach | script.js:75 | the exhaustion message starts with "All instances failed: " and names every tried instance at its position, separated by ", " |
| Html.EscapeChar | Script.js:7 | the lookup table maps `&`, `<`, `>`, `"` to an entity, every other character to itself, and yields no markup character |
| Html.Escape | Script.js:7 | the one-pass replacement leaves no `<`, `>` or `"` in its output and never shortens the text |
| Html.Esc | script.js:9-10 | `esc` of the main frontend yields text free of markup characters; a falsy value gives "" |
| Html.EscLegacy | Script.js:7 | legacy `esc` succeeds exactly on falsy values and strings, and then agrees with the main `esc`; on any other value it throws a TypeError |
| Html.UnescapeEscape | Script.js:7 | decoding the four entities gives back exactly the escaped text |
| Html.EscapeInjective | script.js:9-10 | two different texts never escape to the same HTML |
| Html.EscapeConcat | script.js:97 | escaping a concatenation is the concatenation of the escapes, so `esc(link)+esc(engine)` escapes the joined text |
| Html.EscapePlainText | Script.js:7 | text without `&`, `<`, `>`, `"` is left unchanged |
| Html.ReplaceAllConcat | script.js:10 | a global single-character `replace` distributes over concatenation |
| Html.ReplaceAllAbsent | script.js:10 | a global `replace` of a character the text does not contain changes nothing |
| Html.ChainedIsOnePass | script.js:10 | the four chained replacements, ampersand first, compute the same text as the one-pass table of the legacy `esc`, on every input |
| Html.EscIsChained | script.js:9-10 | the main `esc` equals its four chained replacements applied to the value's text ("" for a falsy value, `toString` otherwise) |
| Request.PageNo | script.js:18 | the sent page number is never negative; it is `page - 1` from page 1 on and 0 below |
| Request.LegacyPageNo | Script.js:14 | the legacy page number is `page - 1`, unclamped |
| Request.BuildUrl | script.js:12-23 | a URL exists exactly when the base parses; it is the base with `q`, `format=json` and the clamped `pageno`, in that order |
| Request.FallbackUrl | script.js:37 | the fallback URL exists exactly when the base parses and carries `pageno=0` |
| Request.UrlsToTry | script.js:34-38 | both URLs, primary first, when the base parses; none otherwise |
| Request.LegacyUrl | Script.js:14 | the legacy URL is the base with `q`, `format=json` and `pageno = page - 1`, in that order |
| Request.PageNoAgreesOnUserPages | Script.js:14 | from page 1 on, both frontends send the same base and parameter list (`q`, `format=json`, `pageno = page - 1`) for the same base, query and page |
| Request.FallbackRepeatsPrimaryOnFirstPage | script.js:34-38 | on page 1 (and below) the fallback request repeats the primary request exactly |
| Request.FallbackDiffersFromSecondPage | script.js:34-38 | from page 2 on, the two requests differ only in `pageno` |
| Resolver.Classify | script.js:43-56 | a request's outcome is accepted exactly when the status is ok and the body is non-null with an array `results` or a truthy `results`, `error` or `query`; it is rejected with "HTTP <status> from <base>", "timeout" or the thrown message for a non-ok status, a timeout or a thrown error, with a TypeError for a null body, and with "Unexpected JSON shape from <base>" for any other body |
| Resolver.TryUrlsFirstAccepted | script.js:40-58 | the URL loop succeeds exactly when some outcome is accepted and returns the body of the first accepted one; otherwise it throws the last rejection, or "No usable response" when there was no URL |
| Resolver.TryInstanceOutcome | script.js:33-59 | `tryInstance` returns the primary body if accepted, else the fallback body if accepted, else the fallback's error; with an unparseable base it throws "No usable response from <base>" |
| Resolver.TryInstance | script.js:33-59 | the loop computes the specified result; the URLs it sent are a prefix of the URLs to try, every one before the last was rejected, the last sent one gave the accepted body, and all were sent on failure |
| Resolver.FetchFromFirstAnswer | script.js:62-76 | the instance loop from position i succeeds exactly when a later instance answers; it returns the first one's body, with the tried list up to it; otherwise it throws "All instances failed" naming every configured instance |
| Resolver.FetchServedByFirstAnswer | script.js:62-76 | `fetchFromInstances` is served by the first answering instance in configured order, with `tried` the instances up to and including it; when none answers, the message joins all instances with ", " |
| Resolver.FirstInstanceAnswers | script.js:64-69 | when the first instance answers, it serves and is the only one tried |
| Resolver.FetchFromInstances | script.js:62-76 | the loop over the instances computes the specified outcome |
| Render.NextThreshold | script.js:109 | Next compares against `CONFIG.perPage` when it is set and non-zero, and against 10 otherwise |
| Render.MakePager | script.js:105-112 | Previous exists exactly from page 2 on and reruns page - 1; Next exists exactly when the count reaches the threshold and reruns page + 1 |
| Render.Normalize | script.js:90-93 | title, link and snippet take the first truthy field of their alias chains, with "(no title)", "#" and "" as defaults; the engine becomes " · <engine>" or "" |
| Render.CardFor | script.js:94-100 | every text of a card is free of markup characters |
| Render.CardShowsItem | script.js:89-100 | decoding a card gives back the normalised link (with the engine suffix on the link line), title and snippet |
| Render.MissingTitleShowsPlaceholder | script.js:90 | an item without title and name shows "(no title)" |
| Render.MissingLinkPointsNowhere | script.js:91 | an item without url and link points to "#" |
| Render.PlainFieldsPassThrough | script.js:89-100 | an item with plain string title, url and content and no engine shows those strings unchanged |
| Render.RenderedArray | script.js:83 | the list rendered is `results` when truthy, else `data` when truthy, else the empty array |
| Render.ItemCard | script.js:89-93 | building a card fails with a TypeError exactly on a null or undefined item |
| Render.ForEachCard | script.js:89-102 | the loop succeeds exactly when every item yields a card, and then returns each item's card in order; on failure the error is one item's error |
| Render.RenderResults | script.js:79-113 | the method computes the specified listing: no results for an empty list, a TypeError for a non-iterable one or a null item, and otherwise the cards and the pager |
| Render.RenderedListing | script.js:83-112 | a successful render shows "No results" exactly when the rendered list has length 0, and otherwise one card per item with the pager for that count |
| Render.ArraysRender | script.js:83-112 | an array without null items always renders: "No results" when empty, the cards and pager otherwise |
| Render.OneItemRenders | script.js:83-112 | a one-item result list renders as exactly that item's card, with the pager for one item |
| Render.PagerBoundaries | script.js:105-112 | with the deployed page size, 10 items offer Next and 9 do not; page 1 has no Previous and page 2 does |
| Legacy.LegacyItemCard | Script.js:34-42 | the legacy card exists exactly when the item is non-null and its url, title and content are falsy or strings; target and link line are the same text, every text is free of markup characters, and failure is a TypeError |
| Legacy.LegacyCardShowsItem | Script.js:37-39 | decoding a legacy card gives back the item's url, title and content, with falsy fields shown as "" |
| Legacy.LegacyAgreesOnPlainItems | Script.js:34-42 | on an item with non-empty string url, title and content and no engine, both frontends render the same card |
| Legacy.MissingFieldsDiffer | Script.js:37-39 | without title and link the legacy card shows empty text where the main one shows "(no title)" and "#" |
| Legacy.NumericTitleDiffers | Script.js:7 | a non-zero numeric title makes the legacy `esc` throw, while the main frontend prints the number |
| Legacy.LegacyRenderResults | Script.js:25-56 | the method computes the specified legacy listing: "No results" for a falsy or empty `results`, a TypeError for a null payload, a non-array list or an unescapable item, otherwise the cards and the pager against `CONFIG.perPage` as is |
| Legacy.LegacyThresholdDiffers | Script.js:50-55 | without `perPage` the legacy Next never appears and with 0 it always does, where the main frontend uses 10 in both cases |
| Legacy.LegacySearch | Script.js:9-23 | the legacy page shows results exactly when a body was parsed and renders, with "Results from <base>"; otherwise "Search failed" and escaped error text, which decodes to the thrown message; a thrown fetch or parse keeps the pager controls already on the page, a failed render leaves none |
| Legacy.FailedFetchKeepsOldControls | Script.js:9-27 | after a results page beyond the first, a search whose fetch throws still shows that page's Previous control, which re-runs the earlier query |
| Legacy.LegacyIgnoresStatus | Script.js:15-17 | a renderable body is shown whatever the status, where the main frontend rejects a non-ok status |
| Controller.FailureScreen | script.js:115-128 | a failure shows "Search failed: " plus the error message, error text free of markup that decodes to the message, and no pager controls |
| Controller.SearchShowsFirstAnswer | script.js:115-129 | a search shows results only when some instance answers; the status then names the first answering instance and the listing is its payload rendered; conversely, when an instance answers, the screen is the first answering instance's rendered payload, or the failure screen for its render fault; with no answer the screen reports all instances failed |
| Controller.NoAnswerListsAllInstances | script.js:119-126 | when no instance answers, the status line lists every configured instance in order |
| Controller.AcceptedButUnrenderable | script.js:50-52 | a truthy non-array `results` whose `length` is not 0 is accepted by the first instance, which is the only one tried, and the search ends in a TypeError |
| Controller.AcceptedZeroLengthListsNothing | script.js:83-86 | `{"results": {"length": 0}}` is accepted too and shows "No results" from the first instance |
| Controller.SecondInstanceServes | script.js:115-129 | with the deployed configuration, a first instance timing out and a second returning one plain item, the page names the second instance, shows that item verbatim and has no pager controls |
| Controller.SecondInstanceAnswers | script.js:62-69 | in that setting the second instance serves after both were tried |
| Controller.OnePlainItemRenders | script.js:83-112 | one plain item on page 1 renders as one verbatim card with no pager controls |
| Controller.TrimCutsSpaceOnly | script.js:133 | `trim` removes only leading and trailing white space and keeps the middle as is |
| Controller.TrimBlank | script.js:133-134 | the trimmed query is empty exactly when the input is all white space |
| Controller.TrimIdempotent | script.js:133 | trimming twice is trimming once |
| Controller.Submit | script.js:131-136 | submitting starts a search exactly when the input has a non-space character, with the trimmed, non-empty query on page 1 (the legacy handler at Script.js lines 58-62 does the same) |
| Controller.ReachedPagesStayPositive | script.js:105-112 | from a page at least 1, Previous and Next lead to pages at least 1, so the request always carries `pageno = page - 1` |

`Controller.Search` (script.js:115-129, `runSearch`) and `Controller.Trim`
(script.js:133, `String.prototype.trim`) carry no contract of their own.
The properties of `Search` are stated by `Controller.SearchShowsFirstAnswer`,
`Controller.NoAnswerListsAllInstances`, `Controller.AcceptedButUnrenderable`
and `Controller.SecondInstanceServes`. Those of `Trim` are stated by
`Controller.TrimCutsSpaceOnly`, `Controller.TrimBlank` and
`Controller.TrimIdempotent`.

## Left out

- The network, `fetch` with CORS mode and `res.json()` are not modelled. What
  each request returned is an input to the model: for the main frontend a
  `Resolver.Probe` per instance, for the legacy frontend a `Legacy.Reply`.
- The `Promise.race` timeout is not modelled. A timeout is one of the
  possible outcomes of a request, so `CONFIG.timeoutMs` has no effect in the
  model.
- The model assumes every request ends. In the main frontend the timeout
  bounds only the wait for the response headers: `resp.json()` is awaited
  without one, so a body that stalls keeps `tryInstance` waiting forever,
  the fallback URL and later instances are never tried, and the page stays
  on "Searching...". The legacy frontend has no timeout at all, so any
  stalled request does the same. Every `Resolver.Attempt` and `Legacy.Reply`
  in the model is a finished outcome.
- The `URL` constructor is modelled only by whether the base parses, which
  decides both URLs of an instance together. URL serialisation and
  percent-encoding (`searchParams.set`, `encodeURIComponent`) are not
  modelled: a URL is a base and an ordered parameter list.
- The DOM is not modelled. The page is the final `Screen`, so these are not
  part of the model:
  - the intermediate "Searching..." state
  - the markup around the texts
  - the fixed "Try a different instance" hint
  - cards inserted before a later item throws (the screen is replaced by the
    error either way)
- Console logging is not modelled.
- Overlapping searches are not modelled. A submit or pager click while a
  search is pending starts another one, nothing cancels the first, and
  whichever finishes last overwrites the page. The model treats each search
  on its own.
- The model does not inspect URL schemes. `esc` keeps a backend-supplied
  `javascript:` URL intact, so it becomes a live link target; the model
  only proves that no markup character reaches the page.
- Numbers are integers. Floating point, `NaN`, `-0` and exponent notation in
  `String(n)` are not modelled.
- A property read sees the fields of an object and the `length` of an array
  or string, nothing else. Inherited members (a string item's `link` method,
  say) read as undefined.
- String lengths count characters, not UTF-16 code units.
- The text of an engine's TypeError is modelled as the constant "TypeError".
- JsValue.ToJsString: does not model an object whose own `toString` field
  (which JSON parsing can create, and which is never callable) makes
  `toString()`, a template literal or `join` throw a TypeError. On an item
  such as `{"title": {"toString": 1}}` the page script fails the search,
  while the model renders the title "[object Object]". This affects
  `Html.Esc`, `Render.ItemCard` (which then fails only on null or undefined
  items), `Render.RenderResults` and `Controller.Search`.
- `Script.js` reads `CONFIG.instanceBase`, which `config.js` does not define.
  The legacy model therefore takes the base as a parameter.
- Request.PageNoAgreesOnUserPages: the two frontends send the same base and
  parameter list, but the same URL only when the base is a bare origin. The
  main frontend's `new URL('/search', base)` replaces the base's path with
  `/search`, while the legacy frontend appends `/search` to the base text
  (for `https://h.example/searx/` it requests `https://h.example/searx//search`).
  The model's `Url` records the base as given and does not tell these apart.
- Controller.SecondInstanceServes: is stated for any single item with plain
  string title, url and content rather than one literal payload.
