/**
 * The top level of the main frontend: the deployed configuration, the
 * search form (trim the query, ignore a blank one, start on page 1) and
 * `runSearch`, which fetches from the instances and renders the payload,
 * or reports the error that either step throws.
 */
module Controller {
  import opened JsValue
  import opened Faults
  import opened Html
  import opened Request
  import opened Resolver
  import opened Render

  /** `CONFIG`: candidate instances in order, results per page, per-request timeout. */
  datatype Config = Config(instances: seq<string>, perPage: Option<int>, timeoutMs: int)

  /** The configuration the frontend ships with. */
  const Deployed := Config(
    [ "https://searx.tiekoetter.com",
      "https://searx.laquadrature.net",
      "https://searx.org",
      "https://searx.be",
      "https://searx.space" ],
    Some(10),
    8000)

  const ShowingPrefix := "Showing results from "
  const FailedPrefix := "Search failed: "

  /**
   * The screen after `runSearch` catches `err`: the status line carries the
   * message, and the results region the escaped message, which decodes back
   * to the message and cannot inject markup. No pager controls remain: the
   * search cleared them before fetching.
   */
  function FailureScreen(f: Fault): (s: Screen)
    ensures s.Failed? && s.status == FailedPrefix + Message(f)
    ensures Inert(s.errorHtml) && Unescape(s.errorHtml) == Message(f)
    ensures s.controls == Pager(None, None)
  {
    UnescapeEscape(Message(f));
    Failed(FailedPrefix + Message(f), Esc(Str(Message(f))), Pager(None, None))
  }

  /**
   * `runSearch(q, page)` with the network given by `network`: the rendered
   * listing and the instance that served it, or the failure screen for the
   * error thrown by `fetchFromInstances` or by `renderResults`.
   */
  function Search(cfg: Config, network: seq<Probe>, q: string, page: int): Screen
    requires |network| == |cfg.instances|
  {
    match Fetch(cfg.instances, network)
    case Err(f) => FailureScreen(f)
    case Ok(served) =>
      match RenderSpec(served.json, q, page, cfg.perPage, served.usedInstance)
      case Err(f) => FailureScreen(f)
      case Ok(listing) => Showing(ShowingPrefix + served.usedInstance, listing)
  }

  /**
   * A search shows results exactly when some instance answers and its
   * payload renders; the status line then names the first instance, in
   * configured order, that answered, and the listing is that instance's
   * payload rendered. Conversely, once an instance answers the screen is
   * decided by the first one that did: its rendered payload, or the failure
   * screen for the fault its rendering throws.
   */
  lemma SearchShowsFirstAnswer(cfg: Config, network: seq<Probe>, q: string, page: int)
    requires |network| == |cfg.instances|
    ensures Search(cfg, network, q, page).Showing? ==>
              exists k :: 0 <= k < |cfg.instances| && Answers(cfg.instances, network, k)
                && (forall j :: 0 <= j < k ==> !Answers(cfg.instances, network, j))
                && Search(cfg, network, q, page).status == ShowingPrefix + cfg.instances[k]
                && RenderSpec(TryInstanceResult(cfg.instances[k], network[k]).value, q, page, cfg.perPage, cfg.instances[k])
                   == Ok(Search(cfg, network, q, page).listing)
    ensures (forall k :: 0 <= k < |cfg.instances| ==> !Answers(cfg.instances, network, k)) ==>
              Search(cfg, network, q, page) == FailureScreen(AllInstancesFailed(cfg.instances))
    ensures forall k :: 0 <= k < |cfg.instances| && Answers(cfg.instances, network, k)
                        && (forall j :: 0 <= j < k ==> !Answers(cfg.instances, network, j)) ==>
              Search(cfg, network, q, page)
              == (var rs := RenderSpec(TryInstanceResult(cfg.instances[k], network[k]).value, q, page, cfg.perPage, cfg.instances[k]);
                  if rs.Ok? then Showing(ShowingPrefix + cfg.instances[k], rs.value) else FailureScreen(rs.fault))
  {
    FetchServedByFirstAnswer(cfg.instances, network);
    forall k | 0 <= k < |cfg.instances| && Answers(cfg.instances, network, k)
               && (forall j :: 0 <= j < k ==> !Answers(cfg.instances, network, j))
      ensures Search(cfg, network, q, page)
              == (var rs := RenderSpec(TryInstanceResult(cfg.instances[k], network[k]).value, q, page, cfg.perPage, cfg.instances[k]);
                  if rs.Ok? then Showing(ShowingPrefix + cfg.instances[k], rs.value) else FailureScreen(rs.fault))
    {
      var served := Fetch(cfg.instances, network);
      assert served.Ok?;
      var k' :| 0 <= k' < |cfg.instances| && Answers(cfg.instances, network, k')
                && served.value.usedInstance == cfg.instances[k']
                && served.value.json == TryInstanceResult(cfg.instances[k'], network[k']).value
                && forall j :: 0 <= j < k' ==> !Answers(cfg.instances, network, j);
      assert k' == k;
    }
  }

  /**
   * When no instance answers, the status line lists every configured
   * instance, in order.
   */
  lemma NoAnswerListsAllInstances(cfg: Config, network: seq<Probe>, q: string, page: int)
    requires |network| == |cfg.instances|
    requires forall k :: 0 <= k < |cfg.instances| ==> !Answers(cfg.instances, network, k)
    ensures Search(cfg, network, q, page).status == FailedPrefix + AllFailedPrefix + Join(cfg.instances, ", ")
  {
    FetchServedByFirstAnswer(cfg.instances, network);
    var f := AllInstancesFailed(cfg.instances);
    assert Fetch(cfg.instances, network) == Err(f);
    assert Search(cfg, network, q, page) == FailureScreen(f);
    assert Message(f) == AllFailedPrefix + Join(cfg.instances, ", ");
  }

  /**
   * The shape check of `tryInstance` accepts payloads that `renderResults`
   * cannot iterate: a truthy `results` that is not an array and whose
   * `length` is not 0 is accepted, so the instance serving it ends the
   * search with a TypeError and no later instance is asked.
   */
  lemma AcceptedButUnrenderable(cfg: Config, network: seq<Probe>, q: string, page: int, body: Value)
    requires |network| == |cfg.instances| && 0 < |cfg.instances|
    requires body.Obj? && Truthy(Prop(body, "results")) && !Prop(body, "results").Arr?
    requires Prop(Prop(body, "results"), "length") != Num(0)
    requires network[0].baseParses && network[0].primary == Responded(200, body)
    ensures Accepts(cfg.instances[0], network[0].primary)
    ensures Fetch(cfg.instances, network).Ok? && Fetch(cfg.instances, network).value.tried == [cfg.instances[0]]
    ensures Search(cfg, network, q, page) == FailureScreen(TypeFault)
  {
    TryInstanceOutcome(cfg.instances[0], network[0]);
    FirstInstanceAnswers(cfg.instances, network);
  }

  /**
   * The same `results` with `length` 0 is accepted too, but renders as no
   * results: `{"results": {"length": 0}}` from the first instance shows
   * "No results" from that instance.
   */
  lemma AcceptedZeroLengthListsNothing(cfg: Config, network: seq<Probe>, q: string, page: int)
    requires |network| == |cfg.instances| && 0 < |cfg.instances|
    requires network[0].baseParses && network[0].primary == Responded(200, Obj(map["results" := Obj(map["length" := Num(0)])]))
    ensures Search(cfg, network, q, page)
         == Showing(ShowingPrefix + cfg.instances[0], NoResults(Esc(Str(q)), Some(Esc(Str(cfg.instances[0])))))
  {
    var body := Obj(map["results" := Obj(map["length" := Num(0)])]);
    assert Prop(body, "results") == Obj(map["length" := Num(0)]);
    TryInstanceOutcome(cfg.instances[0], network[0]);
    FirstInstanceAnswers(cfg.instances, network);
  }

  /**
   * With the deployed configuration, a first instance that times out on
   * both requests and a second one that returns a single plain result: the
   * status names the second instance, one card shows the result verbatim,
   * and page 1 has no pager controls.
   */
  lemma SecondInstanceServes(network: seq<Probe>, q: string, item: Value)
    requires |network| == |Deployed.instances|
    requires network[0] == Probe(true, TimedOut, TimedOut)
    requires network[1] == Probe(true, Responded(200, Obj(map["results" := Arr([item])])), TimedOut)
    requires item.Obj? && !Truthy(Prop(item, "engine"))
    requires Plain(Prop(item, "title")) && Plain(Prop(item, "url")) && Plain(Prop(item, "content"))
    ensures Search(Deployed, network, q, 1)
         == Showing(ShowingPrefix + "https://searx.laquadrature.net",
                    Results([Card(Prop(item, "url").s, Prop(item, "title").s, Prop(item, "url").s, Prop(item, "content").s)],
                            Pager(None, None)))
  {
    var body := Obj(map["results" := Arr([item])]);
    assert Prop(body, "results") == Arr([item]);
    SecondInstanceAnswers(network, body);
    OnePlainItemRenders(body, item, q, Deployed.perPage, Deployed.instances[1]);
  }

  /** The fetch half of the scenario: the second instance serves, after both instances were tried. */
  lemma SecondInstanceAnswers(network: seq<Probe>, body: Value)
    requires |network| == |Deployed.instances|
    requires network[0] == Probe(true, TimedOut, TimedOut)
    requires network[1] == Probe(true, Responded(200, body), TimedOut)
    requires body.Obj? && Prop(body, "results").Arr?
    ensures Fetch(Deployed.instances, network) == Ok(Served(body, Deployed.instances[1], Deployed.instances[..2]))
  {
    var insts := Deployed.instances;
    TryInstanceOutcome(insts[0], network[0]);
    TryInstanceOutcome(insts[1], network[1]);
    assert !Answers(insts, network, 0) && Answers(insts, network, 1);
    assert FetchFrom(insts, network, 0) == FetchFrom(insts, network, 1);
  }

  /** The render half of the scenario: one plain item on page 1 gives one verbatim card and no pager controls. */
  lemma OnePlainItemRenders(body: Value, item: Value, q: string, perPage: Option<int>, used: string)
    requires NextThreshold(perPage) > 1
    requires body.Obj? && Prop(body, "results") == Arr([item])
    requires item.Obj? && !Truthy(Prop(item, "engine"))
    requires Plain(Prop(item, "title")) && Plain(Prop(item, "url")) && Plain(Prop(item, "content"))
    ensures RenderSpec(body, q, 1, perPage, used)
         == Ok(Results([Card(Prop(item, "url").s, Prop(item, "title").s, Prop(item, "url").s, Prop(item, "content").s)],
                       Pager(None, None)))
  {
    PlainFieldsPassThrough(item);
    OneItemRenders(body, item, q, 1, perPage, used);
  }

  /** JavaScript's WhiteSpace and LineTerminator characters, which `trim()` removes. */
  predicate IsJsSpace(c: char) {
    var n := c as int;
    (9 <= n <= 13) || n == 0x20 || n == 0xA0 || n == 0x1680 || (0x2000 <= n <= 0x200A)
    || n == 0x2028 || n == 0x2029 || n == 0x202F || n == 0x205F || n == 0x3000 || n == 0xFEFF
  }

  /** The number of white-space characters `s` starts with. */
  function LeadingSpace(s: string): (n: nat)
    ensures n <= |s|
    ensures forall k :: 0 <= k < n ==> IsJsSpace(s[k])
    ensures n < |s| ==> !IsJsSpace(s[n])
  {
    if s == [] || !IsJsSpace(s[0]) then 0 else 1 + LeadingSpace(s[1..])
  }

  /** The number of white-space characters `s` ends with. */
  function TrailingSpace(s: string): (n: nat)
    ensures n <= |s|
    ensures forall k :: |s| - n <= k < |s| ==> IsJsSpace(s[k])
    ensures n < |s| ==> !IsJsSpace(s[|s| - 1 - n])
  {
    if s == [] || !IsJsSpace(s[|s| - 1]) then 0 else 1 + TrailingSpace(s[..|s| - 1])
  }

  /** `String.prototype.trim` */
  function Trim(s: string): string {
    var i, j := LeadingSpace(s), |s| - TrailingSpace(s);
    if i < j then s[i..j] else ""
  }

  /**
   * `trim()` cuts a run of white space off each end and keeps the middle
   * intact: the result is the slice between the leading and the trailing
   * white space, and it starts and ends with a non-space character.
   */
  lemma TrimCutsSpaceOnly(s: string)
    ensures var i, t := LeadingSpace(s), Trim(s);
            i + |t| <= |s| && t == s[i..i + |t|]
            && (forall k :: 0 <= k < i ==> IsJsSpace(s[k]))
            && (forall k :: i + |t| <= k < |s| ==> IsJsSpace(s[k]))
    ensures Trim(s) != [] ==> !IsJsSpace(Trim(s)[0]) && !IsJsSpace(Trim(s)[|Trim(s)| - 1])
  {
    var i, j := LeadingSpace(s), |s| - TrailingSpace(s);
    var t := Trim(s);
    if i < j {
      assert t == s[i..j] && i + |t| == j;
      assert t[0] == s[i] && t[|t| - 1] == s[j - 1];
    } else {
      assert i == |s|;
      assert t == [] && t == s[i..i];
    }
  }

  /** `trim()` leaves nothing exactly when the input is all white space. */
  lemma TrimBlank(s: string)
    ensures Trim(s) == [] <==> forall k :: 0 <= k < |s| ==> IsJsSpace(s[k])
  {
    var i, j := LeadingSpace(s), |s| - TrailingSpace(s);
    if i < |s| {
      assert i < j && !IsJsSpace(s[i]);
    }
  }

  /** Trimming twice changes nothing. */
  lemma TrimIdempotent(s: string)
    ensures Trim(Trim(s)) == Trim(s)
  {
    var t := Trim(s);
    TrimCutsSpaceOnly(s);
    if t != [] {
      assert LeadingSpace(t) == 0;
      assert TrailingSpace(t) == 0;
      assert t[0..] == t;
    }
  }

  /**
   * `form.onsubmit`: the trimmed query, run from page 1, or nothing when
   * the input is blank.
   */
  function Submit(input: string): (r: Option<Rerun>)
    ensures r.Some? <==> exists k :: 0 <= k < |input| && !IsJsSpace(input[k])
    ensures r.Some? ==> r.value == Rerun(Trim(input), 1) && r.value.query != ""
  {
    TrimBlank(input);
    var q := Trim(input);
    if q == "" then None else Some(Rerun(q, 1))
  }

  /**
   * Every page a user reaches is at least 1: the form starts on page 1 and
   * each pager control of a page from 1 on leads to a page from 1 on. So the
   * clamp in the page number never applies, and the backend is asked for
   * `pageno = page - 1`.
   */
  lemma ReachedPagesStayPositive(q: string, page: int, count: int, threshold: Option<int>)
    requires page >= 1
    ensures var p := MakePager(q, page, count, threshold);
            (p.previous.Some? ==> p.previous.value.page >= 1 && PageNo(p.previous.value.page) == p.previous.value.page - 1)
            && (p.next.Some? ==> p.next.value.page >= 1 && PageNo(p.next.value.page) == page)
    ensures PageNo(page) == page - 1
  {
  }
}
