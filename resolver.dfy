/**
 * The fetch/fallback resolver of the main frontend: `tryInstance` sends up
 * to two requests to one instance and returns the first payload whose shape
 * it accepts; `fetchFromInstances` tries the configured instances strictly
 * in order and stops at the first that answers.
 *
 * The network is an input: for each instance a `Probe` says whether its
 * base address parses and what each of its two requests would come back
 * with. A timeout is one such outcome.
 */
module Resolver {
  import opened JsValue
  import opened Faults
  import opened Request

  /** What one request comes back with. */
  datatype Attempt =
    | TimedOut                                  // the timeout won the race
    | Rejected(message: string)                 // fetch rejected, or the body is not JSON
    | Responded(status: int, body: Value)       // an HTTP response with its parsed body

  /** The network as seen from one instance. */
  datatype Probe = Probe(baseParses: bool, primary: Attempt, fallback: Attempt)

  datatype Verdict = Accept(json: Value) | Reject(fault: Fault)

  /** A successful search: the payload, the instance that served it, and every instance contacted. */
  datatype Served = Served(json: Value, usedInstance: string, tried: seq<string>)

  const TimeoutMessage := "timeout"

  /** `resp.ok` */
  predicate IsOk(status: int) {
    200 <= status <= 299
  }

  /** The payloads the frontend accepts: `results` is an array, or one of `results`, `error`, `query` is truthy. */
  predicate AcceptableShape(json: Value)
    requires !Nullish(json)
  {
    IsArray(Prop(json, "results"))
    || Truthy(Prop(json, "results")) || Truthy(Prop(json, "error")) || Truthy(Prop(json, "query"))
  }

  /**
   * One pass of the loop body in `tryInstance`: a non-ok status, a thrown
   * error or timeout, a null body (reading `.results` of it throws) and an
   * unrecognised shape are rejections; anything else is accepted as is.
   */
  function Classify(base: string, a: Attempt): (v: Verdict)
    ensures v.Accept? <==> a.Responded? && IsOk(a.status) && !Nullish(a.body) && AcceptableShape(a.body)
    ensures v.Accept? ==> v.json == a.body
    ensures a.Responded? && !IsOk(a.status) ==> v == Reject(HttpStatus(a.status, base))
    ensures a.TimedOut? ==> v == Reject(Thrown(TimeoutMessage))
    ensures a.Rejected? ==> v == Reject(Thrown(a.message))
    ensures a.Responded? && IsOk(a.status) && Nullish(a.body) ==> v == Reject(TypeFault)
    ensures a.Responded? && IsOk(a.status) && !Nullish(a.body) && !AcceptableShape(a.body) ==> v == Reject(UnexpectedShape(base))
  {
    match a
    case TimedOut => Reject(Thrown(TimeoutMessage))
    case Rejected(message) => Reject(Thrown(message))
    case Responded(status, body) =>
      if !IsOk(status) then Reject(HttpStatus(status, base))
      else if Nullish(body) then Reject(TypeFault)
      else if IsArray(Prop(body, "results")) then Accept(body)
      else if Truthy(body) && (Truthy(Prop(body, "results")) || Truthy(Prop(body, "error")) || Truthy(Prop(body, "query")))
      then Accept(body)
      else Reject(UnexpectedShape(base))
  }

  predicate Accepts(base: string, a: Attempt) {
    Classify(base, a).Accept?
  }

  /** The outcomes of the URLs in `urlsToTry`, in the same order. */
  function Outcomes(probe: Probe): seq<Attempt> {
    if probe.baseParses then [probe.primary, probe.fallback] else []
  }

  /** The loop of `tryInstance` over the remaining outcomes, with the last error recorded so far. */
  function TryUrls(base: string, outs: seq<Attempt>, lastErr: Option<Fault>): Result<Value> {
    if outs == [] then
      Err(if lastErr.Some? then lastErr.value else NoUsableResponse(base))
    else
      match Classify(base, outs[0])
      case Accept(json) => Ok(json)
      case Reject(f) => TryUrls(base, outs[1..], Some(f))
  }

  /** What `tryInstance(base, q, page)` returns or throws. */
  function TryInstanceResult(base: string, probe: Probe): Result<Value> {
    TryUrls(base, Outcomes(probe), None)
  }

  /**
   * The loop of `tryInstance` returns the first accepted payload; it fails
   * only if no outcome is accepted, and then with the last rejection's
   * fault, or with the error it started from when there was nothing to try.
   */
  lemma {:induction false} TryUrlsFirstAccepted(base: string, outs: seq<Attempt>, lastErr: Option<Fault>)
    ensures TryUrls(base, outs, lastErr).Ok? <==> exists k :: 0 <= k < |outs| && Accepts(base, outs[k])
    ensures TryUrls(base, outs, lastErr).Ok? ==>
              exists k :: 0 <= k < |outs| && Classify(base, outs[k]) == Accept(TryUrls(base, outs, lastErr).value)
                          && forall j :: 0 <= j < k ==> !Accepts(base, outs[j])
    ensures TryUrls(base, outs, lastErr).Err? && outs != [] ==>
              TryUrls(base, outs, lastErr).fault == Classify(base, outs[|outs| - 1]).fault
    ensures outs == [] ==> TryUrls(base, outs, lastErr) == Err(if lastErr.Some? then lastErr.value else NoUsableResponse(base))
  {
    if outs != [] {
      var v := Classify(base, outs[0]);
      if v.Reject? {
        var rest := outs[1..];
        TryUrlsFirstAccepted(base, rest, Some(v.fault));
        var r := TryUrls(base, outs, lastErr);
        assert r == TryUrls(base, rest, Some(v.fault));
        if r.Ok? {
          var k :| 0 <= k < |rest| && Classify(base, rest[k]) == Accept(r.value)
                   && forall j :: 0 <= j < k ==> !Accepts(base, rest[j]);
          assert outs[k + 1] == rest[k];
          forall j | 0 <= j < k + 1 ensures !Accepts(base, outs[j]) {
            if j > 0 { assert outs[j] == rest[j - 1]; }
          }
        } else {
          forall k | 0 <= k < |outs| ensures !Accepts(base, outs[k]) {
            if k > 0 { assert outs[k] == rest[k - 1]; }
          }
          if rest != [] {
            assert outs[|outs| - 1] == rest[|rest| - 1];
          }
        }
      }
    }
  }

  /**
   * `tryInstance` in terms of its two requests: no buildable URL gives
   * "No usable response from <base>"; otherwise the primary URL's payload if
   * accepted, else the fallback's, else the fallback's rejection.
   */
  lemma TryInstanceOutcome(base: string, probe: Probe)
    ensures !probe.baseParses ==> TryInstanceResult(base, probe) == Err(NoUsableResponse(base))
    ensures probe.baseParses && Accepts(base, probe.primary) ==>
              TryInstanceResult(base, probe) == Ok(probe.primary.body)
    ensures probe.baseParses && !Accepts(base, probe.primary) && Accepts(base, probe.fallback) ==>
              TryInstanceResult(base, probe) == Ok(probe.fallback.body)
    ensures probe.baseParses && !Accepts(base, probe.primary) && !Accepts(base, probe.fallback) ==>
              TryInstanceResult(base, probe) == Err(Classify(base, probe.fallback).fault)
  {
    var outs := Outcomes(probe);
    if probe.baseParses {
      assert outs[1..] == [probe.fallback] && outs[1..][1..] == [];
      var vp := Classify(base, probe.primary);
      if vp.Reject? {
        assert TryInstanceResult(base, probe) == TryUrls(base, [probe.fallback], Some(vp.fault));
        var vf := Classify(base, probe.fallback);
        if vf.Reject? {
          assert TryUrls(base, [probe.fallback], Some(vp.fault)) == TryUrls(base, [], Some(vf.fault));
        }
      }
    }
  }

  /**
   * `tryInstance`: tries the buildable URLs in order, records each failure
   * in `lastErr`, and returns the first accepted payload. `sent` lists the
   * URLs requested: a prefix of `urlsToTry` that ends at the accepted one,
   * or all of them when the instance fails.
   */
  method TryInstance(base: string, q: string, page: int, probe: Probe) returns (r: Result<Value>, sent: seq<Url>)
    ensures r == TryInstanceResult(base, probe)
    ensures |sent| <= |UrlsToTry(base, q, page, probe.baseParses)|
    ensures sent == UrlsToTry(base, q, page, probe.baseParses)[..|sent|]
    ensures forall j :: 0 <= j < |sent| - 1 ==> !Accepts(base, Outcomes(probe)[j])
    ensures r.Ok? ==> sent != [] && Classify(base, Outcomes(probe)[|sent| - 1]) == Accept(r.value)
    ensures r.Err? ==> sent == UrlsToTry(base, q, page, probe.baseParses)
  {
    var urls := UrlsToTry(base, q, page, probe.baseParses);
    var outs := Outcomes(probe);
    var lastErr: Option<Fault> := None;
    sent := [];
    var i := 0;
    while i < |urls|
      invariant 0 <= i <= |urls| == |outs|
      invariant sent == urls[..i]
      invariant forall j :: 0 <= j < i ==> !Accepts(base, outs[j])
      invariant TryUrls(base, outs[i..], lastErr) == TryUrls(base, outs, None)
    {
      sent := sent + [urls[i]];
      var verdict := Classify(base, outs[i]);
      match verdict {
        case Accept(json) =>
          r := Ok(json);
          return;
        case Reject(f) =>
          lastErr := Some(f);
      }
      assert outs[i..][1..] == outs[i + 1..];
      i := i + 1;
    }
    r := Err(if lastErr.Some? then lastErr.value else NoUsableResponse(base));
  }

  /** The loop of `fetchFromInstances` from instance `i` on. */
  function FetchFrom(instances: seq<string>, network: seq<Probe>, i: nat): Result<Served>
    requires |network| == |instances| && i <= |instances|
    decreases |instances| - i
  {
    if i == |instances| then Err(AllInstancesFailed(instances))
    else match TryInstanceResult(instances[i], network[i])
      case Ok(json) => Ok(Served(json, instances[i], instances[..i + 1]))
      case Err(_) => FetchFrom(instances, network, i + 1)
  }

  /** What `fetchFromInstances(q, page)` returns or throws. */
  function Fetch(instances: seq<string>, network: seq<Probe>): Result<Served>
    requires |network| == |instances|
  {
    FetchFrom(instances, network, 0)
  }

  /** Instance `k` answers: `tryInstance` returns a payload for it. */
  predicate Answers(instances: seq<string>, network: seq<Probe>, k: nat)
    requires |network| == |instances| && k < |instances|
  {
    TryInstanceResult(instances[k], network[k]).Ok?
  }

  lemma {:induction false} FetchFromFirstAnswer(instances: seq<string>, network: seq<Probe>, i: nat)
    requires |network| == |instances| && i <= |instances|
    decreases |instances| - i
    ensures FetchFrom(instances, network, i).Ok? <==> exists k :: i <= k < |instances| && Answers(instances, network, k)
    ensures FetchFrom(instances, network, i).Ok? ==>
              exists k :: i <= k < |instances| && Answers(instances, network, k)
                && FetchFrom(instances, network, i).value
                   == Served(TryInstanceResult(instances[k], network[k]).value, instances[k], instances[..k + 1])
                && forall j :: i <= j < k ==> !Answers(instances, network, j)
    ensures FetchFrom(instances, network, i).Err? ==> FetchFrom(instances, network, i).fault == AllInstancesFailed(instances)
  {
    if i == |instances| {
      assert FetchFrom(instances, network, i) == Err(AllInstancesFailed(instances));
    } else if Answers(instances, network, i) {
      assert FetchFrom(instances, network, i).value
             == Served(TryInstanceResult(instances[i], network[i]).value, instances[i], instances[..i + 1]);
    } else {
      FetchFromFirstAnswer(instances, network, i + 1);
      assert FetchFrom(instances, network, i) == FetchFrom(instances, network, i + 1);
      if FetchFrom(instances, network, i).Ok? {
        var k :| i + 1 <= k < |instances| && Answers(instances, network, k)
                 && FetchFrom(instances, network, i + 1).value
                    == Served(TryInstanceResult(instances[k], network[k]).value, instances[k], instances[..k + 1])
                 && forall j :: i + 1 <= j < k ==> !Answers(instances, network, j);
        assert forall j :: i <= j < k ==> !Answers(instances, network, j);
      }
    }
  }

  /**
   * `fetchFromInstances` is served by the first instance, in configured
   * order, that answers: `usedInstance` is that instance, the payload is
   * its payload, `tried` is exactly the instances up to and including it,
   * and every instance before it failed. It fails only when no instance
   * answers, and then names all of them.
   */
  lemma FetchServedByFirstAnswer(instances: seq<string>, network: seq<Probe>)
    requires |network| == |instances|
    ensures Fetch(instances, network).Ok? <==> exists k :: 0 <= k < |instances| && Answers(instances, network, k)
    ensures Fetch(instances, network).Ok? ==>
              exists k :: 0 <= k < |instances| && Answers(instances, network, k)
                && Fetch(instances, network).value.usedInstance == instances[k]
                && Fetch(instances, network).value.tried == instances[..k + 1]
                && Fetch(instances, network).value.json == TryInstanceResult(instances[k], network[k]).value
                && forall j :: 0 <= j < k ==> !Answers(instances, network, j)
    ensures Fetch(instances, network).Err? ==>
              Fetch(instances, network).fault == AllInstancesFailed(instances)
              && Message(Fetch(instances, network).fault) == AllFailedPrefix + Join(instances, ", ")
  {
    FetchFromFirstAnswer(instances, network, 0);
  }

  /** When the first configured instance answers, no other instance is contacted. */
  lemma FirstInstanceAnswers(instances: seq<string>, network: seq<Probe>)
    requires |network| == |instances| && 0 < |instances|
    requires Answers(instances, network, 0)
    ensures Fetch(instances, network).Ok?
    ensures Fetch(instances, network).value.usedInstance == instances[0]
    ensures Fetch(instances, network).value.tried == [instances[0]]
  {
  }

  /**
   * `fetchFromInstances`: pushes each instance onto `tried` before trying
   * it, returns the first payload with the instance that served it, and
   * otherwise throws "All instances failed: " followed by `tried`.
   */
  method FetchFromInstances(instances: seq<string>, network: seq<Probe>, q: string, page: int)
    returns (r: Result<Served>)
    requires |network| == |instances|
    ensures r == Fetch(instances, network)
  {
    var tried: seq<string> := [];
    var i := 0;
    while i < |instances|
      invariant 0 <= i <= |instances|
      invariant tried == instances[..i]
      invariant FetchFrom(instances, network, i) == Fetch(instances, network)
    {
      var inst := instances[i];
      tried := tried + [inst];
      assert tried == instances[..i + 1];
      var json, _ := TryInstance(inst, q, page, network[i]);
      if json.Ok? {
        return Ok(Served(json.value, inst, tried));
      }
      i := i + 1;
    }
    assert tried == instances;
    return Err(AllInstancesFailed(tried));
  }
}
