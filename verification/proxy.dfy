/** The proxy's request handler (`lambda_handler`): resolve the route,
    locate the instance, probe it, start it when the probe fails, poll its
    health, then forward. Every collaborator call is an abstract outcome
    drawn from a `World`; the handler returns the response together with the
    trace of effects it performed. */
module Proxy {
  import opened Wrappers
  import opened Envelope
  import opened Routing
  import opened Endpoint
  import opened Forwarder

  /** The answer of one health probe: an HTTP status, or an exception. */
  datatype Probe = Answered(status: int) | ProbeFailed

  /** A probe counts as healthy only on status 200. */
  predicate Healthy(p: Probe) {
    p.Answered? && p.status == 200
  }

  /** The outcomes the collaborators give during one invocation. */
  datatype World = World(
    env: Env,                    // the process environment
    firstDescribe: Description,  // the endpoint lookup before any start
    firstProbe: Probe,           // the health probe of that endpoint
    startAccepted: bool,         // `start_instances` returns instead of raising
    reachedRunning: bool,        // the `instance_running` waiter returns instead of raising
    secondDescribe: Description, // the endpoint lookup after the start
    pollProbes: seq<Probe>,      // the post-start probes, in order; missing ones fail
    upstream: Upstream,          // the forwarded call
    codec: Codec)

  /** One externally visible step of the handler. */
  datatype Effect =
    | DescribeInstance(instanceId: string)
    | HealthProbe(url: string)
    | StartInstance(instanceId: string)
    | WaitUntilRunning(instanceId: string)
    | Sleep
    | ForwardCall(request: OutgoingRequest)

  datatype Handled = Handled(response: Response, trace: seq<Effect>)

  /** The post-start loop probes at most this many times. */
  const MaxPollAttempts := 30

  const NoIpMessage := "Instance not found or no IP available"
  const StartedNoIpMessage := "Instance started but no IP available"
  const UnavailableMessage := "Service temporarily unavailable"

  /** The 404 returned when no route resolves. */
  function NotFound(path: string): Response {
    Response(404, None,
      JsonObject([("error", "Service not found"), ("path", path), ("debug", "No matching instance config")]),
      None)
  }

  /** A 503 carrying `message` as its error. */
  function Unavailable(message: string): Response {
    Response(503, None, JsonObject([("error", message)]), None)
  }

  /** The answer of post-start attempt `i`. */
  function PollAt(probes: seq<Probe>, i: nat): Probe {
    if i < |probes| then probes[i] else ProbeFailed
  }

  /** Number of health probes in a trace. */
  function CountProbes(t: seq<Effect>): nat {
    if |t| == 0 then 0 else (if t[0].HealthProbe? then 1 else 0) + CountProbes(t[1..])
  }

  /** Number of sleeps in a trace. */
  function CountSleeps(t: seq<Effect>): nat {
    if |t| == 0 then 0 else (if t[0].Sleep? then 1 else 0) + CountSleeps(t[1..])
  }

  /** The trace is probe, sleep, probe, sleep, ...: every sleep directly
      follows a probe, and every probe but possibly the last is followed by
      a sleep. */
  predicate Alternates(t: seq<Effect>, url: string)
    decreases |t|
  {
    if |t| == 0 then true
    else if |t| == 1 then t[0] == HealthProbe(url)
    else t[0] == HealthProbe(url) && t[1] == Sleep && Alternates(t[2..], url)
  }

  /** Position by position: probes at even positions, sleeps at odd ones. */
  lemma {:induction false} AlternatesAt(t: seq<Effect>, url: string, j: nat)
    requires Alternates(t, url) && j < |t|
    ensures t[j] == (if j % 2 == 0 then HealthProbe(url) else Sleep)
    decreases j
  {
    if j >= 2 {
      AlternatesAt(t[2..], url, j - 2);
      assert t[2..][j - 2] == t[j];
    }
  }

  /** Attempts `i` .. 29 of the post-start loop: probe, stop on the first
      healthy answer, otherwise sleep and try again. With `n` probes done,
      attempts `i` .. `i+n-2` all failed, the loop stops before attempt 29
      only on a healthy answer, and it sleeps once per failed attempt. */
  function PollTrace(url: string, probes: seq<Probe>, i: nat): (t: seq<Effect>)
    requires i <= MaxPollAttempts
    ensures forall e :: e in t ==> e == HealthProbe(url) || e == Sleep
    ensures Alternates(t, url)
    ensures i + CountProbes(t) <= MaxPollAttempts
    ensures forall j :: i <= j < i + CountProbes(t) - 1 ==> !Healthy(PollAt(probes, j))
    ensures i + CountProbes(t) < MaxPollAttempts ==>
              CountProbes(t) > 0 && Healthy(PollAt(probes, i + CountProbes(t) - 1))
    ensures CountSleeps(t) == CountProbes(t) -
              (if CountProbes(t) > 0 && Healthy(PollAt(probes, i + CountProbes(t) - 1)) then 1 else 0)
    decreases MaxPollAttempts - i
  {
    if i == MaxPollAttempts then []
    else if Healthy(PollAt(probes, i)) then [HealthProbe(url)]
    else
      var rest := PollTrace(url, probes, i + 1);
      var t := [HealthProbe(url), Sleep] + rest;
      assert t[1..] == [Sleep] + rest && t[1..][1..] == rest && t[2..] == rest;
      t
  }

  /** No forward in the trace. */
  predicate NoForward(t: seq<Effect>) {
    forall e :: e in t ==> !e.ForwardCall?
  }

  /** No start command in the trace. */
  predicate NoStart(t: seq<Effect>) {
    forall e :: e in t ==> !e.StartInstance?
  }

  /** The trace ends with a forward. */
  predicate EndsInForward(t: seq<Effect>) {
    |t| > 0 && t[|t| - 1].ForwardCall?
  }

  /** At most one forward, and only as the last effect. */
  predicate ForwardsAtMostOnceLast(t: seq<Effect>) {
    if EndsInForward(t) then NoForward(t[..|t| - 1]) else NoForward(t)
  }

  /** Append an effect that is not a forward. */
  function Record(prefix: seq<Effect>, e: Effect): (t: seq<Effect>)
    requires NoForward(prefix) && !e.ForwardCall?
    ensures NoForward(t) && !EndsInForward(t) && ForwardsAtMostOnceLast(t)
    ensures t == prefix + [e]
  {
    prefix + [e]
  }

  /** Hand the request to the forwarder after the effects in `prefix`. */
  function ForwardAfter(w: World, event: Event, endpoint: string, prefix: seq<Effect>): (out: Handled)
    requires NoForward(prefix)
    ensures out.trace == prefix + [ForwardCall(BuildRequest(event, endpoint))]
    ensures EndsInForward(out.trace) && ForwardsAtMostOnceLast(out.trace)
    ensures out.response == ShapeResponse(w.upstream, w.codec) && out.response.headers.Some?
  {
    var f := ForwardRequest(event, endpoint, w.upstream, w.codec);
    var t := prefix + [ForwardCall(f.sent)];
    assert t[..|t| - 1] == prefix;
    Handled(f.response, t)
  }

  /** The effects after a failed first probe: start, wait, relocate, poll, forward. */
  function WakeAndForward(w: World, event: Event, cfg: InstanceConfig, probed: seq<Effect>): (out: Handled)
    requires NoForward(probed)
    ensures ForwardsAtMostOnceLast(out.trace)
    ensures out.response.headers.Some? <==> EndsInForward(out.trace)
    ensures !EndsInForward(out.trace) ==> out.response.statusCode == 503
    ensures EndsInForward(out.trace) ==> out.response == ShapeResponse(w.upstream, w.codec)
    ensures |out.trace| > |probed| && out.trace[..|probed| + 1] == probed + [StartInstance(cfg.instanceId)]
  {
    var started := Record(probed, StartInstance(cfg.instanceId));
    if !w.startAccepted then Handled(Unavailable(UnavailableMessage), started)
    else
      var waited := Record(started, WaitUntilRunning(cfg.instanceId));
      if !w.reachedRunning then Handled(Unavailable(UnavailableMessage), waited)
      else
        var relocated := Record(waited, DescribeInstance(cfg.instanceId));
        match InstanceEndpoint(w.secondDescribe, cfg.port)
        case None => Handled(Unavailable(StartedNoIpMessage), relocated)
        case Some(endpoint2) =>
          var poll := PollTrace(endpoint2 + cfg.healthPath, w.pollProbes, 0);
          var polled := relocated + poll;
          assert NoForward(polled);
          var out := ForwardAfter(w, event, endpoint2, polled);
          assert out.trace[..|probed| + 1] == started;
          out
  }

  /** `lambda_handler(event, context)`. */
  function Handle(w: World, event: Event): (out: Handled)
    ensures ResolveConfig(w.env, EventPath(event)).None? ==>
              out == Handled(NotFound(EventPath(event)), [])
    ensures ForwardsAtMostOnceLast(out.trace)
    ensures out.response.headers.Some? <==> EndsInForward(out.trace)
    ensures !EndsInForward(out.trace) ==> out.response.statusCode in {404, 503}
    ensures EndsInForward(out.trace) ==> out.response == ShapeResponse(w.upstream, w.codec)
    ensures Healthy(w.firstProbe) ==> NoStart(out.trace)
  {
    var path := EventPath(event);
    match ResolveConfig(w.env, path)
    case None => Handled(NotFound(path), [])
    case Some(cfg) =>
      var located := [DescribeInstance(cfg.instanceId)];
      match InstanceEndpoint(w.firstDescribe, cfg.port)
      case None => Handled(Unavailable(NoIpMessage), located)
      case Some(endpoint) =>
        var probed := located + [HealthProbe(endpoint + cfg.healthPath)];
        if Healthy(w.firstProbe) then ForwardAfter(w, event, endpoint, probed)
        else WakeAndForward(w, event, cfg, probed)
  }

  /** Without an address before the start, the handler answers 503 and
      issues no start. */
  lemma NoAddressBeforeStart(w: World, event: Event, cfg: InstanceConfig)
    requires ResolveConfig(w.env, EventPath(event)) == Some(cfg)
    requires InstanceEndpoint(w.firstDescribe, cfg.port).None?
    ensures Handle(w, event) == Handled(Unavailable(NoIpMessage), [DescribeInstance(cfg.instanceId)])
  {
  }

  /** A healthy first probe forwards to that endpoint at once: the request
      path (not the health path) is appended and no start is issued. */
  lemma WarmPathForwards(w: World, event: Event, cfg: InstanceConfig, endpoint: string)
    requires ResolveConfig(w.env, EventPath(event)) == Some(cfg)
    requires InstanceEndpoint(w.firstDescribe, cfg.port) == Some(endpoint)
    requires Healthy(w.firstProbe)
    ensures Handle(w, event).trace ==
              [DescribeInstance(cfg.instanceId), HealthProbe(endpoint + "/"),
               ForwardCall(BuildRequest(event, endpoint))]
    ensures Handle(w, event).trace[2].request.url == endpoint + EventPath(event)
    ensures Handle(w, event).response == ShapeResponse(w.upstream, w.codec)
  {
  }

  /** A start or wait failure answers 503 "Service temporarily unavailable"
      after the start was issued, and nothing is forwarded. */
  lemma StartFailureIsUnavailable(w: World, event: Event, cfg: InstanceConfig)
    requires ResolveConfig(w.env, EventPath(event)) == Some(cfg)
    requires InstanceEndpoint(w.firstDescribe, cfg.port).Some?
    requires !Healthy(w.firstProbe)
    requires !w.startAccepted || !w.reachedRunning
    ensures Handle(w, event).response == Unavailable(UnavailableMessage)
    ensures StartInstance(cfg.instanceId) in Handle(w, event).trace
    ensures NoForward(Handle(w, event).trace)
  {
  }

  /** Losing the address after a successful start answers a 503 whose
      message differs from the one before the start. */
  lemma StartedWithoutAddress(w: World, event: Event, cfg: InstanceConfig)
    requires ResolveConfig(w.env, EventPath(event)) == Some(cfg)
    requires InstanceEndpoint(w.firstDescribe, cfg.port).Some?
    requires !Healthy(w.firstProbe) && w.startAccepted && w.reachedRunning
    requires InstanceEndpoint(w.secondDescribe, cfg.port).None?
    ensures Handle(w, event).response == Unavailable(StartedNoIpMessage)
    ensures Handle(w, event).response != Unavailable(NoIpMessage)
    ensures NoForward(Handle(w, event).trace)
  {
  }

  /** A failed first probe hands over to the wake path. */
  lemma ColdPathWakes(w: World, event: Event, cfg: InstanceConfig, endpoint: string)
    requires ResolveConfig(w.env, EventPath(event)) == Some(cfg)
    requires InstanceEndpoint(w.firstDescribe, cfg.port) == Some(endpoint)
    requires !Healthy(w.firstProbe)
    ensures Handle(w, event).trace ==
              WakeAndForward(w, event, cfg, [DescribeInstance(cfg.instanceId)] + [HealthProbe(endpoint + cfg.healthPath)]).trace
  {
  }

  /** The effects of the wake path once the instance runs and has an address. */
  lemma WakeTrace(w: World, event: Event, cfg: InstanceConfig, probed: seq<Effect>, endpoint2: string)
    requires NoForward(probed)
    requires w.startAccepted && w.reachedRunning
    requires InstanceEndpoint(w.secondDescribe, cfg.port) == Some(endpoint2)
    ensures WakeAndForward(w, event, cfg, probed).trace ==
              probed
              + [StartInstance(cfg.instanceId), WaitUntilRunning(cfg.instanceId), DescribeInstance(cfg.instanceId)]
              + PollTrace(endpoint2 + cfg.healthPath, w.pollProbes, 0)
              + [ForwardCall(BuildRequest(event, endpoint2))]
  {
    var relocated := probed + [StartInstance(cfg.instanceId), WaitUntilRunning(cfg.instanceId),
                               DescribeInstance(cfg.instanceId)];
    assert Record(Record(Record(probed, StartInstance(cfg.instanceId)), WaitUntilRunning(cfg.instanceId)),
                  DescribeInstance(cfg.instanceId)) == relocated;
  }

  /** After a successful start the handler polls the re-resolved endpoint
      and then forwards there whether or not a probe succeeded. */
  lemma ColdPathForwards(w: World, event: Event, cfg: InstanceConfig, endpoint: string, endpoint2: string)
    requires ResolveConfig(w.env, EventPath(event)) == Some(cfg)
    requires InstanceEndpoint(w.firstDescribe, cfg.port) == Some(endpoint)
    requires !Healthy(w.firstProbe) && w.startAccepted && w.reachedRunning
    requires InstanceEndpoint(w.secondDescribe, cfg.port) == Some(endpoint2)
    ensures cfg.healthPath == "/"
    ensures Handle(w, event).trace ==
              [DescribeInstance(cfg.instanceId)] + [HealthProbe(endpoint + cfg.healthPath)]
              + [StartInstance(cfg.instanceId), WaitUntilRunning(cfg.instanceId), DescribeInstance(cfg.instanceId)]
              + PollTrace(endpoint2 + cfg.healthPath, w.pollProbes, 0)
              + [ForwardCall(BuildRequest(event, endpoint2))]
    ensures CountProbes(PollTrace(endpoint2 + cfg.healthPath, w.pollProbes, 0)) <= MaxPollAttempts
  {
    ColdPathWakes(w, event, cfg, endpoint);
    WakeTrace(w, event, cfg, [DescribeInstance(cfg.instanceId)] + [HealthProbe(endpoint + cfg.healthPath)], endpoint2);
  }
}
