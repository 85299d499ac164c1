# Wake-on-request proxy and idle reaper, modelled in Dafny

The system has two AWS Lambda handlers that keep a Docker application on an
EC2 instance that is switched off when idle.

- **The proxy** (`lambda_proxy.py`) handles each HTTP request.
  - It resolves the request path to an instance id and a port from the
    environment (`INSTANCE_ID_1`…`INSTANCE_ID_99`, `DOCKER_PORT_n`,
    `INSTANCE_ID`, `DOCKER_PORT`).
  - It looks up the instance's public address, falling back to the private
    address, and probes the root path for HTTP 200.
  - If the probe fails, it starts the instance, waits for it to run, looks
    up the address again and polls up to 30 times with a sleep after each
    failed attempt.
  - It then forwards the request. `Host` and `Content-Length` are stripped
    from the forwarded headers. The answer is relayed either as text or
    base64-encoded, with fixed CORS headers; any failure while forwarding
    becomes a 502.
- **The reaper** (`lambda_stop_idle.py`) runs on a schedule.
  - For every running instance, it reads the first CPU-average, NetworkIn-sum
    and NetworkOut-sum datapoints of the last half hour.
  - It stops the instance when CPU ≤ 10 % and each network value that is
    present is ≤ 1 MiB. Missing CPU data keeps the instance running.

Every collaborator is an abstract outcome the model receives as input: EC2,
CloudWatch, HTTP, the clock, `time.sleep`, UTF-8 and base64. The proxy
handler is a pure function from a `World` of these outcomes and the event to
the response plus the trace of effects it performed: describe, probe,
start, wait, sleep and forward.

Modules:

- `Wrappers`: `Option`, `Result`.
- `Strings`: prefix test, decimal rendering, ASCII lower-casing.
- `Envelope`: the Lambda response.
- `Routing`: `get_instance_config`.
- `Endpoint`: `get_instance_endpoint`.
- `Forwarder`: `forward_request`.
- `Proxy`: the proxy's `lambda_handler`.
- `Reaper`: the reaper's `lambda_handler`.

Where the code and its documentation differ, the model follows the code:

- Only `Content-Type` and the three CORS headers are relayed; every other
  backend header is dropped.
- A backend answer without `Content-Type` is classified `text/html`, so it
  is decoded as text.
- The `Content-Type` lookup in `dict(response.headers)` is case-sensitive. A
  backend that sends `content-type` is treated as `text/html`
  (`Forwarder.LowerCaseKeyIsIgnored`).
- The reaper has no per-instance error handling. The first metric query or
  stop call that raises ends the whole run, and no later instance is
  examined (`Reaper.FirstFailureEndsRun`).
- The `/app1` route reads the same variables as slot 1 of the numbered scan,
  so routing never depends on the path (`Routing.ResolveIgnoresPath`).

## Model

| member | source | states |
|---|---|---|
| `Routing.ResolveConfig` | lambda_proxy.py:81-105 | a resolved route always has a non-empty instance id and health path `/` |
| `Routing.ScanSlots` | lambda_proxy.py:94-98 | a slot found by the numbered scan has a non-empty id and health path `/` |
| `Routing.ScanFindsFirst` | lambda_proxy.py:94-98 | the scan from slot i returns the lowest configured slot at or above i, with its port defaulting to 5000 only when `DOCKER_PORT_n` is absent |
| `Routing.ScanNoneIffUnset` | lambda_proxy.py:94-99 | the scan finds nothing exactly when every slot from i to 99 is absent or empty |
| `Routing.SingleInstance` | lambda_proxy.py:100-105 | the single-instance fallback resolves exactly when `INSTANCE_ID` is non-empty, with that id and `DOCKER_PORT` or 5000 |
| `Routing.ResolvePicksFirstSlot` | lambda_proxy.py:83-98 | whatever the path, the route is the lowest configured slot; the `/app1` branch agrees with it |
| `Routing.ResolveSingleFallback` | lambda_proxy.py:93-105 | `INSTANCE_ID` is consulted only when no slot is set, and nothing resolves exactly when no slot and no `INSTANCE_ID` are set |
| `Routing.ResolveIgnoresPath` | lambda_proxy.py:83-91 | two request paths always resolve to the same route |
| `Endpoint.InstanceEndpoint` | lambda_proxy.py:107-122 | an endpoint exists exactly when the describe call succeeded and the public or private address is non-empty; it is `http://` + public address (preferred) or private address + `:` + port |
| `Endpoint.PublicAddressWins` | lambda_proxy.py:113-117 | with a non-empty public address, the private address does not affect the endpoint |
| `Forwarder.ForwardHeaders` | lambda_proxy.py:140-142 | a header is forwarded exactly when its lower-cased key is neither `host` nor `content-length`; with nothing to strip the list is unchanged |
| `Forwarder.ForwardHeadersAppend` | lambda_proxy.py:140-142 | header filtering keeps the inbound order, because it distributes over concatenation |
| `Forwarder.HopHeadersNeverForwarded` | lambda_proxy.py:140-142 | `Host`, `HOST` and `Content-Length` are never sent to the backend |
| `Forwarder.BuildRequest` | lambda_proxy.py:128-142 | the request goes to endpoint + event path (default `/`) with the filtered headers; it has a body exactly when the event body is non-empty; it is sent with the event method when that is non-empty, with `GET` when the event has none, and with `POST` or `GET` (body or not) when the event method is empty, as `urllib.request.Request` ignores an empty method |
| `Forwarder.BadGateway` | lambda_proxy.py:173-182 | the failure answer is 502 with origin `*`, JSON content type, error `Bad Gateway` and the failure detail |
| `Forwarder.ShapeResponse` | lambda_proxy.py:145-182 | a failed backend call gives the 502 with its detail, and every answer allows origin `*` |
| `Forwarder.ShapedResponse` | lambda_proxy.py:145-171 | an answer carries an `isBase64Encoded` key (true or false) exactly when it is relayed: the backend status, the Content-Type plus three CORS headers and nothing else; a non-textual body is the base64 of the bytes; a textual body is the decoded text, or a 502 when decoding fails |
| `Forwarder.ForwardRequest` | lambda_proxy.py:124-182 | the request target and headers are as built, `isBase64Encoded` is true exactly for a non-textual backend answer, and origin `*` is always allowed |
| `Forwarder.AbsentContentTypeIsText` | lambda_proxy.py:148-151 | without a Content-Type header the answer is classified as text |
| `Forwarder.LowerCaseKeyIsIgnored` | lambda_proxy.py:147-151 | every header map without the exact key `Content-Type` (in particular a lower-case `content-type` key with any value) reads as `text/html`; classification is a case-sensitive prefix test (`application/json; charset=utf-8` is text; `image/png`, `Text/html` and `application/javascript` are binary) |
| `Proxy.PollTrace` | lambda_proxy.py:61-70 | the post-start loop alternates probe and sleep, starting with a probe; it probes at most 30 times and stops early only on a 200; every earlier attempt failed; it sleeps once after each failed attempt, including the last |
| `Proxy.AlternatesAt` | lambda_proxy.py:62-70 | in the post-start trace every even position is a probe of the health URL and every odd position a sleep |
| `Proxy.WakeAndForward` | lambda_proxy.py:45-79 | after a failed probe the first new effect is the start; the handler either forwards last or answers 503 without forwarding |
| `Proxy.Handle` | lambda_proxy.py:9-79 | no route gives a 404 with no effects; at most one forward, and only as the last effect; headers are present exactly when it forwarded; otherwise the status is 404 or 503; a forward's response is the forwarder's; a healthy first probe means no start |
| `Proxy.NoAddressBeforeStart` | lambda_proxy.py:27-33 | no address before the start gives a 503 "Instance not found or no IP available" after one describe |
| `Proxy.WarmPathForwards` | lambda_proxy.py:35-41 | a healthy first probe gives exactly describe, probe of endpoint + `/`, then forward to endpoint + request path |
| `Proxy.StartFailureIsUnavailable` | lambda_proxy.py:45-79 | a failed start or wait gives 503 "Service temporarily unavailable" after the start was issued, and nothing is forwarded |
| `Proxy.StartedWithoutAddress` | lambda_proxy.py:53-59 | no address after the start gives the distinct 503 "Instance started but no IP available", with no forward |
| `Proxy.ColdPathWakes` | lambda_proxy.py:42-47 | a failed first probe hands over to the start path after exactly describe and probe |
| `Proxy.WakeTrace` | lambda_proxy.py:46-73 | once started and running with an address, the effects are start, wait, describe, the poll loop, then the forward |
| `Proxy.ColdPathForwards` | lambda_proxy.py:45-73 | the full cold-path trace; the request is forwarded to the new endpoint whether or not a poll succeeded; at most 30 polls |
| `Reaper.ShouldStop` | lambda_stop_idle.py:59-85 | stop exactly when the first CPU average exists and is ≤ 10, and each first network sum that exists is ≤ 1048576 |
| `Reaper.OnlyFirstDatapointMatters` | lambda_stop_idle.py:66-83 | only `Datapoints[0]` of each metric influences the decision |
| `Reaper.MissingDataAsymmetry` | lambda_stop_idle.py:65-83 | missing CPU data never stops an instance; a missing NetworkIn or NetworkOut series, alone or together, decides exactly as a zero sum would, so it never prevents a stop |
| `Reaper.DecisionTable` | lambda_stop_idle.py:68-83 | the thresholds are strict: any first CPU average above 10, or any first network sum above 1048576 in either direction, keeps the instance whatever the other series hold; values at or below both thresholds stop it; sample rows pin the edges |
| `Reaper.Visit` | lambda_stop_idle.py:24-89 | one instance raises exactly when a metric query raised or its stop call raised; a stop call is issued exactly when it is idle |
| `Reaper.Reap` | lambda_stop_idle.py:22-89 | the run completes exactly when no visit raises, and then it stopped exactly the idle instances, in order |
| `Reaper.IdleIdsMembership` | lambda_stop_idle.py:85-86 | an id is stopped exactly when some idle instance carries it |
| `Reaper.ReapAppend` | lambda_stop_idle.py:22-23 | the run over two consecutive stretches of instances is the first run followed, if it completed, by the second |
| `Reaper.FirstFailureEndsRun` | lambda_stop_idle.py:22-89 | when instance k is the first that raises, the run aborts having issued stop calls for exactly the idle instances up to and including k (k included when its own stop call raised) |
| `Reaper.VisitReservation` | lambda_stop_idle.py:23-89 | the inner loop over one reservation's instances continues the run begun by the earlier reservations |
| `Reaper.IdleCheck` | lambda_stop_idle.py:5-91 | a failed listing aborts with no stops; otherwise the run covers all reservations' instances in order; the 200 "Idle check completed" answer comes exactly when the run completed; a completed run stopped each reservation's idle instances in turn, in listing order |
| `Reaper.FlattenedStops` | lambda_stop_idle.py:22-23 | the idle instances of the flattened listing are those of each reservation in turn |
| `Reaper.IdleIdsAppend` | lambda_stop_idle.py:22-23 | the idle instances of two consecutive stretches are those of the first followed by those of the second |

## Left out

- The AWS calls are not modelled; each is an outcome given as input: `describe_instances`, `start_instances`, the `instance_running` waiter, `get_metric_statistics` and `stop_instances`. A call's inner retries and its error kinds are not modelled.
- The HTTP calls are outcomes too (`Probe`, `Upstream`).
  - `urlopen` follows redirects and returns only a final 2xx answer.
  - Every other final status falls under "raised", and so do a refused redirect and the 3, 5 and 30 second timeouts.
  - `Probe.Answered` and `Upstream.Reply` stand for that final answer. Their status ranges over all integers, which is wider than any status the source can see.
- The waiter's `Delay` of 15 and `MaxAttempts` of 20 are left out, because the waiter is one outcome.
- `time.sleep(10)` is only recorded as a `Sleep` effect. The duration is not modelled.
- Post-start probes beyond the supplied sequence read as failed. The model has no clock that could make them succeed.
- `print` logging and its float formatting are left out, because they have no effect on the result.
- UTF-8 decoding and base64 encoding are function parameters (`Codec`). No round trip between them is claimed, because they are library code.
- The JSON serialisation by `json.dumps` is not modelled. Bodies stay structured: an object's members in order, or a JSON string.
- Event fields that are present but JSON `null` are not modelled; an event field is either absent or a value. Field by field:
  - A `null` body gives no request body, which the model's absent body also gives.
  - A `null` method reaches `urllib.request.Request` as `None` and is then sent as `POST` or `GET`, like an empty method.
  - A `null` path raises in `get_instance_config` outside any handler, so the invocation fails with no response.
  - A `null` header list raises inside `forward_request` when its items are read, so the source answers 502. The model cannot express that event.
- `Request.add_header` capitalises header keys (`key.capitalize()`). This is library behaviour; the model records the headers as the handler passes them.
- `str.lower()` is modelled as ASCII lower-casing. The result is the same when the key is compared with `host` and `content-length`.
- The reaper's filter on instance state and instance type, and its list of instance types, belong to the listing call. The model takes the listing as given.
- The reaper's 30-minute window, `datetime.utcnow()` and the 1800 s period are left out: the datapoints are given.
- Metric values are reals. Float rounding and NaN are not modelled.
- A datapoint missing its `Average` or `Sum` key is not modelled; CloudWatch returns the requested statistic.
