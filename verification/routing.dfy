/** Route resolution of the proxy (`get_instance_config`): which instance,
    on which port, serves a request path, read from the process environment. */
module Routing {
  import opened Wrappers
  import opened Strings

  /** The process environment, `os.environ`. */
  type Env = map<string, string>

  /** The one explicitly named route. */
  const App1Prefix := "/app1"
  /** Port used when a `DOCKER_PORT...` variable is absent. */
  const DefaultPort := "5000"
  /** Every route is health-checked at the root path. */
  const HealthPath := "/"
  /** The numbered scan covers `INSTANCE_ID_1` through `INSTANCE_ID_99`. */
  const LastSlot := 99
  const SingleIdKey := "INSTANCE_ID"
  const SinglePortKey := "DOCKER_PORT"

  /** The triple the resolver returns: instance id, port (as text) and health path. */
  datatype InstanceConfig = InstanceConfig(instanceId: string, port: string, healthPath: string)

  function IdKey(i: nat): string {
    "INSTANCE_ID_" + Decimal(i)
  }

  function PortKey(i: nat): string {
    "DOCKER_PORT_" + Decimal(i)
  }

  /** Python truthiness of `os.environ.get(key)`: present and non-empty. */
  predicate IsSet(env: Env, key: string) {
    key in env && env[key] != ""
  }

  /** `os.environ.get(key, default)`: the default is used only when the key is absent. */
  function EnvGet(env: Env, key: string, default: string): string {
    if key in env then env[key] else default
  }

  /** Slot `i` of the numbered scan is configured. */
  predicate SlotSet(env: Env, i: nat) {
    IsSet(env, IdKey(i))
  }

  /** Every slot 1..99 is unset. */
  predicate NoSlotSet(env: Env) {
    forall i :: 1 <= i <= LastSlot ==> !SlotSet(env, i)
  }

  /** `k` is the lowest configured slot. */
  predicate IsFirstSlot(env: Env, k: nat) {
    && 1 <= k <= LastSlot
    && SlotSet(env, k)
    && forall j :: 1 <= j < k ==> !SlotSet(env, j)
  }

  function SlotConfig(env: Env, i: nat): InstanceConfig
    requires SlotSet(env, i)
  {
    InstanceConfig(env[IdKey(i)], EnvGet(env, PortKey(i), DefaultPort), HealthPath)
  }

  /** The numbered scan from slot `i` upwards. */
  function ScanSlots(env: Env, i: nat): (r: Option<InstanceConfig>)
    ensures r.Some? ==> r.value.healthPath == HealthPath && r.value.instanceId != ""
    decreases LastSlot + 1 - i
  {
    if i > LastSlot then None
    else if SlotSet(env, i) then Some(SlotConfig(env, i))
    else ScanSlots(env, i + 1)
  }

  /** The single-instance fallback on `INSTANCE_ID` / `DOCKER_PORT`. */
  function SingleInstance(env: Env): (r: Option<InstanceConfig>)
    ensures r.Some? <==> IsSet(env, SingleIdKey)
    ensures r.Some? ==> r.value.instanceId == env[SingleIdKey]
    ensures r.Some? ==> r.value.port == (if SinglePortKey in env then env[SinglePortKey] else DefaultPort)
  {
    if IsSet(env, SingleIdKey) then
      Some(InstanceConfig(env[SingleIdKey], EnvGet(env, SinglePortKey, DefaultPort), HealthPath))
    else
      None
  }

  /** `get_instance_config(path)`: the `/app1` route, then the numbered scan,
      then the single-instance fallback. */
  function ResolveConfig(env: Env, path: string): (r: Option<InstanceConfig>)
    ensures r.Some? ==> r.value.healthPath == "/" && r.value.instanceId != ""
  {
    if StartsWith(path, App1Prefix) && IsSet(env, "INSTANCE_ID_1") then
      Some(InstanceConfig(env["INSTANCE_ID_1"], EnvGet(env, "DOCKER_PORT_1", DefaultPort), HealthPath))
    else
      match ScanSlots(env, 1)
      case Some(c) => Some(c)
      case None => SingleInstance(env)
  }

  /** The scan from `i` returns the first configured slot at or above `i`. */
  lemma {:induction false} ScanFindsFirst(env: Env, i: nat, k: nat)
    requires 1 <= i <= k <= LastSlot
    requires SlotSet(env, k)
    requires forall j :: i <= j < k ==> !SlotSet(env, j)
    ensures ScanSlots(env, i) == Some(SlotConfig(env, k))
    decreases k - i
  {
    if i < k {
      assert !SlotSet(env, i);
      ScanFindsFirst(env, i + 1, k);
    }
  }

  /** The scan from `i` finds nothing exactly when no slot at or above `i` is configured. */
  lemma {:induction false} ScanNoneIffUnset(env: Env, i: nat)
    requires 1 <= i <= LastSlot + 1
    ensures ScanSlots(env, i).None? <==> forall j :: i <= j <= LastSlot ==> !SlotSet(env, j)
    decreases LastSlot + 1 - i
  {
    if i <= LastSlot {
      ScanNoneIffUnset(env, i + 1);
      if !SlotSet(env, i) {
        assert ScanSlots(env, i) == ScanSlots(env, i + 1);
        assert (forall j :: i <= j <= LastSlot ==> !SlotSet(env, j))
           <==> (forall j :: i + 1 <= j <= LastSlot ==> !SlotSet(env, j));
      }
    }
  }

  /** Some slot configured implies a lowest one exists. */
  lemma {:induction false} FirstSlotExists(env: Env, k: nat)
    requires 1 <= k <= LastSlot && SlotSet(env, k)
    ensures exists m :: IsFirstSlot(env, m)
    decreases k
  {
    if forall j :: 1 <= j < k ==> !SlotSet(env, j) {
      assert IsFirstSlot(env, k);
    } else {
      var j :| 1 <= j < k && SlotSet(env, j);
      FirstSlotExists(env, j);
    }
  }

  lemma SlotOneKeys()
    ensures IdKey(1) == "INSTANCE_ID_1" && PortKey(1) == "DOCKER_PORT_1"
  {
    assert Decimal(1) == "1";
  }

  /** Whatever the path, the result is the lowest configured slot with its
      port defaulting to 5000: the `/app1` route yields exactly slot 1's triple. */
  lemma ResolvePicksFirstSlot(env: Env, path: string, k: nat)
    requires IsFirstSlot(env, k)
    ensures ResolveConfig(env, path) == Some(SlotConfig(env, k))
  {
    SlotOneKeys();
    ScanFindsFirst(env, 1, k);
    if StartsWith(path, App1Prefix) && IsSet(env, "INSTANCE_ID_1") {
      assert SlotSet(env, 1);
      assert k == 1;
    }
  }

  /** `INSTANCE_ID` / `DOCKER_PORT` are consulted only when all 99 slots are
      unset, and nothing resolves only when `INSTANCE_ID` is unset as well. */
  lemma ResolveSingleFallback(env: Env, path: string)
    ensures NoSlotSet(env) ==> ResolveConfig(env, path) == SingleInstance(env)
    ensures ResolveConfig(env, path).None? <==> NoSlotSet(env) && !IsSet(env, SingleIdKey)
  {
    SlotOneKeys();
    ScanNoneIffUnset(env, 1);
    if !NoSlotSet(env) {
      var k :| 1 <= k <= LastSlot && SlotSet(env, k);
      FirstSlotExists(env, k);
      var m :| IsFirstSlot(env, m);
      ResolvePicksFirstSlot(env, path, m);
    }
  }

  /** The route never depends on the request path. */
  lemma ResolveIgnoresPath(env: Env, p: string, q: string)
    ensures ResolveConfig(env, p) == ResolveConfig(env, q)
  {
    SlotOneKeys();
  }
}
