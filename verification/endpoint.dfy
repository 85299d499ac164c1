/** Endpoint composition of the proxy (`get_instance_endpoint`). The
    `describe_instances` call is an abstract outcome. */
module Endpoint {
  import opened Wrappers
  import opened Strings

  /** What `describe_instances` yields for the instance: a failure (any
      exception, including a missing reservation or instance) or the
      instance's optional public and private addresses. */
  datatype Description =
    | DescribeFailed
    | Described(publicIp: Option<string>, privateIp: Option<string>)

  /** Python truthiness of an optional string. */
  predicate Truthy(a: Option<string>) {
    a.Some? && a.value != ""
  }

  /** `f"http://{ip}:{port}"`. */
  function BaseUrl(ip: string, port: string): string {
    "http://" + ip + ":" + port
  }

  /** The base URL of the instance: the public address when non-empty,
      otherwise the private one; `None` when neither is usable or the
      describe call failed. */
  function InstanceEndpoint(d: Description, port: string): (r: Option<string>)
    ensures r.Some? <==> d.Described? && (Truthy(d.publicIp) || Truthy(d.privateIp))
    ensures r.Some? ==> StartsWith(r.value, "http://")
    ensures d.Described? && Truthy(d.publicIp) ==> r == Some(BaseUrl(d.publicIp.value, port))
    ensures d.Described? && !Truthy(d.publicIp) && Truthy(d.privateIp) ==>
              r == Some(BaseUrl(d.privateIp.value, port))
  {
    match d
    case DescribeFailed => None
    case Described(pub, priv) =>
      var ip := if Truthy(pub) then pub else priv;
      if Truthy(ip) then Some(BaseUrl(ip.value, port)) else None
  }

  /** A non-empty public address hides the private one entirely. */
  lemma PublicAddressWins(pub: string, priv1: Option<string>, priv2: Option<string>, port: string)
    requires pub != ""
    ensures InstanceEndpoint(Described(Some(pub), priv1), port)
         == InstanceEndpoint(Described(Some(pub), priv2), port)
  {
  }
}
