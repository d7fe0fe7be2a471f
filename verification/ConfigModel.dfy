/** The parts of a configuration that decide which endpoints a reload rebuilds. */
module ConfigModel {
  import opened Basics

  datatype Route = Route(backend: string, key: string)

  datatype Confirm = Confirm(backend: string, key: string, timeoutMs: nat)

  datatype Transform = Transform(scale: real, offset: real)

  datatype Access = Access(group: string, level: int)

  /** What names without an assignment of their own get. */
  datatype Defaults = Defaults(pv: Access, adminRead: Access, adminWrite: Access)

  /** `metadata`, `limits` and `initial` stand for the compared display, alarm-limit and initial-value fields. */
  datatype Endpoint = Endpoint(
    name: string, aliases: seq<string>, kind: nat, primitive: nat, shape: nat,
    read: Route, write: Option<Route>, confirm: Option<Confirm>, maxFrameBytes: nat,
    metadata: nat, limits: nat, transform: Option<Transform>, initial: nat, maxFrameGap: nat,
    healthRequired: bool, staleAfterMs: nat, access: Option<Access>)

  /** `connection` stands for every field of a Redis back end. */
  datatype Redis = Redis(connection: nat)

  /** `limits` stands for the operation limits and the discovery listener, `server` for instance, sockets and `access.enabled`. */
  datatype Config = Config(
    nameSpace: string, limits: nat, server: nat, endpoints: seq<Endpoint>, backends: map<string, Redis>, policy: nat, stream: Route,
    defaults: Defaults)

  function FullName(nameSpace: string, e: Endpoint): string {
    if nameSpace == "" then e.name else nameSpace + ":" + e.name
  }

  predicate SameReaderTopology(a: Endpoint, b: Endpoint) {
    && a.name == b.name && a.kind == b.kind && a.primitive == b.primitive && a.shape == b.shape
    && a.maxFrameBytes == b.maxFrameBytes && a.read == b.read && a.write == b.write && a.confirm == b.confirm
  }

  /** Everything a retained endpoint takes over by reconfiguration. */
  predicate SameDetails(a: Endpoint, b: Endpoint) {
    && a.metadata == b.metadata && a.limits == b.limits && a.transform == b.transform && a.initial == b.initial
    && a.maxFrameGap == b.maxFrameGap && a.healthRequired == b.healthRequired && a.staleAfterMs == b.staleAfterMs
  }

  function Elements<T>(s: seq<T>): set<T> {
    set x | x in s
  }

  /** The endpoints by full name; the first one wins. */
  function ByName(nameSpace: string, endpoints: seq<Endpoint>): map<string, Endpoint> {
    if endpoints == [] then map[]
    else
      var rest := ByName(nameSpace, endpoints[..|endpoints| - 1]);
      var last := endpoints[|endpoints| - 1];
      if FullName(nameSpace, last) in rest then rest else rest[FullName(nameSpace, last) := last]
  }

  function Endpoints(c: Config): map<string, Endpoint> {
    ByName(c.nameSpace, c.endpoints)
  }

  /** The back ends an endpoint uses. */
  function Uses(e: Endpoint): set<string> {
    {e.read.backend} + (if e.write.Some? then {e.write.value.backend} else {})
    + (if e.confirm.Some? then {e.confirm.value.backend} else {})
  }

  /** What parsing guarantees: full names are distinct and every route names a configured back end. */
  predicate WellFormed(c: Config) {
    && (forall i, j | 0 <= i < j < |c.endpoints| ::
          FullName(c.nameSpace, c.endpoints[i]) != FullName(c.nameSpace, c.endpoints[j]))
    && (forall i | 0 <= i < |c.endpoints| :: Uses(c.endpoints[i]) <= c.backends.Keys)
    && c.stream.backend in c.backends
  }

  lemma {:induction false} ByNameIs(nameSpace: string, endpoints: seq<Endpoint>)
    ensures forall i | 0 <= i < |endpoints| :: FullName(nameSpace, endpoints[i]) in ByName(nameSpace, endpoints)
    ensures forall name | name in ByName(nameSpace, endpoints) ::
              exists i | 0 <= i < |endpoints| :: endpoints[i] == ByName(nameSpace, endpoints)[name]
                                                 && FullName(nameSpace, endpoints[i]) == name
  {
    if endpoints != [] {
      var n := |endpoints| - 1;
      ByNameIs(nameSpace, endpoints[..n]);
      var rest := ByName(nameSpace, endpoints[..n]);
      var all := ByName(nameSpace, endpoints);
      forall i | 0 <= i < |endpoints|
        ensures FullName(nameSpace, endpoints[i]) in all
      {
        if i < n {
          assert endpoints[..n][i] == endpoints[i];
        }
      }
      forall name | name in all
        ensures exists i | 0 <= i < |endpoints| :: endpoints[i] == all[name] && FullName(nameSpace, endpoints[i]) == name
      {
        if name in rest {
          var i :| 0 <= i < |endpoints[..n]| && endpoints[..n][i] == rest[name] && FullName(nameSpace, endpoints[..n][i]) == name;
          assert endpoints[i] == all[name];
        } else {
          assert endpoints[n] == all[name];
        }
      }
    }
  }

  /** With distinct names there are as many names as endpoints. */
  lemma {:induction false} ByNameCount(nameSpace: string, endpoints: seq<Endpoint>)
    requires forall i, j | 0 <= i < j < |endpoints| :: FullName(nameSpace, endpoints[i]) != FullName(nameSpace, endpoints[j])
    ensures |ByName(nameSpace, endpoints)| == |endpoints|
  {
    hide FullName;
    if endpoints != [] {
      var n := |endpoints| - 1;
      ByNameCount(nameSpace, endpoints[..n]);
      LastIsNew(nameSpace, endpoints);
    }
  }

  lemma LastIsNew(nameSpace: string, endpoints: seq<Endpoint>)
    requires endpoints != []
    requires forall i, j | 0 <= i < j < |endpoints| :: FullName(nameSpace, endpoints[i]) != FullName(nameSpace, endpoints[j])
    ensures FullName(nameSpace, endpoints[|endpoints| - 1]) !in ByName(nameSpace, endpoints[..|endpoints| - 1])
  {
    hide FullName;
    var rest := endpoints[..|endpoints| - 1];
    ByNameIs(nameSpace, rest);
    forall name | name in ByName(nameSpace, rest)
      ensures name != FullName(nameSpace, endpoints[|endpoints| - 1])
    {
      var i :| 0 <= i < |rest| && rest[i] == ByName(nameSpace, rest)[name] && FullName(nameSpace, rest[i]) == name;
      assert rest[i] == endpoints[i];
    }
  }

  lemma EndpointUses(c: Config, name: string)
    requires WellFormed(c) && name in Endpoints(c)
    ensures Uses(Endpoints(c)[name]) <= c.backends.Keys && FullName(c.nameSpace, Endpoints(c)[name]) == name
  {
    ByNameIs(c.nameSpace, c.endpoints);
  }
}
