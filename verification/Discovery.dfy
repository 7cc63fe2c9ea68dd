/** What gateways publish, from a manifest or from native operations (src/lib.rs, src/service.rs), and what their
    clients make of it. */
module Discoveries {
  import opened Wrappers
  import opened Text
  import opened Responses
  import opened Descriptors
  import opened Budgets
  import opened Natives
  import Gates
  import Routes
  import S = Services

  // ---------- The Python client ----------

  /** What a credential of a service is shown. */
  function IdentityOf(serviceId: string, es: seq<Entry>, principal: string, cls: Class, grants: seq<string>)
    : Gates.Identity
  {
    Gates.Identity(serviceId, principal, cls, Described(Visible(es, grants)))
  }

  /** The documents of a live budget are accepted, from the first on, exactly when every operation shown has only local
      references in its schema: the host can see from the schemas alone whether its clients will ever start. */
  lemma AcceptedExactly(serviceId: string, es: seq<Entry>, principal: string, cls: Class, grants: seq<string>,
                        maximum: nat, events: seq<Budgets.Event>, times: seq<nat>)
    requires Identifier(serviceId) && Registry(es) && principal != "" && 1 <= maximum <= 1000
    requires Gates.InRange(events) && PossibleRun(Fresh(maximum), events)
    requires times != [] && Gates.InOrder(times) && Gates.Within(times, 0, |events|)
    ensures var id, shown := IdentityOf(serviceId, es, principal, cls, grants), Visible(es, grants);
            Gates.PyAcceptsAll(None, id, Fresh(maximum), events, times) <==>
            forall i | 0 <= i < |shown| :: LocalReferences(shown[i].schema)
  {
    var id, shown := IdentityOf(serviceId, es, principal, cls, grants), Visible(es, grants);
    VisibleIsRegistry(es, grants);
    OperationsAreValid(shown);
    hide Visible, Described, LocalReferences, Registry, ValidOperations;
    if ValidOperations(Described(shown)) {
      assert Gates.ValidIdentity(id);
      Gates.SnapshotsAreCompatible(id, maximum, events, times);
    } else {
      RefusedAtOnce(id, Fresh(maximum), events, times);
    }
  }

  /** A reference to another document, anywhere in the schema of one native operation, makes the Python client refuse
      every document that shows it, the first one included. */
  lemma ExternalReferenceIsRefused(service: NativeService, principal: string, cls: Class, grants: seq<string>,
                                   maximum: nat, events: seq<Budgets.Event>, times: seq<nat>, e: Entry)
    requires Identifier(service.serviceId) && Registry(service.operations) && principal != "" && 1 <= maximum <= 1000
    requires Gates.InRange(events) && PossibleRun(Fresh(maximum), events)
    requires times != [] && Gates.InOrder(times) && Gates.Within(times, 0, |events|)
    requires e in service.operations && e.name in grants && !LocalReferences(e.schema)
    ensures !Gates.PyAcceptsAll(None, IdentityOf(service.serviceId, service.operations, principal, cls, grants),
                                Fresh(maximum), events, times)
  {
    var es := service.operations;
    var shown := Visible(es, grants);
    VisibleIsRegistry(es, grants);
    OperationsAreValid(shown);
    VisibleMembers(es, grants);
    hide Visible, LocalReferences, Registry, ValidOperations, Described;
    var i := IndexOf(shown, e);
    assert !LocalReferences(shown[i].schema);
    RefusedAtOnce(IdentityOf(service.serviceId, es, principal, cls, grants), Fresh(maximum), events, times);
  }

  /** An invalid descriptor spoils the first document already. */
  lemma RefusedAtOnce(id: Gates.Identity, s: Snapshot, events: seq<Budgets.Event>, times: seq<nat>)
    requires times != [] && Gates.Within(times, 0, |events|) && !ValidOperations(id.operations)
    ensures !Gates.PyAcceptsAll(None, id, s, events, times)
  {
    hide ValidOperations;
    var first := Gates.Published(id, At(s, events, times[0]));
    assert !Gates.PyAccepts(None, first);
  }

  lemma IndexOf(es: seq<Entry>, e: Entry) returns (i: nat)
    requires e in es
    ensures i < |es| && es[i] == e
  {
    i :| 0 <= i < |es| && es[i] == e;
  }

  /** A reference that is not to the document itself, at the root of a schema or below any of its fields or items. */
  predicate External(v: Json) {
    v.Obj? && exists k | k in v.fields ::
      k in {"$ref", "$dynamicRef"} && !(v.fields[k].Str? && v.fields[k].s != "" && v.fields[k].s[0] == '#')
  }

  datatype Place = Field(key: string) | Item(index: nat)

  /** The value at a place inside another one, if there is one. */
  function ValueAt(v: Json, path: seq<Place>): Option<Json>
    decreases path
  {
    if path == [] then Some(v)
    else match path[0]
      case Field(key) => if v.Obj? && key in v.fields then ValueAt(v.fields[key], path[1..]) else None
      case Item(i) => if v.Arr? && i < |v.items| then ValueAt(v.items[i], path[1..]) else None
  }

  /** The recursive check misses no place: it fails exactly when some value inside is an object with an external
      reference. */
  lemma {:induction false} ExternalMeans(v: Json)
    ensures !LocalReferences(v) <==> exists path :: ValueAt(v, path).Some? && External(ValueAt(v, path).value)
    decreases v
  {
    if !LocalReferences(v) {
      var path := FindExternal(v);
    }
    forall path | ValueAt(v, path).Some? && External(ValueAt(v, path).value)
      ensures !LocalReferences(v)
    {
      ExternalShows(v, path);
    }
  }

  lemma {:induction false} FindExternal(v: Json) returns (path: seq<Place>)
    requires !LocalReferences(v)
    ensures ValueAt(v, path).Some? && External(ValueAt(v, path).value)
    decreases v
  {
    if External(v) {
      path := [];
    } else if v.Obj? {
      var k :| k in v.fields && !LocalReferences(v.fields[k]);
      var rest := FindExternal(v.fields[k]);
      path := [Field(k)] + rest;
      assert path[1..] == rest;
    } else {
      var i :| 0 <= i < |v.items| && !LocalReferences(v.items[i]);
      var rest := FindExternal(v.items[i]);
      path := [Item(i)] + rest;
      assert path[1..] == rest;
    }
  }

  lemma {:induction false} ExternalShows(v: Json, path: seq<Place>)
    requires ValueAt(v, path).Some? && External(ValueAt(v, path).value)
    ensures !LocalReferences(v)
    decreases path
  {
    if path != [] {
      match path[0]
      case Field(key) => ExternalShows(v.fields[key], path[1..]);
      case Item(i) => ExternalShows(v.items[i], path[1..]);
    }
  }

  /** Such an operation can be registered, and its whole service configured. */
  lemma ExternalExample() returns (e: Entry)
    ensures Registry([e]) && !LocalReferences(e.schema)
    ensures e.schema == Obj(map["$ref" := Str("https://example.org/schema")])
  {
    e := Entry("x", "", "/a", Obj(map["$ref" := Str("https://example.org/schema")]));
    PlainPath('a');
    assert "$ref" in e.schema.fields && e.schema.fields["$ref"].s[0] == 'h';
  }

  lemma PlainPath(p: char)
    requires InName(p)
    ensures S.OperationPath(['/', p])
  {
    var path := ['/', p];
    assert path[1..] == [p];
    RouteShape(path);
    hide Route;
    assert forall s | s in {"/healthz", "/readyz", "/agent-policy", "/admin"} :: |s| > |path|;
    assert |"/admin/"| > |path|;
  }

  // ---------- Parsed manifests ----------

  /** A mapped operation as it is published. */
  function EntryOf(op: S.Operation): Entry {
    Entry(op.name, op.description, op.path, S.InputSchema(op))
  }

  function EntriesOf(ops: seq<S.Operation>): seq<Entry> {
    seq(|ops|, i requires 0 <= i < |ops| => EntryOf(ops[i]))
  }

  lemma {:induction false} PropertiesAreLocal(ps: S.Parameters)
    requires forall i | 0 <= i < |ps| :: Identifier(ps[i].name)
    ensures LocalReferences(Obj(S.Properties(ps)))
  {
    if ps != [] {
      var rest: S.Parameters := ps[1..];
      assert forall i | 0 <= i < |rest| :: rest[i] == ps[i + 1];
      PropertiesAreLocal(rest);
      var property := S.PropertySchema(ps[0].kind);
      assert LocalReferences(property);
      assert InName(ps[0].name[0]) && !InName('$');
      assert S.Properties(ps) == S.Properties(rest)[ps[0].name := property];
    }
  }

  lemma SchemaIsLocal(op: S.Operation)
    requires LocalReferences(Obj(S.Properties(op.parameters)))
    ensures LocalReferences(S.InputSchema(op)) && S.InputSchema(op).Obj?
  {
    hide S.Properties;
    var required := S.InputSchema(op).fields["required"];
    assert forall i | 0 <= i < |op.parameters| :: LocalReferences(required.items[i]);
    assert LocalReferences(required);
  }

  /** The schema of a mapped operation has no reference at all, so nothing about it can be external. */
  lemma MappedSchemaIsLocal(op: S.Operation)
    requires S.WellFormedOperation(op)
    ensures LocalReferences(S.InputSchema(op)) && Registrable(EntryOf(op))
  {
    PropertiesAreLocal(op.parameters);
    SchemaIsLocal(op);
    hide S.InputSchema, LocalReferences, Route;
  }

  lemma ManifestIsRegistry(service: S.Service)
    requires S.WellFormed(service)
    ensures Registry(EntriesOf(service.operations))
    ensures forall e | e in EntriesOf(service.operations) :: LocalReferences(e.schema)
  {
    var ops := service.operations;
    hide S.WellFormedOperation, S.WellFormedGrants, LocalReferences, Registrable, S.InputSchema;
    forall i | 0 <= i < |ops|
      ensures Registrable(EntriesOf(ops)[i]) && LocalReferences(EntriesOf(ops)[i].schema)
    {
      MappedSchemaIsLocal(ops[i]);
    }
  }

  /** For a parsed manifest, the discovery documents of every credential, read in order from one live budget, are
      accepted by the Python client from the first on, and by the Rust gate if the credential is an agent's. */
  lemma ParsedManifestsAreAccepted(service: S.Service, c: S.Grant, events: seq<Budgets.Event>, times: seq<nat>)
    requires S.WellFormed(service) && c in service.credentials
    requires Gates.InRange(events) && PossibleRun(Fresh(c.maximum), events)
    requires Gates.InOrder(times) && Gates.Within(times, 0, |events|)
    ensures var id := IdentityOf(service.serviceId, EntriesOf(service.operations), c.principal, c.cls, c.operations);
            && Gates.PyAcceptsAll(None, id, Fresh(c.maximum), events, times)
            && (c.cls.Agent? ==> Gates.GateAcceptsAll(Gates.NEW_GATE, id, Fresh(c.maximum), events, times))
  {
    var es := EntriesOf(service.operations);
    var id := IdentityOf(service.serviceId, es, c.principal, c.cls, c.operations);
    assert S.WellFormedGrant(c, S.Names(service.operations)) && Identifier(service.serviceId);
    ManifestIsRegistry(service);
    VisibleIsRegistry(es, c.operations);
    VisibleMembers(es, c.operations);
    hide Visible, LocalReferences, EntriesOf, S.WellFormed, Registry, Gates.PyAcceptsAll, Gates.GateAcceptsAll;
    OperationsAreValid(Visible(es, c.operations));
    hide Described, ValidOperations;
    Gates.SnapshotsAreCompatible(id, c.maximum, events, times);
  }

  /** Every operation of a parsed manifest that a credential is granted is published as it is, and its schema accepts
      exactly what its requests take, but for integers that are no literals below 2^64. */
  lemma MappedIsPublished(service: S.Service, grants: seq<string>, op: S.Operation) returns (i: nat)
    requires S.WellFormed(service) && op in service.operations && op.name in grants
    ensures var ds := Described(Visible(EntriesOf(service.operations), grants));
            && i < |ds|
            && Responses.Field(ds[i], "name") == Str(op.name)
            && Responses.Field(ds[i], "description") == Str(op.description)
            && Responses.Field(ds[i], "path") == Str(op.path)
            && forall params ::
                 S.Request(op, params).Ok? <==>
                 S.Accepts(Responses.Field(ds[i], "input_schema"), params) && S.IntegersFit(op.parameters, params)
  {
    var es := EntriesOf(service.operations);
    var k :| 0 <= k < |service.operations| && service.operations[k] == op;
    assert es[k] == EntryOf(op);
    ManifestIsRegistry(service);
    VisibleMembers(es, grants);
    hide Visible, Registry, S.WellFormed, S.Request, S.Accepts, S.IntegersFit, S.InputSchema, Descriptor;
    i := IndexOf(Visible(es, grants), EntryOf(op));
    PublishedIsOwn(es, grants, i);
    forall params
      ensures S.Request(op, params).Ok? <==>
              S.Accepts(S.InputSchema(op), params) && S.IntegersFit(op.parameters, params)
    {
      S.RequestMeetsSchema(op, params);
    }
  }

  // ---------- The dispatcher ----------

  function RouteOf(e: Entry): Routes.OperationRoute {
    Routes.OperationRoute(e.name, "POST", e.path)
  }

  function RoutesOf(es: seq<Entry>): seq<Routes.OperationRoute> {
    seq(|es|, i requires 0 <= i < |es| => RouteOf(es[i]))
  }

  /** Whatever a service publishes is a valid list of routes. */
  lemma PublishedRoutesAreValid(es: seq<Entry>, grants: seq<string>)
    requires Registry(es)
    ensures Routes.ValidRoutes(RoutesOf(Visible(es, grants)))
  {
    VisibleIsRegistry(es, grants);
    hide Visible, Route, Identifier;
  }

  /** The dispatcher reads the routes off the same descriptors. */
  lemma RoutesAreDescriptors(es: seq<Entry>, i: nat)
    requires i < |es|
    ensures var d, o := Described(es)[i], RoutesOf(es)[i];
            && Responses.Field(d, "name") == Str(o.name) && Responses.Field(d, "method") == Str(o.verb)
            && Responses.Field(d, "path") == Str(o.path)
  {
    DescriptorShows(es[i]);
    hide Descriptor;
  }

  /** What agent credentials of one owner discover at startup: each what it is granted, with the snapshot of the shared
      budget at its moment. */
  function Startup(serviceId: string, es: seq<Entry>, principal: string, grants: seq<seq<string>>,
                   snapshots: seq<Snapshot>): seq<Routes.Discovery>
    requires |grants| == |snapshots|
  {
    seq(|grants|, i requires 0 <= i < |grants| =>
      Routes.Discovery(Gates.Published(IdentityOf(serviceId, es, principal, Agent, grants[i]), snapshots[i]),
                       RoutesOf(Visible(es, grants[i]))))
  }

  /** An operation of the service that one of the credentials may see. */
  predicate Shown(es: seq<Entry>, grants: seq<seq<string>>, e: Entry) {
    e in es && exists i :: 0 <= i < |grants| && e.name in grants[i]
  }

  /** Snapshots of one live budget, taken in order. */
  predicate Taken(snapshots: seq<Snapshot>, maximum: nat, events: seq<Budgets.Event>, times: seq<nat>)
  {
    && 1 <= maximum <= 1000 && Gates.InRange(events) && PossibleRun(Fresh(maximum), events)
    && |times| == |snapshots| && Gates.InOrder(times) && Gates.Within(times, 0, |events|)
    && forall i | 0 <= i < |times| :: snapshots[i] == At(Fresh(maximum), events, times[i])
  }

  /** The gate takes the policies of every startup. */
  lemma StartupIsCoherent(serviceId: string, es: seq<Entry>, principal: string, grants: seq<seq<string>>,
                          snapshots: seq<Snapshot>, maximum: nat, events: seq<Budgets.Event>, times: seq<nat>)
    requires principal != "" && |grants| == |snapshots| && Taken(snapshots, maximum, events, times)
    ensures Routes.Coherent(Startup(serviceId, es, principal, grants, snapshots))
  {
    var ds := Startup(serviceId, es, principal, grants, snapshots);
    hide IdentityOf, Visible, RoutesOf;
    forall i | 0 <= i < |ds|
      ensures Gates.Supported(ds[i].policy) && ds[i].policy.revision > 0
    {
      Gates.SnapshotsInRange(Fresh(maximum), events, times[i]);
      PrincipalOf(serviceId, es, principal, grants[i]);
    }
    forall i, j | 0 <= i < j < |ds|
      ensures Routes.Follows(ds[i].policy, ds[j].policy)
    {
      HistoryContinues(Fresh(maximum), events, times[i], times[j]);
      PrincipalOf(serviceId, es, principal, grants[i]);
      PrincipalOf(serviceId, es, principal, grants[j]);
    }
  }

  lemma PrincipalOf(serviceId: string, es: seq<Entry>, principal: string, grants: seq<string>)
    ensures var id := IdentityOf(serviceId, es, principal, Agent, grants);
            id.principal == principal && id.cls == Agent && id.serviceId == serviceId
  {
  }

  lemma StartupRoutes(serviceId: string, es: seq<Entry>, principal: string, grants: seq<seq<string>>,
                      snapshots: seq<Snapshot>, o: Routes.OperationRoute)
    requires |grants| == |snapshots|
    ensures Routes.Offered(Startup(serviceId, es, principal, grants, snapshots), o) <==>
            exists e :: Shown(es, grants, e) && RouteOf(e) == o
  {
    var ds := Startup(serviceId, es, principal, grants, snapshots);
    hide IdentityOf, Visible, RouteOf;
    if Routes.Offered(ds, o) {
      var d :| d in ds && o in d.operations;
      var i :| 0 <= i < |ds| && ds[i] == d;
      var k :| 0 <= k < |d.operations| && d.operations[k] == o;
      VisibleMembers(es, grants[i]);
      assert Visible(es, grants[i])[k] in Visible(es, grants[i]);
      assert Shown(es, grants, Visible(es, grants[i])[k]);
    }
    forall e | Shown(es, grants, e) && RouteOf(e) == o
      ensures Routes.Offered(ds, o)
    {
      var i :| 0 <= i < |grants| && e.name in grants[i];
      VisibleMembers(es, grants[i]);
      var k :| 0 <= k < |Visible(es, grants[i])| && Visible(es, grants[i])[k] == e;
      assert ds[i].operations[k] == o && ds[i] in ds;
    }
  }

  lemma PairAgrees(a: Entry, b: Entry)
    requires Route(a.path) && Route(b.path) && (a == b || (a.name != b.name && a.path != b.path))
    ensures Routes.Agree(RouteOf(a), RouteOf(b)) <==> a == b || b.path != "/" + a.name
  {
    TrimRoute(a.path);
    TrimRoute(b.path);
    hide Route, TrimSlashes;
  }

  /** Any two operations shown agree exactly when no name is another one's path without its slash. */
  lemma StartupAgrees(serviceId: string, es: seq<Entry>, principal: string, grants: seq<seq<string>>,
                      snapshots: seq<Snapshot>)
    requires Registry(es) && |grants| == |snapshots|
    ensures var ds := Startup(serviceId, es, principal, grants, snapshots);
            (forall o, p | Routes.Offered(ds, o) && Routes.Offered(ds, p) :: Routes.Agree(o, p)) <==>
            forall a, b | Shown(es, grants, a) && Shown(es, grants, b) :: a == b || b.path != "/" + a.name
  {
    var ds := Startup(serviceId, es, principal, grants, snapshots);
    hide Startup, Routes.Agree, Routes.Offered, Registry, Route, RouteOf, Shown;
    forall a, b | Shown(es, grants, a) && Shown(es, grants, b)
      ensures Routes.Offered(ds, RouteOf(a)) && Routes.Offered(ds, RouteOf(b))
      ensures Routes.Agree(RouteOf(a), RouteOf(b)) <==> a == b || b.path != "/" + a.name
    {
      StartupRoutes(serviceId, es, principal, grants, snapshots, RouteOf(a));
      StartupRoutes(serviceId, es, principal, grants, snapshots, RouteOf(b));
      ShownIsEntry(es, grants, a);
      ShownIsEntry(es, grants, b);
      EntriesDiffer(es, a, b);
      PairAgrees(a, b);
    }
    if forall a, b | Shown(es, grants, a) && Shown(es, grants, b) :: a == b || b.path != "/" + a.name {
      forall o, p | Routes.Offered(ds, o) && Routes.Offered(ds, p)
        ensures Routes.Agree(o, p)
      {
        StartupRoutes(serviceId, es, principal, grants, snapshots, o);
        StartupRoutes(serviceId, es, principal, grants, snapshots, p);
        var a :| Shown(es, grants, a) && RouteOf(a) == o;
        var b :| Shown(es, grants, b) && RouteOf(b) == p;
        assert a == b || b.path != "/" + a.name;
      }
    }
  }

  lemma ShownIsEntry(es: seq<Entry>, grants: seq<seq<string>>, e: Entry)
    requires Shown(es, grants, e)
    ensures e in es
  {
  }

  /** But the dispatcher's table is shared by all credentials and by names and paths: it starts exactly when no
      operation name any of them may see is another such operation's path without its slash. */
  lemma StartupVerdict(serviceId: string, es: seq<Entry>, principal: string, grants: seq<seq<string>>,
                       snapshots: seq<Snapshot>, maximum: nat, events: seq<Budgets.Event>, times: seq<nat>)
    requires Identifier(serviceId) && Registry(es) && principal != ""
    requires |grants| == |snapshots| && Taken(snapshots, maximum, events, times)
    ensures var ds := Startup(serviceId, es, principal, grants, snapshots);
            Routes.Consistent(ds) && Routes.Coherent(ds) <==>
            forall a, b | Shown(es, grants, a) && Shown(es, grants, b) :: a == b || b.path != "/" + a.name
  {
    var ds := Startup(serviceId, es, principal, grants, snapshots);
    StartupIsCoherent(serviceId, es, principal, grants, snapshots, maximum, events, times);
    StartupIsValid(serviceId, es, principal, grants, snapshots);
    StartupAgrees(serviceId, es, principal, grants, snapshots);
    hide Startup, Routes.Coherent, Routes.AllAliases, Routes.Functional, Routes.Agree, Routes.Offered, Taken, Shown,
         Routes.ValidRoutes, Identifier, Registry;
    Routes.FunctionalAcross(ds);
  }

  lemma EntriesDiffer(es: seq<Entry>, a: Entry, b: Entry)
    requires Registry(es) && a in es && b in es
    ensures Route(a.path) && Route(b.path) && (a == b || (a.name != b.name && a.path != b.path))
  {
    hide Route, Identifier;
    var i :| 0 <= i < |es| && es[i] == a;
    var j :| 0 <= j < |es| && es[j] == b;
    assert Registrable(es[i]) && Registrable(es[j]);
  }

  lemma StartupIsValid(serviceId: string, es: seq<Entry>, principal: string, grants: seq<seq<string>>,
                       snapshots: seq<Snapshot>)
    requires Identifier(serviceId) && Registry(es) && |grants| == |snapshots|
    ensures var ds := Startup(serviceId, es, principal, grants, snapshots);
            && (forall d | d in ds :: d.policy.serviceId == Some(serviceId) && serviceId != "")
            && (forall d | d in ds :: Routes.ValidRoutes(d.operations))
  {
    var ds := Startup(serviceId, es, principal, grants, snapshots);
    hide IdentityOf, Visible, RoutesOf, Registry, Routes.ValidRoutes;
    forall d | d in ds
      ensures d.policy.serviceId == Some(serviceId) && Routes.ValidRoutes(d.operations)
    {
      var i :| 0 <= i < |ds| && ds[i] == d;
      PrincipalOf(serviceId, es, principal, grants[i]);
      PublishedRoutesAreValid(es, grants[i]);
    }
  }

  /** One owner's credentials of a parsed manifest, started together. */
  function StartupOf(service: S.Service, cs: seq<S.Grant>, snapshots: seq<Snapshot>): seq<Routes.Discovery>
    requires cs != [] && |cs| == |snapshots|
  {
    Startup(service.serviceId, EntriesOf(service.operations), cs[0].principal,
            seq(|cs|, i requires 0 <= i < |cs| => cs[i].operations), snapshots)
  }

  function Plain(name: string, path: string): S.Operation {
    S.Operation(name, "", path, path, [])
  }

  lemma PlainIsWellFormed(n: char, p: char)
    requires InName(n) && InName(p)
    ensures S.WellFormedOperation(Plain([n], ['/', p]))
  {
    PlainPath(p);
  }

  lemma TwoOperations(x: S.Operation, y: S.Operation)
    requires S.WellFormedOperation(x) && S.WellFormedOperation(y) && x.name != y.name && x.path != y.path
    ensures S.WellFormedOperations([x, y]) && S.Names([x, y]) == {x.name, y.name}
  {
    assert S.WellFormedOperations([]) && S.Names([]) == {} && S.Paths([]) == {};
    hide S.WellFormedOperations, S.WellFormedOperation, S.Names, S.Paths;
    S.OperationsSnoc([], x);
    assert [] + [x] == [x];
    S.OperationsSnoc([x], y);
    assert [x] + [y] == [x, y];
  }

  /** In a service of two operations granted to one agent credential, one's name being the other's path is enough. */
  lemma AmbiguousPair(id: string, x: S.Operation, y: S.Operation, c: S.Grant, snapshot: Snapshot,
                      events: seq<Budgets.Event>, time: nat)
    requires Identifier(id) && S.WellFormedOperation(x) && S.WellFormedOperation(y)
    requires x.name != y.name && x.path != y.path && y.path == "/" + x.name
    requires S.WellFormedGrant(c, {x.name, y.name}) && x.name in c.operations && y.name in c.operations
    requires c.cls.Agent? && Taken([snapshot], c.maximum, events, [time])
    ensures var service := S.Service(1, id, [x, y], [c]);
            && S.WellFormed(service)
            && !(Routes.Consistent(StartupOf(service, [c], [snapshot]))
                 && Routes.Coherent(StartupOf(service, [c], [snapshot])))
  {
    TwoOperations(x, y);
    hide S.WellFormedOperation, S.WellFormedOperations, S.Names;
    var service := S.Service(1, id, [x, y], [c]);
    assert S.WellFormed(service);
    ManifestIsRegistry(service);
    hide S.WellFormed, S.WellFormedGrant, Taken, Registry, Routes.Consistent, Routes.Coherent, Startup;
    var es, grants := EntriesOf([x, y]), seq(1, i requires 0 <= i < 1 => [c][i].operations);
    StartupVerdict(id, es, c.principal, grants, [snapshot], c.maximum, events, [time]);
    assert es[0] == EntryOf(x) && es[1] == EntryOf(y) && grants[0] == c.operations;
    assert Shown(es, grants, es[0]) && Shown(es, grants, es[1]);
  }

  /** Such a manifest exists: with `x` at /a and `y` at /x it parses, and the dispatcher refuses to start on it. */
  lemma AmbiguousManifest(maximum: nat)
    requires 1 <= maximum <= 1000
    ensures var service :=
              S.Service(1, "s", [Plain("x", "/a"), Plain("y", "/x")],
                        [S.Grant("T", true, "p", Agent, ["x", "y"], maximum)]);
            && S.WellFormed(service)
            && !(Routes.Consistent(StartupOf(service, service.credentials, [Fresh(maximum)]))
                 && Routes.Coherent(StartupOf(service, service.credentials, [Fresh(maximum)])))
  {
    var x, y := Plain("x", "/a"), Plain("y", "/x");
    var c := S.Grant("T", true, "p", Agent, ["x", "y"], maximum);
    PlainIsWellFormed('x', 'a');
    PlainIsWellFormed('y', 'x');
    assert "x"[0] != "y"[0] && "/a"[1] != "/x"[1];
    assert S.WellFormedGrant(c, {"x", "y"});
    assert Taken([Fresh(maximum)], maximum, [], [0]);
    hide S.WellFormedOperation, S.WellFormedGrant, S.WellFormed, Taken, Routes.Consistent, Routes.Coherent, StartupOf;
    AmbiguousPair("s", x, y, c, Fresh(maximum), [], 0);
  }
}
