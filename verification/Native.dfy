/** Operations as they are published, and native services, whose host registers operations with schemas of its own
    (src/operation.rs, src/service.rs). */
module Natives {
  import opened Wrappers
  import opened Text
  import opened Responses
  import opened Descriptors
  import opened Services

  /** What discovery needs of an operation, mapped or native. */
  datatype Entry = Entry(name: string, description: string, path: string, schema: Json)

  predicate Registrable(e: Entry) {
    Identifier(e.name) && OperationPath(e.path) && e.schema.Obj?
  }

  predicate Distinct(es: seq<Entry>) {
    forall i, j | 0 <= i < j < |es| :: es[i].name != es[j].name && es[i].path != es[j].path
  }

  predicate Registry(es: seq<Entry>) {
    (forall i | 0 <= i < |es| :: Registrable(es[i])) && Distinct(es)
  }

  /** Register a native operation. Its schema must be an object, and nothing more is asked of it. */
  method Register(name: string, description: string, path: string, schema: Json) returns (r: Result<Entry, string>)
    ensures r.Ok? <==> Registrable(Entry(name, description, path, schema))
    ensures r.Ok? ==> r.value == Entry(name, description, path, schema)
  {
    if !Identifier(name) || !OperationPath(path) {
      return Err("Invalid operation name or reserved path");
    }
    if !schema.Obj? {
      return Err("Operation input_schema must be an object");
    }
    r := Ok(Entry(name, description, path, schema));
  }

  function Names(es: seq<Entry>): set<string> {
    set e | e in es :: e.name
  }

  function Paths(es: seq<Entry>): set<string> {
    set e | e in es :: e.path
  }

  lemma DistinctSnoc(es: seq<Entry>, e: Entry)
    ensures Distinct(es + [e]) <==> Distinct(es) && e.name !in Names(es) && e.path !in Paths(es)
    ensures Names(es + [e]) == Names(es) + {e.name} && Paths(es + [e]) == Paths(es) + {e.path}
  {
    var all := es + [e];
    assert all[|es|] == e && forall i | 0 <= i < |es| :: all[i] == es[i] && es[i] in es;
    assert forall o | o in all :: o in es || o == e;
    assert forall o | o in es :: o in all;
    assert e in all;
  }

  lemma DistinctPrefix(es: seq<Entry>, n: nat)
    requires n <= |es| && Distinct(es)
    ensures Distinct(es[..n])
  {
  }

  datatype NativeService = NativeService(serviceId: string, operations: seq<Entry>)

  /** Configure a native service from registered operations. */
  method Native(serviceId: string, ops: seq<Entry>) returns (r: Result<NativeService, string>)
    requires forall i | 0 <= i < |ops| :: Registrable(ops[i])
    ensures r.Ok? <==> Identifier(serviceId) && ops != [] && Registry(ops)
    ensures r.Ok? ==> r.value == NativeService(serviceId, ops)
  {
    var names, paths := {}, {};
    if !Identifier(serviceId) || ops == [] {
      return Err("Service requires an ID and operations");
    }
    assert Distinct([]) && Names([]) == {} && Paths([]) == {};
    hide Distinct, Names, Paths, Registrable;
    for n := 0 to |ops|
      invariant Distinct(ops[..n]) && names == Names(ops[..n]) && paths == Paths(ops[..n])
    {
      var op := ops[n];
      assert ops[..n + 1] == ops[..n] + [op];
      DistinctSnoc(ops[..n], op);
      if Distinct(ops) {
        DistinctPrefix(ops, n + 1);
      }
      if op.name in names || op.path in paths {
        return Err("Duplicate operation name or path");
      }
      names, paths := names + {op.name}, paths + {op.path};
    }
    assert ops[..|ops|] == ops;
    r := Ok(NativeService(serviceId, ops));
  }

  // ---------- Publication ----------

  /** What discovery publishes of an operation. */
  function Descriptor(e: Entry): Json {
    Obj(map["name" := Str(e.name), "description" := Str(e.description), "method" := Str("POST"),
            "path" := Str(e.path), "input_schema" := e.schema])
  }

  function Described(es: seq<Entry>): seq<Json> {
    seq(|es|, i requires 0 <= i < |es| => Descriptor(es[i]))
  }

  /** The operations a credential may see, in the order of the service. */
  function Visible(es: seq<Entry>, grants: seq<string>): seq<Entry> {
    if es == [] then []
    else
      var last := es[|es| - 1];
      Visible(es[..|es| - 1], grants) + (if last.name in grants then [last] else [])
  }

  lemma {:induction false} VisibleMembers(es: seq<Entry>, grants: seq<string>)
    ensures forall e :: e in Visible(es, grants) <==> e in es && e.name in grants
  {
    if es != [] {
      VisibleMembers(es[..|es| - 1], grants);
      assert es == es[..|es| - 1] + [es[|es| - 1]];
    }
  }

  lemma RegistrySnoc(es: seq<Entry>, e: Entry)
    ensures Registry(es + [e]) <==>
            Registry(es) && Registrable(e) && e.name !in Names(es) && e.path !in Paths(es)
  {
    DistinctSnoc(es, e);
    hide Registrable, Distinct, Names, Paths;
    var all := es + [e];
    assert all[|es|] == e && forall i | 0 <= i < |es| :: all[i] == es[i];
  }

  lemma {:induction false} VisibleIsRegistry(es: seq<Entry>, grants: seq<string>)
    requires Registry(es)
    ensures Registry(Visible(es, grants))
  {
    if es != [] {
      var init, last := es[..|es| - 1], es[|es| - 1];
      assert es == init + [last];
      hide Registry;
      RegistrySnoc(init, last);
      VisibleIsRegistry(init, grants);
      VisibleMembers(init, grants);
      RegistrySnoc(Visible(init, grants), last);
    }
  }

  lemma DescriptorShows(e: Entry)
    ensures var d := Descriptor(e);
            && Field(d, "name") == Str(e.name) && Field(d, "description") == Str(e.description)
            && Field(d, "path") == Str(e.path) && Field(d, "input_schema") == e.schema
            && Field(d, "method") == Str("POST")
  {
  }

  lemma OneOfAName(es: seq<Entry>, e: Entry, f: Entry)
    requires Registry(es) && e in es && f in es && e.name == f.name
    ensures e == f
  {
    var i :| 0 <= i < |es| && es[i] == e;
    var j :| 0 <= j < |es| && es[j] == f;
  }

  /** What is published is the operation's own: found under its name, with its path, description and schema. A client
      that looks a name up finds the one operation of that name it may see, or none. */
  lemma PublishedIsOwn(es: seq<Entry>, grants: seq<string>, i: nat)
    requires Registry(es) && i < |Visible(es, grants)|
    ensures var d, e := Described(Visible(es, grants))[i], Visible(es, grants)[i];
            && e in es && e.name in grants
            && Field(d, "name") == Str(e.name) && Field(d, "description") == Str(e.description)
            && Field(d, "path") == Str(e.path) && Field(d, "input_schema") == e.schema
            && Field(d, "method") == Str("POST")
    ensures forall e | e in es && Field(Described(Visible(es, grants))[i], "name") == Str(e.name) ::
              e == Visible(es, grants)[i]
  {
    VisibleMembers(es, grants);
    var e := Visible(es, grants)[i];
    assert e in Visible(es, grants) && Described(Visible(es, grants))[i] == Descriptor(e);
    DescriptorShows(e);
    hide Visible, Described, Descriptor, Registry;
    forall f | f in es && f.name == e.name
      ensures f == e
    {
      OneOfAName(es, e, f);
    }
  }

  lemma OfferedExactly(es: seq<Entry>, grants: seq<string>, name: string)
    ensures Offers(Described(Visible(es, grants)), name) <==> exists e :: e in es && e.name == name && name in grants
  {
    VisibleMembers(es, grants);
    var shown := Visible(es, grants);
    hide Visible;
    if Offers(Described(shown), name) {
      var i :| 0 <= i < |shown| && Field(Described(shown)[i], "name") == Str(name);
      assert shown[i] in shown && Field(Descriptor(shown[i]), "name") == Str(shown[i].name);
    }
    forall e | e in es && e.name == name && name in grants
      ensures Offers(Described(shown), name)
    {
      var i :| 0 <= i < |shown| && shown[i] == e;
      assert Field(Described(shown)[i], "name") == Str(name);
    }
  }

  /** The Python descriptor check is a check of the schema's references alone: whatever was registered passes it exactly
      when they are all local. */
  lemma DescriptorIsValid(e: Entry)
    requires Registrable(e)
    ensures ValidOperation(Descriptor(e)) <==> LocalReferences(e.schema)
    ensures Field(Descriptor(e), "name") == Str(e.name)
  {
    hide LocalReferences, Route;
  }

  /** So is the check of all that a credential is shown: no name is shown twice. */
  lemma OperationsAreValid(es: seq<Entry>)
    requires Registry(es)
    ensures ValidOperations(Described(es)) <==> forall i | 0 <= i < |es| :: LocalReferences(es[i].schema)
  {
    hide ValidOperation, LocalReferences, Registrable;
    var ds := Described(es);
    forall i | 0 <= i < |es|
      ensures ValidOperation(ds[i]) <==> LocalReferences(es[i].schema)
      ensures Field(ds[i], "name") == Str(es[i].name)
    {
      assert ds[i] == Descriptor(es[i]);
      DescriptorIsValid(es[i]);
    }
    hide Descriptor;
  }
}
