/** The dispatcher's route table, built from what each credential discovers (src/bin/dispatcher.rs). */
module Routes {
  import opened Wrappers
  import opened Text
  import Gates

  datatype OperationRoute = OperationRoute(name: string, verb: string, path: string)
  datatype Discovery = Discovery(policy: Gates.Policy, operations: seq<OperationRoute>)
  type Relation = set<(string, string)>
  type Table = map<string, string>

  predicate ValidRoute(op: OperationRoute) {
    Identifier(op.name) && op.verb == "POST" && Route(op.path)
  }

  predicate DistinctNames(ops: seq<OperationRoute>) {
    forall i, j | 0 <= i < j < |ops| :: ops[i].name != ops[j].name
  }

  function Names(ops: seq<OperationRoute>): set<string> {
    set op | op in ops :: op.name
  }

  predicate ValidRoutes(ops: seq<OperationRoute>) {
    (forall i | 0 <= i < |ops| :: ValidRoute(ops[i])) && DistinctNames(ops)
  }

  /** An operation is reached by its name and by its path without the slash; both mean that path. */
  function Target(op: OperationRoute): string {
    TrimSlashes(op.path)
  }

  function Pairs(op: OperationRoute): Relation {
    {(op.name, Target(op)), (Target(op), Target(op))}
  }

  function Aliases(ops: seq<OperationRoute>): Relation {
    set i, p | 0 <= i < |ops| && p in Pairs(ops[i]) :: p
  }

  /** A table as the relation it is. */
  function Entries(t: Table): Relation {
    set a | a in t :: (a, t[a])
  }

  predicate Functional(r: Relation) {
    forall p, q | p in r && q in r :: p.0 == q.0 ==> p.1 == q.1
  }

  lemma AliasesSnoc(ops: seq<OperationRoute>, op: OperationRoute)
    ensures Aliases(ops + [op]) == Aliases(ops) + Pairs(op)
  {
    var all := ops + [op];
    assert all[|ops|] == op && forall i | 0 <= i < |ops| :: all[i] == ops[i];
    assert forall p | p in Aliases(ops) :: p in Aliases(all);
    assert forall p | p in Pairs(op) :: p in Aliases(all);
  }

  lemma Clash(r: Relation) returns (p: (string, string), q: (string, string))
    requires !Functional(r)
    ensures p in r && q in r && p.0 == q.0 && p.1 != q.1
  {
    p, q :| p in r && q in r && p.0 == q.0 && p.1 != q.1;
  }

  lemma SubFunctional(r: Relation, s: Relation)
    requires r <= s && Functional(s)
    ensures Functional(r)
  {
  }

  lemma EntriesAreFunctional(t: Table)
    ensures Functional(Entries(t))
  {
  }

  lemma InsertEntry(t: Table, alias: string, path: string)
    requires alias in t ==> t[alias] == path
    ensures Entries(t[alias := path]) == Entries(t) + {(alias, path)}
  {
    var u := t[alias := path];
    assert forall a | a in t :: a in u && u[a] == t[a];
    assert alias in u && (alias, path) in Entries(u);
    assert forall a | a in u :: a == alias || a in t;
  }

  /** Point both aliases of an operation at its path, unless one of them already leads elsewhere. */
  method InsertAliases(routes: Table, op: OperationRoute) returns (ok: bool, table: Table)
    ensures ok <==> Functional(Entries(routes) + Pairs(op))
    ensures ok ==> Entries(table) == Entries(routes) + Pairs(op)
  {
    var path := TrimSlashes(op.path);
    var aliases := [op.name, path];
    table := routes;
    for n := 0 to |aliases|
      invariant Entries(table) == Entries(routes) + set k | 0 <= k < n :: (aliases[k], path)
    {
      var alias := aliases[n];
      assert (alias, path) in Pairs(op);
      if alias in table && table[alias] != path {
        assert (alias, table[alias]) in Entries(table);
        return false, table;
      }
      InsertEntry(table, alias, path);
      table := table[alias := path];
    }
    assert (set k | 0 <= k < 2 :: (aliases[k], path)) == Pairs(op) by {
      assert aliases[0] == op.name && aliases[1] == path;
    }
    EntriesAreFunctional(table);
    ok := true;
  }

  lemma ValidSnoc(ops: seq<OperationRoute>, op: OperationRoute)
    ensures ValidRoutes(ops + [op]) <==>
            ValidRoutes(ops) && ValidRoute(op) && op.name !in Names(ops)
    ensures Names(ops + [op]) == Names(ops) + {op.name}
  {
    hide ValidRoute;
    var all := ops + [op];
    assert forall o | o in all :: o in ops || o == op;
    assert forall o | o in ops :: o in all;
    assert op in all;
    assert forall i | 0 <= i < |ops| :: ops[i] in ops;
    assert all[|ops|] == op && forall i | 0 <= i < |ops| :: all[i] == ops[i];
  }

  lemma PrefixCovered(ops: seq<OperationRoute>, n: nat)
    requires n <= |ops|
    ensures ValidRoutes(ops) ==> ValidRoutes(ops[..n])
    ensures Aliases(ops[..n]) <= Aliases(ops)
  {
    assert forall i | 0 <= i < n :: ops[..n][i] == ops[i];
  }

  lemma NoneYet(ops: seq<OperationRoute>)
    ensures ValidRoutes(ops[..0]) && Names(ops[..0]) == {} && Aliases(ops[..0]) == {}
  {
  }

  /** The names and pairs one more operation brings, and that a prefix never has more of either. */
  lemma OneMore(ops: seq<OperationRoute>, n: nat)
    requires n < |ops|
    ensures Names(ops[..n + 1]) == Names(ops[..n]) + {ops[n].name}
    ensures Aliases(ops[..n + 1]) == Aliases(ops[..n]) + Pairs(ops[n])
    ensures Aliases(ops[..n + 1]) <= Aliases(ops)
    ensures ValidRoutes(ops[..n + 1]) <==>
            ValidRoutes(ops[..n]) && ValidRoute(ops[n]) && ops[n].name !in Names(ops[..n])
    ensures ValidRoutes(ops) ==> ValidRoutes(ops[..n + 1])
  {
    assert ops[..n + 1] == ops[..n] + [ops[n]];
    AliasesSnoc(ops[..n], ops[n]);
    ValidSnoc(ops[..n], ops[n]);
    PrefixCovered(ops, n + 1);
  }

  /** Add what one credential discovered. It succeeds exactly when every entry is valid, the names differ and the table
      together with the new aliases still is a function; then the table holds exactly both. */
  method AddRoutes(routes: Table, ops: seq<OperationRoute>) returns (error: Option<string>, table: Table)
    ensures error.None? <==> ValidRoutes(ops) && Functional(Entries(routes) + Aliases(ops))
    ensures error.None? ==> Entries(table) == Entries(routes) + Aliases(ops)
  {
    hide Aliases, Functional, Pairs, ValidRoutes, Names, Entries, Identifier, Route, TrimSlashes, Target;
    NoneYet(ops);
    var names := {};
    table := routes;
    for n := 0 to |ops|
      invariant ValidRoutes(ops[..n])
      invariant names == Names(ops[..n])
      invariant Entries(table) == Entries(routes) + Aliases(ops[..n])
    {
      var op := ops[n];
      OneMore(ops, n);
      if !Identifier(op.name) || op.name in names || op.verb != "POST" || !Route(op.path) {
        return Some("Invalid discovery route"), table;
      }
      names := names + {op.name};
      ghost var before := Entries(table);
      var ok;
      ok, table := InsertAliases(table, op);
      if !ok {
        if Functional(Entries(routes) + Aliases(ops)) {
          SubFunctional(before + Pairs(op), Entries(routes) + Aliases(ops));
        }
        return Some("Ambiguous discovery route"), table;
      }
    }
    assert ops[..|ops|] == ops;
    EntriesAreFunctional(table);
    error := None;
  }

  function AllAliases(ds: seq<Discovery>): Relation {
    set d, p | d in ds && p in Aliases(d.operations) :: p
  }

  /** One service throughout, every discovery valid, and no alias with two paths. */
  predicate Consistent(ds: seq<Discovery>) {
    && (forall d, e | d in ds && e in ds :: d.policy.serviceId == e.policy.serviceId)
    && (forall d | d in ds :: d.policy.serviceId != Some("") && ValidRoutes(d.operations))
    && Functional(AllAliases(ds))
  }

  /** The later policy continues the earlier one. */
  predicate Follows(p: Gates.Policy, q: Gates.Policy) {
    && p.principal == q.principal && p.revision <= q.revision
    && (p.revision == q.revision ==> p.maximum == q.maximum)
  }

  /** Every policy is one of an agent of the same owner, and each continues all before it. Revisions are unsigned. */
  predicate Coherent(ds: seq<Discovery>) {
    && (forall i | 0 <= i < |ds| :: Gates.Supported(ds[i].policy) && ds[i].policy.revision > 0)
    && forall i, j | 0 <= i < j < |ds| :: Follows(ds[i].policy, ds[j].policy)
  }

  /** What a gate remembers of the policies applied to it. */
  predicate Remembers(gate: Gates.GateState, ds: seq<Discovery>) {
    if ds == [] then gate == Gates.NEW_GATE
    else
      var last := ds[|ds| - 1].policy;
      gate.principal == Some(last.principal) && gate.revision == last.revision && gate.maximum == last.maximum
      && gate.ready
  }

  lemma CoherentSnoc(ds: seq<Discovery>, d: Discovery, gate: Gates.GateState)
    requires Coherent(ds) && Remembers(gate, ds)
    ensures Coherent(ds + [d]) <==> Gates.Accepts(gate, d.policy)
  {
    var all := ds + [d];
    assert all[|ds|] == d && forall i | 0 <= i < |ds| :: all[i] == ds[i];
    if Gates.Accepts(gate, d.policy) && ds != [] {
      assert Gates.Supported(ds[|ds| - 1].policy);
      assert forall i | 0 <= i < |ds| - 1 :: Follows(ds[i].policy, ds[|ds| - 1].policy);
    }
    if Coherent(all) && ds != [] {
      assert Follows(all[|ds| - 1].policy, all[|ds|].policy);
    }
  }

  lemma RemembersLast(ds: seq<Discovery>, d: Discovery, gate: Gates.GateState)
    requires Gates.Accepts(gate, d.policy)
    ensures Remembers(Gates.Applied(gate, d.policy), ds + [d])
  {
    assert (ds + [d])[|ds|] == d;
  }

  lemma AllAliasesSnoc(ds: seq<Discovery>, d: Discovery)
    ensures AllAliases(ds + [d]) == AllAliases(ds) + Aliases(d.operations)
  {
  }

  lemma ConsistentPrefix(ds: seq<Discovery>, n: nat)
    requires n <= |ds|
    ensures AllAliases(ds[..n]) <= AllAliases(ds)
    ensures Consistent(ds) ==> Consistent(ds[..n])
    ensures Coherent(ds) ==> Coherent(ds[..n])
  {
    hide ValidRoutes, Aliases, Functional, Follows, Gates.Supported;
    if Consistent(ds) {
      SubFunctional(AllAliases(ds[..n]), AllAliases(ds));
    }
  }

  lemma ConsistentSnoc(ds: seq<Discovery>, d: Discovery)
    requires Consistent(ds)
    ensures Consistent(ds + [d]) <==>
            && d.policy.serviceId != Some("") && (ds != [] ==> d.policy.serviceId == ds[0].policy.serviceId)
            && ValidRoutes(d.operations) && Functional(AllAliases(ds) + Aliases(d.operations))
  {
    hide ValidRoutes, Aliases, Functional;
    var all := ds + [d];
    AllAliasesSnoc(ds, d);
    assert d in all && forall e | e in ds :: e in all;
    assert ds != [] ==> ds[0] in ds && ds[0] in all;
  }

  /** One turn of the fold, once the service is known to be the same. */
  method Take(routes: Table, gate: Gates.Gate, d: Discovery, ghost done: seq<Discovery>)
    returns (error: Option<string>, table: Table)
    requires Consistent(done) && Coherent(done) && Entries(routes) == AllAliases(done) && Remembers(gate.state, done)
    requires d.policy.serviceId != Some("") && (done != [] ==> d.policy.serviceId == done[0].policy.serviceId)
    modifies gate
    ensures error.None? <==> Consistent(done + [d]) && Coherent(done + [d])
    ensures error.None? ==> Entries(table) == AllAliases(done + [d]) && Remembers(gate.state, done + [d])
  {
    hide Consistent, Coherent, ValidRoutes, Aliases, AllAliases, Functional, Entries, Remembers, Gates.Applied,
         Gates.Accepts;
    ConsistentSnoc(done, d);
    CoherentSnoc(done, d, gate.state);
    AllAliasesSnoc(done, d);
    error, table := AddRoutes(routes, d.operations);
    if error.Some? {
      return;
    }
    ghost var before := gate.state;
    var applied := gate.Apply(d.policy);
    if applied.Err? {
      return Some(applied.error), table;
    }
    RemembersLast(done, d, before);
  }

  /** Fold the discoveries of all credentials into one table and one gate. */
  method Initialize(ds: seq<Discovery>) returns (r: Result<Table, string>, gate: Gates.Gate)
    ensures fresh(gate)
    ensures r.Ok? <==> Consistent(ds) && Coherent(ds)
    ensures r.Ok? ==> Entries(r.value) == AllAliases(ds) && Remembers(gate.state, ds)
  {
    gate := new Gates.Gate();
    var routes: Table := map[];
    var serviceId := None;
    assert Consistent([]) && Coherent([]) && Entries(routes) == AllAliases([]) && Remembers(gate.state, []);
    hide Consistent, Coherent, AllAliases, Entries, Remembers, ValidRoutes, Functional;
    for n := 0 to |ds|
      invariant Consistent(ds[..n]) && Coherent(ds[..n])
      invariant n > 0 ==> serviceId == ds[0].policy.serviceId
      invariant Entries(routes) == AllAliases(ds[..n]) && Remembers(gate.state, ds[..n])
    {
      var d := ds[n];
      if n == 0 {
        serviceId := d.policy.serviceId;
      }
      assert ds[..n + 1] == ds[..n] + [d];
      ConsistentPrefix(ds, n + 1);
      ConsistentSnoc(ds[..n], d);
      if d.policy.serviceId != serviceId || serviceId == Some("") {
        return Err("Inconsistent service identity"), gate;
      }
      var error;
      error, routes := Take(routes, gate, d, ds[..n]);
      if error.Some? {
        return Err(error.value), gate;
      }
    }
    assert ds[..|ds|] == ds;
    r := Ok(routes);
  }

  /** The table a list of discoveries gives, if it gives one. */
  predicate Gives(ds: seq<Discovery>, t: Table) {
    Consistent(ds) && Entries(t) == AllAliases(ds)
  }

  /** A name shared with another operation, or with another operation's path, stands for that operation's path. */
  predicate Agree(a: OperationRoute, b: OperationRoute) {
    && (a.name == b.name ==> Target(a) == Target(b))
    && (a.name == Target(b) ==> Target(a) == Target(b))
  }

  lemma PairsAgree(a: OperationRoute, b: OperationRoute)
    ensures Functional(Pairs(a) + Pairs(b)) <==> Agree(a, b) && Agree(b, a)
  {
    hide TrimSlashes;
    var r := Pairs(a) + Pairs(b);
    assert (a.name, Target(a)) in r && (Target(a), Target(a)) in r;
    assert (b.name, Target(b)) in r && (Target(b), Target(b)) in r;
  }

  /** The relation of a list of operations is a function exactly when any two of them agree. */
  lemma FunctionalMeans(ops: seq<OperationRoute>)
    ensures Functional(Aliases(ops)) <==> forall i, j | 0 <= i < |ops| && 0 <= j < |ops| :: Agree(ops[i], ops[j])
  {
    hide TrimSlashes, Agree, Pairs;
    var r := Aliases(ops);
    if Functional(r) {
      hide Functional;
      forall i, j | 0 <= i < |ops| && 0 <= j < |ops|
        ensures Agree(ops[i], ops[j])
      {
        SubFunctional(Pairs(ops[i]) + Pairs(ops[j]), r);
        PairsAgree(ops[i], ops[j]);
      }
    } else {
      var p, q := Clash(r);
      var i :| 0 <= i < |ops| && p in Pairs(ops[i]);
      var j :| 0 <= j < |ops| && q in Pairs(ops[j]);
      assert !Functional(Pairs(ops[i]) + Pairs(ops[j]));
      PairsAgree(ops[i], ops[j]);
    }
  }

  /** An operation some discovery shows. */
  predicate Offered(ds: seq<Discovery>, o: OperationRoute) {
    exists d :: d in ds && o in d.operations
  }

  /** The relation of all discoveries is a function exactly when any two operations shown agree. */
  lemma FunctionalAcross(ds: seq<Discovery>)
    ensures Functional(AllAliases(ds)) <==> forall o, p | Offered(ds, o) && Offered(ds, p) :: Agree(o, p)
  {
    hide Agree, Pairs;
    var r := AllAliases(ds);
    if Functional(r) {
      hide Functional;
      forall o, p | Offered(ds, o) && Offered(ds, p)
        ensures Agree(o, p)
      {
        OfferedPairs(ds, o);
        OfferedPairs(ds, p);
        SubFunctional(Pairs(o) + Pairs(p), r);
        PairsAgree(o, p);
      }
    } else {
      var p, q := Clash(r);
      var o := OfferedBy(ds, p);
      var o' := OfferedBy(ds, q);
      assert !Functional(Pairs(o) + Pairs(o'));
      PairsAgree(o, o');
    }
  }

  lemma OfferedPairs(ds: seq<Discovery>, o: OperationRoute)
    requires Offered(ds, o)
    ensures Pairs(o) <= AllAliases(ds)
  {
    hide Pairs;
    var d :| d in ds && o in d.operations;
    var i :| 0 <= i < |d.operations| && d.operations[i] == o;
    assert forall p | p in Pairs(o) :: p in Aliases(d.operations);
  }

  lemma OfferedBy(ds: seq<Discovery>, p: (string, string)) returns (o: OperationRoute)
    requires p in AllAliases(ds)
    ensures Offered(ds, o) && p in Pairs(o)
  {
    hide Pairs;
    var d :| d in ds && p in Aliases(d.operations);
    var i :| 0 <= i < |d.operations| && p in Pairs(d.operations[i]);
    o := d.operations[i];
  }

  /** Every entry is the path of an operation discovered, under its name or its path, and looking up an entry again
      gives the entry itself. */
  lemma TableIsIdempotent(ds: seq<Discovery>, t: Table, alias: string)
    requires Gives(ds, t) && alias in t
    ensures t[alias] in t && t[t[alias]] == t[alias]
    ensures Route("/" + t[alias])
    ensures exists d, o :: d in ds && o in d.operations && o.path == "/" + t[alias]
                           && (alias == o.name || "/" + alias == o.path)
  {
    assert (alias, t[alias]) in AllAliases(ds);
    var d, i :| d in ds && 0 <= i < |d.operations| && (alias, t[alias]) in Pairs(d.operations[i]);
    var op := d.operations[i];
    assert (t[alias], t[alias]) in Pairs(op) && (t[alias], t[alias]) in Aliases(d.operations);
    assert (t[alias], t[alias]) in Entries(t);
    TrimRoute(op.path);
    assert op in d.operations;
  }

  lemma EveryOperationIsFound(ds: seq<Discovery>, t: Table, d: Discovery, op: OperationRoute)
    requires Gives(ds, t) && d in ds && op in d.operations
    ensures op.name in t && Target(op) in t
    ensures op.path == "/" + t[op.name] && t[op.name] == t[Target(op)]
  {
    assert (op.name, Target(op)) in Pairs(op) && (Target(op), Target(op)) in Pairs(op);
    assert (op.name, Target(op)) in Aliases(d.operations) && (Target(op), Target(op)) in Aliases(d.operations);
    assert (op.name, Target(op)) in Entries(t) && (Target(op), Target(op)) in Entries(t);
    TrimRoute(op.path);
  }

  /** The order in which credentials are discovered changes neither the verdict on the routes nor the table. */
  lemma OrderIsIrrelevant(ds: seq<Discovery>, es: seq<Discovery>, t: Table)
    requires multiset(ds) == multiset(es)
    ensures Gives(ds, t) <==> Gives(es, t)
    ensures forall u | Gives(ds, t) && Gives(es, u) :: t == u
  {
    assert forall d :: d in ds <==> d in multiset(ds);
    assert forall d :: d in es <==> d in multiset(es);
    assert AllAliases(ds) == AllAliases(es);
    forall u | Gives(ds, t) && Gives(es, u)
      ensures t == u
    {
      SameEntries(t, u);
    }
  }

  lemma SameEntries(t: Table, u: Table)
    requires Entries(t) == Entries(u)
    ensures t == u
  {
    assert forall a | a in t :: (a, t[a]) in Entries(u);
    assert forall a | a in u :: (a, u[a]) in Entries(t);
  }
}
