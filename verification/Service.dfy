/** The owner's manifest, the schema it publishes and the requests it maps (src/service.rs). */
module Services {
  import opened Wrappers
  import opened Text
  import opened Budgets
  import opened Responses
  import opened Identities

  datatype Kind = TextKind | IntegerKind
  datatype Parameter = Parameter(name: string, kind: Kind, upstream: string)

  /** The entries of a sorted map, in its order: no name occurs twice. */
  type Parameters = ps: seq<Parameter> | forall i, j | 0 <= i < j < |ps| :: ps[i].name != ps[j].name

  datatype Operation = Operation(
    name: string, description: string, path: string, upstreamPath: string, parameters: Parameters)

  datatype Grant = Grant(
    tokenEnv: string, required: bool, principal: string, cls: Class, operations: seq<string>, maximum: nat)
  {
    function Owner(): Key {
      Key(principal, cls)
    }
  }

  datatype Service = Service(
    formatVersion: nat, serviceId: string, operations: seq<Operation>, credentials: seq<Grant>)

  // ---------- Paths ----------

  predicate StartsWith(s: string, prefix: string) {
    prefix <= s
  }

  predicate OperationPath(s: string) {
    && Route(s)
    && s != "/healthz" && s != "/readyz" && s != "/agent-policy" && s != "/admin"
    && !StartsWith(s, "/admin/")
  }

  lemma {:induction false} FirstPiece(s: string)
    ensures var p := Split(s)[0];
            && '/' !in p && p <= s && (s == p || s[|p|] == '/')
  {
    if s != "" && s[0] != '/' {
      FirstPiece(s[1..]);
      var p := Split(s[1..])[0];
      assert Split(s)[0] == [s[0]] + p;
      assert s == [s[0]] + s[1..];
    }
  }

  /** The first piece is a given word exactly when the text is that word or goes on after it with a slash. */
  lemma FirstPieceIs(s: string, word: string)
    requires '/' !in word
    ensures Split(s)[0] == word <==> s == word || StartsWith(s, word + "/")
  {
    FirstPiece(s);
    var p, longer := Split(s)[0], word + "/";
    hide Split;
    assert longer[|word|] == '/' && forall i | 0 <= i < |word| :: longer[i] == word[i] && word[i] != '/';
    assert forall i | 0 <= i < |p| :: p[i] == s[i] && p[i] != '/';
    if p == word && s != word {
      assert s[..|longer|] == longer;
    }
    if s == word || StartsWith(s, longer) {
      assert forall i | 0 <= i < |word| :: s[i] == word[i];
      assert |p| >= |word|;
      assert |p| <= |word|;
      assert p == word;
    }
  }

  lemma SlashPrefix(s: string, t: string, prefix: string)
    requires s == "/" + t
    ensures StartsWith(s, "/" + prefix) <==> StartsWith(t, prefix)
    ensures s == "/" + prefix <==> t == prefix
  {
    var longer := "/" + prefix;
    assert s[1..] == t && longer[1..] == prefix;
    if StartsWith(t, prefix) {
      assert s[..|longer|] == longer;
    }
    if StartsWith(s, longer) {
      assert t[..|prefix|] == s[1..|longer|] == prefix;
    }
  }

  /** Besides three fixed paths, what is reserved is the whole first component `admin`, not a prefix of it. */
  lemma ReservedPaths(s: string)
    ensures OperationPath(s) <==>
            Route(s) && s !in {"/healthz", "/readyz", "/agent-policy"} && Split(s[1..])[0] != "admin"
  {
    if Route(s) {
      var t := s[1..];
      assert s == "/" + t;
      FirstPieceIs(t, "admin");
      SlashPrefix(s, t, "admin");
      SlashPrefix(s, t, "admin/");
      hide Split, StartsWith, Route;
      assert "/" + "admin" == "/admin" && "/" + "admin/" == "/admin/" && "admin" + "/" == "admin/";
    }
  }

  // ---------- A well-formed manifest ----------

  predicate WellFormedOperation(op: Operation) {
    && Identifier(op.name) && OperationPath(op.path) && Route(op.upstreamPath)
    && WellFormedParameters(op.parameters)
  }

  predicate WellFormedParameters(ps: seq<Parameter>) {
    && (forall i | 0 <= i < |ps| :: Identifier(ps[i].name) && Identifier(ps[i].upstream))
    && (forall i, j | 0 <= i < j < |ps| :: ps[i].upstream != ps[j].upstream)
  }

  predicate WellFormedOperations(ops: seq<Operation>) {
    && (forall i | 0 <= i < |ops| :: WellFormedOperation(ops[i]))
    && (forall i, j | 0 <= i < j < |ops| :: ops[i].name != ops[j].name && ops[i].path != ops[j].path)
  }

  predicate WellFormedGrant(c: Grant, names: set<string>) {
    && Identifier(c.tokenEnv) && c.principal != "" && 1 <= c.maximum <= 1000
    && forall i | 0 <= i < |c.operations| :: c.operations[i] in names
  }

  predicate WellFormedGrants(cs: seq<Grant>, names: set<string>) {
    && (forall i | 0 <= i < |cs| :: WellFormedGrant(cs[i], names))
    && (forall i, j | 0 <= i < j < |cs| ::
          cs[i].tokenEnv != cs[j].tokenEnv && (cs[i].Owner() == cs[j].Owner() ==> cs[i].maximum == cs[j].maximum))
  }

  function Names(ops: seq<Operation>): set<string> {
    set op | op in ops :: op.name
  }

  predicate WellFormed(s: Service) {
    && s.formatVersion == 1
    && Identifier(s.serviceId) && s.operations != [] && s.credentials != []
    && WellFormedOperations(s.operations)
    && WellFormedGrants(s.credentials, Names(s.operations))
  }

  method CheckParameters(ps: seq<Parameter>) returns (ok: bool)
    ensures ok <==> WellFormedParameters(ps)
  {
    var seen := {};
    for n := 0 to |ps|
      invariant WellFormedParameters(ps[..n])
      invariant seen == set i | 0 <= i < n :: ps[i].upstream
    {
      if !Identifier(ps[n].name) || !Identifier(ps[n].upstream) || ps[n].upstream in seen {
        return false;
      }
      seen := seen + {ps[n].upstream};
    }
    assert ps[..|ps|] == ps;
    ok := true;
  }

  function Paths(ops: seq<Operation>): set<string> {
    set op | op in ops :: op.path
  }

  lemma OperationsSnoc(ops: seq<Operation>, op: Operation)
    ensures WellFormedOperations(ops + [op]) <==>
            && WellFormedOperations(ops) && WellFormedOperation(op)
            && op.name !in Names(ops) && op.path !in Paths(ops)
    ensures Names(ops + [op]) == Names(ops) + {op.name} && Paths(ops + [op]) == Paths(ops) + {op.path}
  {
    hide WellFormedOperation;
    var all := ops + [op];
    assert all[|ops|] == op && forall i | 0 <= i < |ops| :: all[i] == ops[i] && ops[i] in ops;
    assert forall o | o in all :: o in ops || o == op;
    assert forall o | o in ops :: o in all;
    assert op in all;
  }

  lemma OperationsPrefix(ops: seq<Operation>, n: nat)
    requires n <= |ops| && WellFormedOperations(ops)
    ensures WellFormedOperations(ops[..n])
  {
    hide WellFormedOperation;
  }

  method CheckOperations(ops: seq<Operation>) returns (ok: bool, names: set<string>)
    ensures ok <==> WellFormedOperations(ops)
    ensures ok ==> names == Names(ops)
  {
    assert WellFormedOperations([]) && Names([]) == {} && Paths([]) == {};
    hide WellFormedOperations, Names, Paths, Identifier, OperationPath, Route, WellFormedParameters;
    names := {};
    var paths := {};
    for n := 0 to |ops|
      invariant WellFormedOperations(ops[..n])
      invariant names == Names(ops[..n]) && paths == Paths(ops[..n])
    {
      var op := ops[n];
      assert ops[..n + 1] == ops[..n] + [op];
      OperationsSnoc(ops[..n], op);
      if WellFormedOperations(ops) {
        OperationsPrefix(ops, n + 1);
      }
      if !Identifier(op.name) || op.name in names || !OperationPath(op.path) || op.path in paths
         || !Route(op.upstreamPath)
      {
        return false, names;
      }
      var fine := CheckParameters(op.parameters);
      if !fine {
        return false, names;
      }
      names := names + {op.name};
      paths := paths + {op.path};
    }
    assert ops[..|ops|] == ops;
    ok := true;
  }

  /** The budgets met so far, and nothing else. */
  predicate Recorded(budgets: map<Key, nat>, cs: seq<Grant>) {
    && (forall i | 0 <= i < |cs| :: cs[i].Owner() in budgets && budgets[cs[i].Owner()] == cs[i].maximum)
    && forall k | k in budgets :: exists i :: 0 <= i < |cs| && cs[i].Owner() == k
  }

  function Variables(cs: seq<Grant>): set<string> {
    set c | c in cs :: c.tokenEnv
  }

  lemma RecordedAgree(cs: seq<Grant>, c: Grant, budgets: map<Key, nat>)
    requires Recorded(budgets, cs)
    ensures (c.Owner() in budgets ==> budgets[c.Owner()] == c.maximum) <==>
            forall i | 0 <= i < |cs| :: cs[i].Owner() == c.Owner() ==> cs[i].maximum == c.maximum
  {
  }

  lemma RecordedSnoc(cs: seq<Grant>, c: Grant, budgets: map<Key, nat>)
    requires Recorded(budgets, cs) && (c.Owner() in budgets ==> budgets[c.Owner()] == c.maximum)
    ensures Recorded(budgets[c.Owner() := c.maximum], cs + [c])
  {
    var all, updated := cs + [c], budgets[c.Owner() := c.maximum];
    assert all[|cs|] == c && forall i | 0 <= i < |cs| :: all[i] == cs[i];
    forall k | k in updated
      ensures exists i :: 0 <= i < |all| && all[i].Owner() == k
    {
      if k == c.Owner() {
        assert all[|cs|].Owner() == k;
      } else {
        var i :| 0 <= i < |cs| && cs[i].Owner() == k;
        assert all[i].Owner() == k;
      }
    }
  }

  lemma VariablesSnoc(cs: seq<Grant>, c: Grant)
    ensures Variables(cs + [c]) == Variables(cs) + {c.tokenEnv}
    ensures c.tokenEnv in Variables(cs) <==> exists i :: 0 <= i < |cs| && cs[i].tokenEnv == c.tokenEnv
  {
    var all := cs + [c];
    assert forall d | d in all :: d in cs || d == c;
    assert forall d | d in cs :: d in all;
    assert c in all;
    assert forall i | 0 <= i < |cs| :: cs[i] in cs;
  }

  /** One more grant is well formed with those before exactly when it passes the checks of the loop. */
  lemma GrantsSnoc(cs: seq<Grant>, c: Grant, names: set<string>, budgets: map<Key, nat>)
    requires WellFormedGrants(cs, names) && Recorded(budgets, cs)
    ensures WellFormedGrants(cs + [c], names) <==>
            && WellFormedGrant(c, names) && c.tokenEnv !in Variables(cs)
            && (c.Owner() in budgets ==> budgets[c.Owner()] == c.maximum)
  {
    VariablesSnoc(cs, c);
    RecordedAgree(cs, c, budgets);
    hide WellFormedGrant, Recorded, Variables;
    var all := cs + [c];
    assert all[|cs|] == c && forall i | 0 <= i < |cs| :: all[i] == cs[i];
  }

  lemma GrantsPrefix(cs: seq<Grant>, n: nat, names: set<string>)
    requires n <= |cs| && WellFormedGrants(cs, names)
    ensures WellFormedGrants(cs[..n], names)
  {
    hide WellFormedGrant;
  }

  method CheckGrants(cs: seq<Grant>, names: set<string>) returns (ok: bool)
    ensures ok <==> WellFormedGrants(cs, names)
  {
    var envs := {};
    var budgets: map<Key, nat> := map[];
    assert WellFormedGrants([], names) && Recorded(budgets, []) && Variables([]) == {};
    hide WellFormedGrants, Recorded, Variables, Identifier;
    for n := 0 to |cs|
      invariant WellFormedGrants(cs[..n], names)
      invariant envs == Variables(cs[..n]) && Recorded(budgets, cs[..n])
    {
      var c := cs[n];
      assert cs[..n + 1] == cs[..n] + [c];
      GrantsSnoc(cs[..n], c, names, budgets);
      VariablesSnoc(cs[..n], c);
      if WellFormedGrants(cs, names) {
        GrantsPrefix(cs, n + 1, names);
      }
      if !Identifier(c.tokenEnv) || c.tokenEnv in envs || c.principal == "" || !(1 <= c.maximum <= 1000)
         || exists i | 0 <= i < |c.operations| :: c.operations[i] !in names
      {
        return false;
      }
      envs := envs + {c.tokenEnv};
      var key := Key(c.principal, c.cls);
      if key in budgets && budgets[key] != c.maximum {
        return false;
      }
      RecordedSnoc(cs[..n], c, budgets);
      budgets := budgets[key := c.maximum];
    }
    assert cs[..|cs|] == cs;
    ok := true;
  }

  /** Validate a manifest. It is accepted, unchanged, exactly when it is well formed. */
  method Parse(service: Service) returns (r: Result<Service, string>)
    ensures r.Ok? <==> WellFormed(service)
    ensures r.Ok? ==> r.value == service
  {
    hide WellFormedOperations, WellFormedGrants, Identifier, Names;
    if service.formatVersion != 1 {
      return Err("Unsupported manifest format_version; expected 1");
    }
    if !Identifier(service.serviceId) || service.operations == [] || service.credentials == [] {
      return Err("Service requires an ID, operations and credentials");
    }
    var ok, names := CheckOperations(service.operations);
    if !ok {
      return Err("Invalid or duplicate operation mapping");
    }
    ok := CheckGrants(service.credentials, names);
    if !ok {
      return Err("Invalid credentials");
    }
    r := Ok(service);
  }

  // ---------- Identities from the environment ----------

  datatype Reading = Missing | Unreadable | Present(token: string)

  function OperationNames(ops: seq<Operation>): seq<string> {
    seq(|ops|, i requires 0 <= i < |ops| => ops[i].name)
  }

  predicate Readable(c: Grant, env: string -> Reading) {
    match env(c.tokenEnv)
    case Present(token) => ValidToken(token)
    case Missing => !c.required
    case Unreadable => false
  }

  function WithToken(c: Grant, token: string): Credential {
    Credential(token, c.principal, c.cls, c.operations, c.maximum)
  }

  /** The credentials whose token is there, in the manifest's order. */
  function Supplied(cs: seq<Grant>, env: string -> Reading): seq<Credential> {
    if cs == [] then []
    else
      var last := cs[|cs| - 1];
      Supplied(cs[..|cs| - 1], env)
      + (if env(last.tokenEnv).Present? then [WithToken(last, env(last.tokenEnv).token)] else [])
  }

  /** Every token that is there stands for its own entry of the manifest, and there is no other token. */
  ghost predicate ServesAll(identities: map<string, Identity>, cs: seq<Grant>, env: string -> Reading) {
    && (forall i | 0 <= i < |cs| :: Serves(identities, cs[i], env(cs[i].tokenEnv)))
    && (forall token | token in identities :: exists i :: 0 <= i < |cs| && env(cs[i].tokenEnv) == Present(token))
  }

  predicate Serves(identities: map<string, Identity>, c: Grant, reading: Reading) {
    reading.Present? ==>
      && reading.token in identities
      && identities[reading.token].principal == c.principal && identities[reading.token].cls == c.cls
      && identities[reading.token].operations == c.operations
  }

  method ReadIdentities(service: Service, env: string -> Reading) returns (r: Result<map<string, Identity>, string>)
    ensures var supplied := Supplied(service.credentials, env);
            && (r.Ok? <==>
                && (forall i | 0 <= i < |service.credentials| :: Readable(service.credentials[i], env))
                && supplied != [] && Acceptable(supplied, OperationNames(service.operations)))
            && (r.Ok? ==> Granted(r.value, supplied) && Aliased(r.value))
    ensures r.Ok? ==> ServesAll(r.value, service.credentials, env)
  {
    hide Acceptable, Granted, Aliased, ValidToken;
    var cs := service.credentials;
    var credentials: seq<Credential> := [];
    for n := 0 to |cs|
      invariant forall i | 0 <= i < n :: Readable(cs[i], env)
      invariant credentials == Supplied(cs[..n], env)
    {
      var c := cs[n];
      assert cs[..n + 1][..n] == cs[..n];
      var reading := env(c.tokenEnv);
      if reading.Missing? && !c.required {
        continue;
      }
      if !reading.Present? {
        return Err("Missing or invalid " + c.tokenEnv);
      }
      if !ValidToken(reading.token) {
        return Err("Invalid bearer token in " + c.tokenEnv);
      }
      credentials := credentials + [WithToken(c, reading.token)];
    }
    assert cs[..|cs|] == cs;
    r := Build(credentials, OperationNames(service.operations));
    if r.Ok? {
      GrantedServes(r.value, cs, env);
    }
  }

  lemma SuppliedLast(cs: seq<Grant>, env: string -> Reading)
    requires cs != []
    ensures var last := cs[|cs| - 1];
            Supplied(cs, env) == Supplied(cs[..|cs| - 1], env)
              + (if env(last.tokenEnv).Present? then [WithToken(last, env(last.tokenEnv).token)] else [])
  {
  }

  /** Every supplied credential comes from one entry of the manifest, and different ones from different entries. */
  lemma {:induction false} SuppliedFrom(cs: seq<Grant>, env: string -> Reading)
    returns (from: seq<nat>)
    ensures |from| == |Supplied(cs, env)|
    ensures forall k | 0 <= k < |from| ::
              && from[k] < |cs| && env(cs[from[k]].tokenEnv).Present?
              && Supplied(cs, env)[k] == WithToken(cs[from[k]], env(cs[from[k]].tokenEnv).token)
    ensures forall k, l | 0 <= k < l < |from| :: from[k] < from[l]
  {
    if cs == [] {
      from := [];
    } else {
      hide Supplied, WithToken;
      var last := |cs| - 1;
      var init := cs[..last];
      assert forall i | 0 <= i < last :: init[i] == cs[i];
      SuppliedLast(cs, env);
      from := SuppliedFrom(init, env);
      if env(cs[last].tokenEnv).Present? {
        from := from + [last];
      }
    }
  }

  lemma {:induction false} SuppliedOf(cs: seq<Grant>, env: string -> Reading, i: nat) returns (k: nat)
    requires i < |cs| && env(cs[i].tokenEnv).Present?
    ensures k < |Supplied(cs, env)| && Supplied(cs, env)[k] == WithToken(cs[i], env(cs[i].tokenEnv).token)
  {
    SuppliedLast(cs, env);
    hide Supplied, WithToken;
    var last := |cs| - 1;
    if i == last {
      k := |Supplied(cs, env)| - 1;
    } else {
      k := SuppliedOf(cs[..last], env, i);
    }
  }

  lemma GrantedServes(identities: map<string, Identity>, cs: seq<Grant>, env: string -> Reading)
    requires Granted(identities, Supplied(cs, env))
    ensures ServesAll(identities, cs, env)
  {
    var supplied := Supplied(cs, env);
    forall i | 0 <= i < |cs|
      ensures Serves(identities, cs[i], env(cs[i].tokenEnv))
    {
      if env(cs[i].tokenEnv).Present? {
        var k := SuppliedOf(cs, env, i);
        assert Grants(identities, supplied[k]);
      }
    }
    forall token | token in identities
      ensures exists i :: 0 <= i < |cs| && env(cs[i].tokenEnv) == Present(token)
    {
      var k := TokenFound(supplied, token);
      var from := SuppliedFrom(cs, env);
      assert env(cs[from[k]].tokenEnv) == Present(token);
    }
  }

  /** For a parsed manifest only the tokens themselves can still be wrong: the grants, the limits and the agreement of
      budgets were settled when it was parsed. */
  lemma OnlyTokensCanFail(service: Service, env: string -> Reading)
    requires WellFormed(service)
    requires forall i | 0 <= i < |service.credentials| :: Readable(service.credentials[i], env)
    ensures var supplied := Supplied(service.credentials, env);
            Acceptable(supplied, OperationNames(service.operations)) <==>
            forall k, l | 0 <= k < l < |supplied| :: supplied[k].token != supplied[l].token
  {
    var cs, supplied := service.credentials, Supplied(service.credentials, env);
    var names := OperationNames(service.operations);
    var from := SuppliedFrom(cs, env);
    forall k | 0 <= k < |supplied|
      ensures ValidCredential(supplied[k], names)
    {
      var c := cs[from[k]];
      assert Readable(c, env) && WellFormedGrant(c, Names(service.operations));
      forall i | 0 <= i < |c.operations|
        ensures c.operations[i] in names
      {
        assert c.operations[i] in Names(service.operations);
        var op :| op in service.operations && op.name == c.operations[i];
        var j :| 0 <= j < |service.operations| && service.operations[j] == op;
        assert names[j] == op.name;
      }
    }
    forall k, l | 0 <= k < l < |supplied|
      ensures Compatible(supplied[k], supplied[l]) <==> supplied[k].token != supplied[l].token
    {
      assert from[k] < from[l];
      assert cs[from[k]].Owner() == supplied[k].Owner() && cs[from[l]].Owner() == supplied[l].Owner();
    }
  }

  // ---------- The published schema ----------

  function PropertySchema(kind: Kind): Json {
    match kind
    case TextKind => Obj(map["type" := Str("string")])
    case IntegerKind => Obj(map["type" := Str("integer"), "minimum" := Int(0)])
  }

  function Properties(ps: seq<Parameter>): map<string, Json> {
    if ps == [] then map[] else Properties(ps[1..])[ps[0].name := PropertySchema(ps[0].kind)]
  }

  function InputSchema(op: Operation): Json {
    Obj(map[
          "$schema" := Str("https://json-schema.org/draft/2020-12/schema"),
          "type" := Str("object"),
          "properties" := Obj(Properties(op.parameters)),
          "required" := Arr(seq(|op.parameters|, i requires 0 <= i < |op.parameters| => Str(op.parameters[i].name))),
          "additionalProperties" := Bool(false)])
  }

  predicate IsInteger(v: Json) {
    v.Int? || (v.Float? && v.r.Floor as real == v.r)
  }

  function Value(v: Json): real
    requires v.Int? || v.Float?
  {
    if v.Int? then v.n as real else v.r
  }

  predicate HasType(name: string, v: Json) {
    match name
    case "string" => v.Str?
    case "integer" => IsInteger(v)
    case "object" => v.Obj?
    case _ => false
  }

  /** JSON Schema validation for the keywords used here (draft 2020-12, sections 6.1.1, 6.2.4, 6.5.3 of the validation
      vocabulary, and 10.3.2.1 and 10.3.2.3 of the core specification). */
  predicate Accepts(schema: Json, v: Json)
    decreases schema
  {
    schema.Obj? ==>
      var s := schema.fields;
      && ("type" in s && s["type"].Str? ==> HasType(s["type"].s, v))
      && ("minimum" in s && s["minimum"].Int? && (v.Int? || v.Float?) ==> Value(v) >= s["minimum"].n as real)
      && (v.Obj? ==>
            && ("required" in s && s["required"].Arr? ==>
                  forall i | 0 <= i < |s["required"].items| ::
                    s["required"].items[i].Str? ==> s["required"].items[i].s in v.fields)
            && ("properties" in s && s["properties"].Obj? ==>
                  var p := s["properties"].fields;
                  && (forall k | k in p && k in v.fields :: Accepts(p[k], v.fields[k]))
                  && ("additionalProperties" in s && s["additionalProperties"] == Bool(false) ==>
                        forall k | k in v.fields :: k in p)))
  }

  // ---------- Requests ----------

  const U64_LIMIT: nat := 0x1_0000_0000_0000_0000

  datatype UpstreamRequest = UpstreamRequest(path: string, query: seq<(string, string)>)

  function ParameterText(kind: Kind, v: Json): Option<string> {
    match kind
    case TextKind => if v.Str? then Some(v.s) else None
    case IntegerKind => if v.Int? && 0 <= v.n < U64_LIMIT then Some(Decimal(v.n)) else None
  }

  function Query(ps: seq<Parameter>, fields: map<string, Json>): Result<seq<(string, string)>, string> {
    if ps == [] then Ok([])
    else if ps[0].name !in fields then Err("Missing operation parameter")
    else
      var text := ParameterText(ps[0].kind, fields[ps[0].name]);
      if text.None? then Err("Invalid operation parameter type")
      else
        var rest := Query(ps[1..], fields);
        if rest.Err? then rest else Ok([(ps[0].upstream, text.value)] + rest.value)
  }

  function Request(op: Operation, params: Json): Result<UpstreamRequest, string> {
    if !params.Obj? || |params.fields| != |op.parameters| then Err("Invalid operation parameters")
    else
      var query := Query(op.parameters, params.fields);
      if query.Err? then Err(query.error) else Ok(UpstreamRequest(op.upstreamPath, query.value))
  }

  // ---------- What the mapping guarantees ----------

  function ParameterNames(ps: seq<Parameter>): set<string> {
    set i | 0 <= i < |ps| :: ps[i].name
  }

  lemma {:induction false} CountNames(ps: Parameters)
    ensures |ParameterNames(ps)| == |ps|
  {
    if ps == [] {
      assert ParameterNames(ps) == {};
    } else {
      var last := |ps| - 1;
      var rest: Parameters := ps[..last];
      CountNames(rest);
      assert ParameterNames(ps) == ParameterNames(rest) + {ps[last].name} by {
        assert forall i | 0 <= i < last :: rest[i] == ps[i];
      }
      assert ps[last].name !in ParameterNames(rest);
    }
  }

  lemma SameSize(a: set<string>, b: set<string>)
    requires a <= b && |a| == |b|
    ensures a == b
  {
    assert |b - a| == |b| - |a|;
  }

  /** As many fields as parameters and every parameter present: the keys are exactly the parameter names. */
  lemma CountAndPresence(ps: Parameters, fields: map<string, Json>)
    ensures fields.Keys == ParameterNames(ps) <==>
            |fields| == |ps| && forall i | 0 <= i < |ps| :: ps[i].name in fields
  {
    CountNames(ps);
    assert |fields| == |fields.Keys|;
    assert forall i | 0 <= i < |ps| :: ps[i].name in ParameterNames(ps);
    if |fields| == |ps| && forall i | 0 <= i < |ps| :: ps[i].name in fields {
      SameSize(ParameterNames(ps), fields.Keys);
    }
  }

  /** The value has the type of the parameter: text, or an integer literal from 0 below 2^64. */
  predicate Fits(kind: Kind, v: Json) {
    match kind
    case TextKind => v.Str?
    case IntegerKind => v.Int? && 0 <= v.n < 18446744073709551616
  }

  /** The text says the value: itself, or the one numeral without needless zeros that reads as the number. */
  predicate Spells(kind: Kind, v: Json, text: string) {
    match kind
    case TextKind => v == Str(text)
    case IntegerKind => Canonical(text) && v == Int(Number(text))
  }

  lemma TextSpells(kind: Kind, v: Json)
    ensures ParameterText(kind, v).Some? <==> Fits(kind, v)
    ensures Fits(kind, v) ==> Spells(kind, v, ParameterText(kind, v).value)
  {
  }

  lemma SpellingIsUnique(kind: Kind, v: Json, text: string, other: string)
    requires Spells(kind, v, text) && Spells(kind, v, other)
    ensures text == other
  {
    if kind.IntegerKind? {
      DecimalOnly(text);
      DecimalOnly(other);
    }
  }

  lemma SpellsOneValue(kind: Kind, v: Json, w: Json, text: string)
    requires Spells(kind, v, text) && Spells(kind, w, text)
    ensures v == w
  {
  }

  predicate Renders(p: Parameter, fields: map<string, Json>) {
    p.name in fields && Fits(p.kind, fields[p.name])
  }

  /** The query is built exactly when every parameter is there with its type; it then lists the upstream keys in order,
      each with the text that says the value given for its own parameter. */
  lemma {:induction false} QueryByParameter(ps: seq<Parameter>, fields: map<string, Json>)
    ensures Query(ps, fields).Ok? <==> forall i | 0 <= i < |ps| :: Renders(ps[i], fields)
    ensures Query(ps, fields).Ok? ==>
              && |Query(ps, fields).value| == |ps|
              && forall i | 0 <= i < |ps| ::
                   && Renders(ps[i], fields)
                   && Query(ps, fields).value[i].0 == ps[i].upstream
                   && Spells(ps[i].kind, fields[ps[i].name], Query(ps, fields).value[i].1)
  {
    if ps != [] {
      QueryByParameter(ps[1..], fields);
      if ps[0].name in fields {
        TextSpells(ps[0].kind, fields[ps[0].name]);
      }
      hide ParameterText, Spells, Fits;
      assert forall i | 0 < i < |ps| :: ps[i] == ps[1..][i - 1];
      assert forall i | 0 <= i < |ps| - 1 :: ps[1..][i] == ps[i + 1];
    }
  }

  lemma {:induction false} PropertiesByName(ps: Parameters)
    ensures Properties(ps).Keys == ParameterNames(ps)
    ensures forall i | 0 <= i < |ps| :: ps[i].name in Properties(ps)
                                        && Properties(ps)[ps[i].name] == PropertySchema(ps[i].kind)
  {
    if ps != [] {
      var rest: Parameters := ps[1..];
      assert forall i | 0 < i < |ps| :: ps[i] == rest[i - 1];
      assert forall i | 0 <= i < |rest| :: rest[i] == ps[i + 1];
      PropertiesByName(rest);
      assert ParameterNames(ps) == {ps[0].name} + ParameterNames(rest) by {
        forall i | 0 < i < |ps|
          ensures ps[i].name in ParameterNames(rest)
        {
          assert rest[i - 1] == ps[i];
        }
      }
    }
  }

  /** Integer parameters written as integer literals below 2^64. */
  predicate IntegersFit(ps: seq<Parameter>, params: Json) {
    params.Obj? ==>
      forall i | 0 <= i < |ps| && ps[i].kind.IntegerKind? && ps[i].name in params.fields ::
        params.fields[ps[i].name].Int? && params.fields[ps[i].name].n < U64_LIMIT
  }

  /** An object schema of the published shape, keyword by keyword. */
  lemma ObjectSchema(s: map<string, Json>, properties: map<string, Json>, required: seq<Json>, v: Json)
    requires "type" in s && s["type"] == Str("object") && "minimum" !in s
    requires "properties" in s && s["properties"] == Obj(properties)
    requires "required" in s && s["required"] == Arr(required) && forall i | 0 <= i < |required| :: required[i].Str?
    requires "additionalProperties" in s && s["additionalProperties"] == Bool(false)
    ensures Accepts(Obj(s), v) <==>
            && v.Obj? && v.fields.Keys <= properties.Keys
            && (forall i | 0 <= i < |required| :: required[i].s in v.fields)
            && forall k | k in properties && k in v.fields :: Accepts(properties[k], v.fields[k])
  {
  }

  lemma SchemaByParameter(op: Operation, params: Json)
    ensures Accepts(InputSchema(op), params) <==>
            && params.Obj? && params.fields.Keys == ParameterNames(op.parameters)
            && forall i | 0 <= i < |op.parameters| ::
                 op.parameters[i].name in params.fields
                 && Accepts(PropertySchema(op.parameters[i].kind), params.fields[op.parameters[i].name])
  {
    hide Accepts, PropertySchema, Properties;
    var ps := op.parameters;
    var s := InputSchema(op).fields;
    var required := s["required"].items;
    ObjectSchema(s, Properties(ps), required, params);
    PropertiesByName(ps);
    assert forall i | 0 <= i < |ps| :: required[i] == Str(ps[i].name) && ps[i].name in ParameterNames(ps);
  }

  /** A request succeeds exactly on what the published schema accepts, with integers as literals below 2^64. */
  lemma RequestMeetsSchema(op: Operation, params: Json)
    ensures Request(op, params).Ok? <==> Accepts(InputSchema(op), params) && IntegersFit(op.parameters, params)
  {
    SchemaByParameter(op, params);
    hide InputSchema, Accepts;
    if params.Obj? {
      CountAndPresence(op.parameters, params.fields);
      QueryByParameter(op.parameters, params.fields);
      forall i | 0 <= i < |op.parameters| && op.parameters[i].name in params.fields
        ensures Renders(op.parameters[i], params.fields) <==>
                && Accepts(PropertySchema(op.parameters[i].kind), params.fields[op.parameters[i].name])
                && (op.parameters[i].kind.IntegerKind? ==>
                      params.fields[op.parameters[i].name].Int? && params.fields[op.parameters[i].name].n < U64_LIMIT)
      {
        PropertyMeetsText(op.parameters[i].kind, params.fields[op.parameters[i].name]);
      }
    }
  }

  lemma PropertyMeetsText(kind: Kind, v: Json)
    ensures Fits(kind, v) <==>
            Accepts(PropertySchema(kind), v) && (kind.IntegerKind? ==> v.Int? && v.n < U64_LIMIT)
  {
    var s := PropertySchema(kind).fields;
    match kind
    case TextKind => assert s["type"] == Str("string");
    case IntegerKind => assert s["type"] == Str("integer") && s["minimum"] == Int(0);
  }

  lemma OnlySchemaAccepts(op: Operation, v: Json)
    requires op.parameters == [Parameter("id", IntegerKind, "id")]
    requires Accepts(PropertySchema(IntegerKind), v) && !Fits(IntegerKind, v)
    ensures var params := Obj(map["id" := v]); Accepts(InputSchema(op), params) && Request(op, params).Err?
  {
    var params := Obj(map["id" := v]);
    hide Accepts, InputSchema, Fits, PropertySchema;
    SchemaByParameter(op, params);
    assert ParameterNames(op.parameters) == {"id"} by {
      assert op.parameters[0].name == "id";
    }
    QueryByParameter(op.parameters, params.fields);
    assert !Renders(op.parameters[0], params.fields);
  }

  /** The schema alone is not enough: these two values are accepted by it and refused by the request. */
  lemma SchemaIsWider(op: Operation)
    requires op.parameters == [Parameter("id", IntegerKind, "id")]
    ensures var big := Obj(map["id" := Int(U64_LIMIT)]);
            Accepts(InputSchema(op), big) && Request(op, big).Err?
    ensures var one := Obj(map["id" := Float(1.0)]);
            Accepts(InputSchema(op), one) && Request(op, one).Err?
  {
    PropertyMeetsText(IntegerKind, Int(U64_LIMIT));
    PropertyMeetsText(IntegerKind, Float(1.0));
    var s := PropertySchema(IntegerKind).fields;
    assert s["type"] == Str("integer") && s["minimum"] == Int(0);
    assert Accepts(PropertySchema(IntegerKind), Int(U64_LIMIT)) && Accepts(PropertySchema(IntegerKind), Float(1.0));
    hide Accepts, InputSchema, PropertySchema;
    OnlySchemaAccepts(op, Int(U64_LIMIT));
    OnlySchemaAccepts(op, Float(1.0));
  }

  /** The request goes to the operation's own upstream path, and no two of its query entries have the same key. */
  lemma QueryKeysDiffer(op: Operation, params: Json)
    requires WellFormedOperation(op) && Request(op, params).Ok?
    ensures var query := Request(op, params).value.query;
            && Request(op, params).value.path == op.upstreamPath
            && |query| == |op.parameters|
            && (forall i | 0 <= i < |query| :: query[i].0 == op.parameters[i].upstream)
            && forall i, j | 0 <= i < j < |query| :: query[i].0 != query[j].0
  {
    QueryByParameter(op.parameters, params.fields);
  }

  /** What one entry of an accepted request says: the value given for its parameter, digit by digit or letter by
      letter. */
  lemma EntrySaysValue(op: Operation, params: Json, i: nat)
    requires Request(op, params).Ok? && i < |op.parameters|
    ensures var p, query := op.parameters[i], Request(op, params).value.query;
            && i < |query| && params.Obj? && p.name in params.fields && query[i].0 == p.upstream
            && (p.kind == TextKind ==> params.fields[p.name].Str? && query[i].1 == params.fields[p.name].s)
            && (p.kind == IntegerKind ==>
                  && params.fields[p.name].Int? && 0 <= params.fields[p.name].n < 18446744073709551616
                  && IsNumber(query[i].1) && Number(query[i].1) == params.fields[p.name].n
                  && (|query[i].1| > 1 ==> query[i].1[0] != '0'))
  {
    QueryByParameter(op.parameters, params.fields);
    assert Renders(op.parameters[i], params.fields);
  }

  /** The upstream request loses nothing: different accepted parameters make different requests. */
  lemma RequestIsInjective(op: Operation, a: Json, b: Json)
    requires Request(op, a).Ok? && Request(op, a) == Request(op, b)
    ensures a == b
  {
    hide Query, Spells, Fits;
    var ps := op.parameters;
    CountAndPresence(ps, a.fields);
    CountAndPresence(ps, b.fields);
    QueryByParameter(ps, a.fields);
    QueryByParameter(ps, b.fields);
    forall k | k in a.fields
      ensures k in b.fields && a.fields[k] == b.fields[k]
    {
      var i :| 0 <= i < |ps| && ps[i].name == k;
      assert Query(ps, a.fields).value[i] == Query(ps, b.fields).value[i];
      SpellsOneValue(ps[i].kind, a.fields[k], b.fields[k], Query(ps, a.fields).value[i].1);
    }
    assert a.fields == b.fields;
  }
}
