/** Credentials and the budget objects they share (src/gateway.rs, `agent_budget` in src/lib.rs). */
module Identities {
  import opened Wrappers
  import opened Budgets
  import Text

  datatype Credential = Credential(
    token: string, principal: string, cls: Class, operations: seq<string>, maximum: nat)
  {
    function Owner(): Key {
      Key(principal, cls)
    }
  }

  datatype Identity = Identity(principal: string, cls: Class, operations: seq<string>, budget: Budget) {
    function Owner(): Key {
      Key(principal, cls)
    }
  }

  predicate ValidToken(token: string) {
    token != "" && forall i | 0 <= i < |token| :: Text.IsAlphanumeric(token[i]) || token[i] in "-._~+/="
  }

  predicate ValidCredential(c: Credential, operations: seq<string>) {
    && ValidToken(c.token)
    && c.principal != "" && 1 <= c.maximum <= 1000
    && forall i | 0 <= i < |c.operations| :: c.operations[i] in operations
  }

  /** Tokens are distinct, and credentials of one owner and class agree on the budget. */
  predicate Compatible(a: Credential, b: Credential) {
    && a.token != b.token
    && (a.Owner() == b.Owner() ==> a.maximum == b.maximum)
  }

  predicate Acceptable(credentials: seq<Credential>, operations: seq<string>) {
    && (forall i | 0 <= i < |credentials| :: ValidCredential(credentials[i], operations))
    && (forall i, j | 0 <= i < j < |credentials| :: Compatible(credentials[i], credentials[j]))
  }

  /** Two tokens hold the same budget object exactly when their owner and class agree. */
  ghost predicate Aliased(identities: map<string, Identity>) {
    forall t, u | t in identities && u in identities ::
      identities[t].budget == identities[u].budget <==> identities[t].Owner() == identities[u].Owner()
  }

  function Tokens(credentials: seq<Credential>): set<string> {
    set i | 0 <= i < |credentials| :: credentials[i].token
  }

  function Owners(credentials: seq<Credential>): set<Key> {
    set i | 0 <= i < |credentials| :: credentials[i].Owner()
  }

  /** Every credential has its identity, with its own grant, and there is no other. */
  ghost predicate Granted(identities: map<string, Identity>, credentials: seq<Credential>) {
    && identities.Keys == Tokens(credentials)
    && forall i | 0 <= i < |credentials| :: Grants(identities, credentials[i])
  }

  ghost predicate Grants(identities: map<string, Identity>, c: Credential) {
    && c.token in identities
    && identities[c.token].Owner() == c.Owner() && identities[c.token].operations == c.operations
  }

  /** The state of the loop: one budget for each owner and class met, each still as it was made. */
  ghost predicate Building(identities: map<string, Identity>, budgets: map<Key, Budget>, done: seq<Credential>)
    reads budgets.Values
  {
    && Granted(identities, done) && Separate(budgets)
    && budgets.Keys == Owners(done)
    && Held(identities, budgets) && Untouched(budgets, done)
  }

  ghost predicate Held(identities: map<string, Identity>, budgets: map<Key, Budget>) {
    forall t | t in identities ::
      identities[t].Owner() in budgets && identities[t].budget == budgets[identities[t].Owner()]
  }

  ghost predicate Untouched(budgets: map<Key, Budget>, done: seq<Credential>)
    reads budgets.Values
  {
    forall i | 0 <= i < |done| ::
      done[i].Owner() in budgets && budgets[done[i].Owner()].state == Fresh(done[i].maximum)
  }

  lemma AppendSets(done: seq<Credential>, c: Credential)
    ensures Tokens(done + [c]) == Tokens(done) + {c.token}
    ensures Owners(done + [c]) == Owners(done) + {c.Owner()}
  {
    var all := done + [c];
    assert all[|done|] == c && forall i | 0 <= i < |done| :: all[i] == done[i];
    assert forall i | 0 <= i < |done| :: done[i].token in Tokens(all) && done[i].Owner() in Owners(all);
    assert c.token in Tokens(all) && c.Owner() in Owners(all);
  }

  lemma TokenFound(done: seq<Credential>, token: string) returns (i: nat)
    requires token in Tokens(done)
    ensures i < |done| && done[i].token == token
  {
    i :| 0 <= i < |done| && done[i].token == token;
  }

  lemma OwnerFound(done: seq<Credential>, owner: Key) returns (i: nat)
    requires owner in Owners(done)
    ensures i < |done| && done[i].Owner() == owner
  {
    i :| 0 <= i < |done| && done[i].Owner() == owner;
  }

  lemma Rejections(c: Credential, identities: map<string, Identity>, budgets: map<Key, Budget>, done: seq<Credential>)
    requires Building(identities, budgets, done)
    ensures (forall i | 0 <= i < |done| :: Compatible(done[i], c)) <==>
            && c.token !in identities
            && (c.Owner() in budgets ==> budgets[c.Owner()].state.maximum == c.maximum)
  {
    hide Separate, Owners, Tokens;
    if c.token in identities {
      var i := TokenFound(done, c.token);
      assert !Compatible(done[i], c);
    }
    if c.Owner() in budgets {
      var i := OwnerFound(done, c.Owner());
      assert Compatible(done[i], c) ==> done[i].maximum == c.maximum;
    }
    forall i | 0 <= i < |done| && !Compatible(done[i], c)
      ensures c.token in identities || (c.Owner() in budgets && budgets[c.Owner()].state.maximum != c.maximum)
    {
      assert Grants(identities, done[i]);
    }
  }

  lemma GrantedSnoc(identities: map<string, Identity>, done: seq<Credential>, c: Credential, budget: Budget)
    requires Granted(identities, done) && c.token !in identities
    ensures Granted(identities[c.token := Identity(c.principal, c.cls, c.operations, budget)], done + [c])
  {
    AppendSets(done, c);
    hide Tokens;
    var all := done + [c];
    var identities' := identities[c.token := Identity(c.principal, c.cls, c.operations, budget)];
    forall i | 0 <= i < |all|
      ensures Grants(identities', all[i])
    {
      if i < |done| {
        assert all[i] == done[i] && Grants(identities, done[i]);
      }
    }
  }

  lemma HeldSnoc(identities: map<string, Identity>, budgets: map<Key, Budget>, token: string, identity: Identity)
    requires Held(identities, budgets)
    requires identity.Owner() in budgets ==> identity.budget == budgets[identity.Owner()]
    ensures Held(identities[token := identity], budgets[identity.Owner() := identity.budget])
  {
  }

  lemma SeparateSnoc(budgets: map<Key, Budget>, owner: Key, budget: Budget)
    requires Separate(budgets)
    requires if owner in budgets then budget == budgets[owner] else budget !in budgets.Values
    ensures Separate(budgets[owner := budget])
  {
    assert forall k | k in budgets :: budgets[k] in budgets.Values;
  }

  lemma UntouchedSnoc(budgets: map<Key, Budget>, done: seq<Credential>, c: Credential, budget: Budget)
    requires Untouched(budgets, done)
    requires c.Owner() in budgets ==> budget == budgets[c.Owner()]
    requires budget.state == Fresh(c.maximum)
    ensures Untouched(budgets[c.Owner() := budget], done + [c])
  {
    var all := done + [c];
    assert forall i | 0 <= i < |done| :: all[i] == done[i];
  }

  lemma Extended(c: Credential, identities: map<string, Identity>, budgets: map<Key, Budget>, budget: Budget,
                 done: seq<Credential>)
    requires Building(identities, budgets, done) && c.token !in identities
    requires budget.state.maximum == c.maximum
    requires if c.Owner() in budgets then budget == budgets[c.Owner()]
             else budget !in budgets.Values && budget.state == Fresh(c.maximum)
    ensures Building(identities[c.token := Identity(c.principal, c.cls, c.operations, budget)],
                     budgets[c.Owner() := budget], done + [c])
  {
    var identity := Identity(c.principal, c.cls, c.operations, budget);
    assert budget.state == Fresh(c.maximum) by {
      hide Owners;
      if c.Owner() in budgets {
        var i := OwnerFound(done, c.Owner());
      }
    }
    hide Granted, Owners, Untouched, Held, Separate;
    AppendSets(done, c);
    GrantedSnoc(identities, done, c, budget);
    HeldSnoc(identities, budgets, c.token, identity);
    SeparateSnoc(budgets, c.Owner(), budget);
    UntouchedSnoc(budgets, done, c, budget);
  }

  /** The budget of an owner and class, made when they are met first. */
  method BudgetOf(key: Key, maximum: nat, budgets: map<Key, Budget>)
    returns (budget: Budget, budgets': map<Key, Budget>)
    ensures budgets' == budgets[key := budget]
    ensures if key in budgets then budget == budgets[key] else fresh(budget) && budget.state == Fresh(maximum)
  {
    budgets' := budgets;
    if key !in budgets {
      budget := new Budget(maximum);
      budgets' := budgets[key := budget];
    }
    budget := budgets'[key];
  }

  /** Give a valid credential its budget and its identity, unless another one disagrees. */
  method Join(c: Credential, identities: map<string, Identity>, budgets: map<Key, Budget>, ghost done: seq<Credential>)
    returns (error: Option<string>, identities': map<string, Identity>, budgets': map<Key, Budget>)
    requires Building(identities, budgets, done)
    ensures error.None? <==> forall i | 0 <= i < |done| :: Compatible(done[i], c)
    ensures error.None? ==> Building(identities', budgets', done + [c])
    ensures error.None? ==>
              forall k | k in budgets' :: (k in budgets && budgets'[k] == budgets[k]) || fresh(budgets'[k])
  {
    identities', budgets' := identities, budgets;
    Rejections(c, identities, budgets, done);
    hide Building, Compatible, ValidToken, Fresh;
    var budget;
    budget, budgets' := BudgetOf(Key(c.principal, c.cls), c.maximum, budgets);
    if budget.state.maximum != c.maximum {
      return Some("Tokens of one owner and class must specify the same budget"), identities', budgets';
    }
    if c.token in identities {
      return Some("Token values must be distinct"), identities', budgets';
    }
    identities' := identities[c.token := Identity(c.principal, c.cls, c.operations, budget)];
    Extended(c, identities, budgets, budget, done);
    error := None;
  }

  /** One turn of the loop. */
  method Add(c: Credential, operations: seq<string>, identities: map<string, Identity>, budgets: map<Key, Budget>,
             ghost done: seq<Credential>)
    returns (error: Option<string>, identities': map<string, Identity>, budgets': map<Key, Budget>)
    requires Building(identities, budgets, done)
    ensures error.None? <==> ValidCredential(c, operations) && forall i | 0 <= i < |done| :: Compatible(done[i], c)
    ensures error.None? ==> Building(identities', budgets', done + [c])
    ensures error.None? ==>
              forall k | k in budgets' :: (k in budgets && budgets'[k] == budgets[k]) || fresh(budgets'[k])
  {
    identities', budgets' := identities, budgets;
    if !ValidToken(c.token) {
      return Some("Invalid bearer token"), identities', budgets';
    }
    if c.principal == "" || !(1 <= c.maximum <= 1000)
       || exists i | 0 <= i < |c.operations| :: c.operations[i] !in operations
    {
      return Some("Invalid credential or permission mapping"), identities', budgets';
    }
    error, identities', budgets' := Join(c, identities, budgets, done);
  }

  lemma Built(identities: map<string, Identity>, budgets: map<Key, Budget>, done: seq<Credential>)
    requires Building(identities, budgets, done)
    ensures Granted(identities, done) && Aliased(identities)
    ensures forall i | 0 <= i < |done| ::
              && done[i].token in identities
              && identities[done[i].token].budget in budgets.Values
              && identities[done[i].token].budget.state == Fresh(done[i].maximum)
    ensures identities == map[] <==> done == []
  {
    if done == [] {
      assert identities.Keys == {};
    } else {
      assert Grants(identities, done[0]);
    }
    hide Owners, Tokens;
    forall i | 0 <= i < |done|
      ensures done[i].token in identities && done[i].Owner() in budgets
      ensures identities[done[i].token].budget == budgets[done[i].Owner()]
    {
      assert Grants(identities, done[i]);
    }
  }

  lemma AcceptableSnoc(done: seq<Credential>, c: Credential, operations: seq<string>)
    requires Acceptable(done, operations)
    ensures Acceptable(done + [c], operations) <==>
            ValidCredential(c, operations) && forall i | 0 <= i < |done| :: Compatible(done[i], c)
  {
    hide ValidCredential, Compatible;
    var all := done + [c];
    assert all[|done|] == c && forall i | 0 <= i < |done| :: all[i] == done[i];
  }

  lemma AcceptablePrefix(credentials: seq<Credential>, n: nat, operations: seq<string>)
    requires n <= |credentials| && Acceptable(credentials, operations)
    ensures Acceptable(credentials[..n], operations)
  {
    hide ValidCredential, Compatible;
  }

  /** Build the identities. It succeeds exactly on a non-empty acceptable list, and then two tokens share one new
      budget exactly when they share owner and class. */
  method Build(credentials: seq<Credential>, operations: seq<string>) returns (r: Result<map<string, Identity>, string>)
    ensures r.Ok? <==> credentials != [] && Acceptable(credentials, operations)
    ensures r.Ok? ==> Granted(r.value, credentials) && Aliased(r.value)
    ensures r.Ok? ==> forall i | 0 <= i < |credentials| ::
              && credentials[i].token in r.value
              && fresh(r.value[credentials[i].token].budget)
              && r.value[credentials[i].token].budget.state == Fresh(credentials[i].maximum)
  {
    var identities: map<string, Identity> := map[];
    var budgets: map<Key, Budget> := map[];
    assert Acceptable([], operations) && Building(identities, budgets, []);
    hide Building, Compatible, ValidCredential, Acceptable, Granted, Aliased;
    for n := 0 to |credentials|
      invariant Acceptable(credentials[..n], operations)
      invariant Building(identities, budgets, credentials[..n])
      invariant forall k | k in budgets :: fresh(budgets[k])
    {
      assert credentials[..n + 1] == credentials[..n] + [credentials[n]];
      AcceptableSnoc(credentials[..n], credentials[n], operations);
      var error;
      error, identities, budgets := Add(credentials[n], operations, identities, budgets, credentials[..n]);
      if error.Some? {
        if Acceptable(credentials, operations) {
          AcceptablePrefix(credentials, n + 1, operations);
        }
        return Err(error.value);
      }
    }
    assert credentials[..|credentials|] == credentials;
    Built(identities, budgets, credentials);
    if identities == map[] {
      return Err("At least one credential is required");
    }
    r := Ok(identities);
  }

  /** The agent budget of an owner, found in whatever order the map is iterated: it does not depend on it. */
  method AgentBudget(identities: map<string, Identity>, principal: string) returns (budget: Option<Budget>)
    requires Aliased(identities)
    ensures budget.Some? <==> exists t :: t in identities && identities[t].Owner() == Key(principal, Agent)
    ensures budget.Some? ==>
              forall t | t in identities ::
                identities[t].budget == budget.value <==> identities[t].Owner() == Key(principal, Agent)
  {
    if t :| t in identities && identities[t].principal == principal && identities[t].cls.Agent? {
      assert identities[t].Owner() == Key(principal, Agent);
      return Some(identities[t].budget);
    }
    budget := None;
  }

  /** A limit update reaches every agent token of that owner and no other budget. */
  method SetAgentLimit(identities: map<string, Identity>, principal: string, maximum: nat)
    returns (r: Result<Snapshot, string>)
    requires Aliased(identities)
    modifies set t | t in identities :: identities[t].budget
    ensures r.Ok? <==> 1 <= maximum <= 1000
                       && exists t :: t in identities && identities[t].Owner() == Key(principal, Agent)
    ensures forall t | t in identities ::
              identities[t].budget.state ==
              if r.Ok? && identities[t].Owner() == Key(principal, Agent)
              then Resized(old(identities[t].budget.state), maximum) else old(identities[t].budget.state)
    ensures r.Ok? ==> forall t | t in identities && identities[t].Owner() == Key(principal, Agent) ::
              identities[t].budget.state == r.value
  {
    if !(1 <= maximum <= 1000) {
      return Err("max_outstanding must be an integer from 1 to 1000");
    }
    var budget := AgentBudget(identities, principal);
    if budget == None {
      return Err("Unknown agent principal");
    }
    var seen := budget.value.SetMaximum(maximum);
    r := Ok(seen);
  }
}
