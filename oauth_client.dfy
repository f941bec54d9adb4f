/** OAuth clients: the role/division grants, redirect URIs and scopes sent
    to the API, the schema's value checks, the exporter and the delete
    sequence that deactivates the client before deleting it. */
module OAuthClient {
  import opened Common

  // ---------------------------------------------------------------------
  // Schema checks

  const MinTokenValiditySeconds: int := 300
  const MaxTokenValiditySeconds: int := 172800
  const DefaultTokenValiditySeconds: int := 86400

  /** validation.IntBetween(300, 172800): five minutes to 48 hours. */
  predicate ValidTokenValidity(seconds: int)
  {
    MinTokenValiditySeconds <= seconds <= MaxTokenValiditySeconds
  }

  /** The states a configuration may ask for. */
  const ConfigurableStates: seq<string> := ["active", "inactive"]
  const DefaultState: string := "active"

  predicate ValidState(s: string) { s in ConfigurableStates }

  /** The grant types of sections 4.1 to 4.4 of RFC 6749 and the SAML 2.0
      bearer assertion grant of RFC 7522. */
  const GrantTypes: seq<string> := ["CODE", "TOKEN", "SAML2BEARER", "PASSWORD", "CLIENT-CREDENTIALS"]

  predicate ValidGrantType(s: string) { s in GrantTypes }

  /** The schema's defaults pass its own validation; the deactivation that
      delete performs asks for a configurable state; the states the server
      reports for a disabled or deleted client cannot be configured. */
  lemma {:induction false} SchemaChecks(seconds: int)
    ensures ValidTokenValidity(DefaultTokenValiditySeconds) && ValidState(DefaultState)
    ensures ValidState("inactive") && !ValidState("deleted") && !ValidState("disabled")
    ensures ValidTokenValidity(seconds) <==> 5 * 60 <= seconds <= 48 * 60 * 60
    ensures |GrantTypes| == 5 && ValidGrantType("CLIENT-CREDENTIALS")
  {
    assert ConfigurableStates[1] == "inactive";
    assert GrantTypes[4] == "CLIENT-CREDENTIALS";
  }

  // ---------------------------------------------------------------------
  // Roles

  /** The API's Roledivision: one role granted in one division. */
  datatype RoleDivision = RoleDivision(roleId: Option<string>, divisionId: Option<string>)

  /** The configured `roles` blocks. */
  function RoleConfigs(attrs: Attrs): seq<Value>
  {
    if GetOk(attrs, "roles") then SetOf(attrs["roles"]) else []
  }

  /** The division a role block names; the empty string when it names none. */
  function ConfiguredDivision(role: Value): string
  {
    GetString(MapOf(role), "division_id")
  }

  /** A role block needs the home division when it names no division. */
  predicate NeedsHome(role: Value) { ConfiguredDivision(role) == "" }

  /** The grant a role block stands for, an empty division replaced by the
      home division. */
  function RoleDivisionOf(role: Value, home: string): RoleDivision
  {
    var div := ConfiguredDivision(role);
    RoleDivision(Some(GetString(MapOf(role), "role_id")), Some(if div == "" then home else div))
  }

  /** The home division lookup fails while some role needs it. */
  predicate HomeLookupFails(attrs: Attrs, home: Option<string>)
  {
    home.None? && exists i :: 0 <= i < |RoleConfigs(attrs)| && NeedsHome(RoleConfigs(attrs)[i])
  }

  /** The grants buildOAuthRoles sends: nil when roles are unset, otherwise
      one per role block, in order. */
  function RolesOf(attrs: Attrs, home: Option<string>): Option<seq<RoleDivision>>
    requires !HomeLookupFails(attrs, home)
  {
    if !GetOk(attrs, "roles") then None
    else
      var cfg := RoleConfigs(attrs);
      Some(seq(|cfg|, i requires 0 <= i < |cfg| =>
        RoleDivisionOf(cfg[i], if NeedsHome(cfg[i]) then home.value else "")))
  }

  /** buildOAuthRoles. `home` is what the home division lookup answered
      (None when it failed); it is consulted only for roles without a
      division, and its failure fails the build. */
  method BuildOAuthRoles(attrs: Attrs, home: Option<string>) returns (roles: Option<seq<RoleDivision>>, failed: bool)
    ensures failed <==> HomeLookupFails(attrs, home)
    ensures failed ==> roles.None?
    ensures !failed ==> roles == RolesOf(attrs, home)
  {
    if !GetOk(attrs, "roles") {
      return None, false;
    }
    var roleConfig := RoleConfigs(attrs);
    var sdkRoles: seq<RoleDivision> := [];
    var i := 0;
    while i < |roleConfig|
      invariant 0 <= i <= |roleConfig|
      invariant |sdkRoles| == i
      invariant forall j :: 0 <= j < i ==> !NeedsHome(roleConfig[j]) || home.Some?
      invariant forall j :: 0 <= j < i ==>
        sdkRoles[j] == RoleDivisionOf(roleConfig[j], if NeedsHome(roleConfig[j]) then home.value else "")
    {
      var roleMap := MapOf(roleConfig[i]);
      var roleId := GetString(roleMap, "role_id");
      var divisionId := GetString(roleMap, "division_id");
      if divisionId == "" {
        if home.None? {
          return None, true;
        }
        divisionId := home.value;
      }
      sdkRoles := sdkRoles + [RoleDivision(Some(roleId), Some(divisionId))];
      i := i + 1;
    }
    assert !HomeLookupFails(attrs, home);
    assert sdkRoles == RolesOf(attrs, home).value;
    return Some(sdkRoles), false;
  }

  /** Every grant built names a role and a division; a role that names no
      division is granted in the home division, any other in its own. */
  lemma {:induction false} RolesDivisions(attrs: Attrs, home: Option<string>, i: int)
    requires !HomeLookupFails(attrs, home) && GetOk(attrs, "roles")
    requires 0 <= i < |RoleConfigs(attrs)|
    ensures var r := RolesOf(attrs, home).value[i];
      && r.roleId.Some? && r.divisionId.Some?
      && (NeedsHome(RoleConfigs(attrs)[i]) ==> home.Some? && r.divisionId == home)
      && (!NeedsHome(RoleConfigs(attrs)[i]) ==> r.divisionId == Some(ConfiguredDivision(RoleConfigs(attrs)[i])))
  {
    if NeedsHome(RoleConfigs(attrs)[i]) {
      assert home.Some?;
    }
  }

  /** The role block flattenOAuthRoles writes for a grant: a key for each
      field the API sent. */
  function RoleMap(rd: RoleDivision): (m: map<string, Value>)
    ensures "role_id" in m <==> rd.roleId.Some?
    ensures "division_id" in m <==> rd.divisionId.Some?
    ensures m.Keys <= {"role_id", "division_id"}
  {
    var m: map<string, Value> := map[];
    var m := if rd.roleId.Some? then m["role_id" := Str(rd.roleId.value)] else m;
    if rd.divisionId.Some? then m["division_id" := Str(rd.divisionId.value)] else m
  }

  /** The role blocks of a list of grants, as a set. */
  function RoleBlocks(sdkRoles: seq<RoleDivision>): set<Value>
  {
    set i | 0 <= i < |sdkRoles| :: Map(RoleMap(sdkRoles[i]))
  }

  /** flattenOAuthRoles: add one block per grant to a schema.Set, which
      keeps a single copy of equal blocks. */
  method FlattenOAuthRoles(sdkRoles: seq<RoleDivision>) returns (roleSet: Value)
    ensures roleSet.Set? && Elements(roleSet) == RoleBlocks(sdkRoles)
    ensures forall i, j :: 0 <= i < j < |roleSet.elems| ==> roleSet.elems[i] != roleSet.elems[j]
  {
    var elems: seq<Value> := [];
    var i := 0;
    while i < |sdkRoles|
      invariant 0 <= i <= |sdkRoles|
      invariant (set x | x in elems) == RoleBlocks(sdkRoles[..i])
      invariant forall p, q :: 0 <= p < q < |elems| ==> elems[p] != elems[q]
    {
      var role := Map(RoleMap(sdkRoles[i]));
      assert sdkRoles[..i + 1] == sdkRoles[..i] + [sdkRoles[i]];
      RoleBlocksSnoc(sdkRoles[..i], sdkRoles[i]);
      if role !in elems {
        elems := elems + [role];
      }
      i := i + 1;
    }
    assert sdkRoles[..i] == sdkRoles;
    roleSet := Set(elems);
  }

  lemma {:induction false} RoleBlocksSnoc(rs: seq<RoleDivision>, r: RoleDivision)
    ensures RoleBlocks(rs + [r]) == RoleBlocks(rs) + {Map(RoleMap(r))}
  {
    var rs' := rs + [r];
    assert forall i :: 0 <= i < |rs| ==> rs'[i] == rs[i];
    assert rs'[|rs|] == r;
  }

  /** A role block as the framework hands it over: a role and a division,
      both strings. */
  predicate RoleBlockWellTyped(role: Value)
  {
    role.Map? && role.entries.Keys == {"role_id", "division_id"}
    && role.entries["role_id"].Str? && role.entries["division_id"].Str?
  }

  /** Build then flatten gives back the configured role blocks, each with an
      empty division replaced by the home division. */
  lemma {:induction false} RolesRoundTrip(attrs: Attrs, home: string)
    requires GetOk(attrs, "roles")
    requires forall x :: x in RoleConfigs(attrs) ==> RoleBlockWellTyped(x)
    ensures RoleBlocks(RolesOf(attrs, Some(home)).value) ==
      set x | x in RoleConfigs(attrs) ::
        if NeedsHome(x) then Map(MapOf(x)["division_id" := Str(home)]) else x
  {
    var cfg := RoleConfigs(attrs);
    var rs := RolesOf(attrs, Some(home)).value;
    forall i | 0 <= i < |cfg|
      ensures Map(RoleMap(rs[i])) == if NeedsHome(cfg[i]) then Map(MapOf(cfg[i])["division_id" := Str(home)]) else cfg[i]
    {
      assert cfg[i] in cfg;
      var x := cfg[i];
      var m := RoleMap(rs[i]);
      var want := if NeedsHome(x) then x.entries["division_id" := Str(home)] else x.entries;
      assert m.Keys == want.Keys;
      assert forall k :: k in m ==> m[k] == want[k];
      assert m == want;
    }
    var rhs := set x | x in cfg :: if NeedsHome(x) then Map(MapOf(x)["division_id" := Str(home)]) else x;
    forall v | v in rhs ensures v in RoleBlocks(rs) {
      var x :| x in cfg && v == (if NeedsHome(x) then Map(MapOf(x)["division_id" := Str(home)]) else x);
      var i :| 0 <= i < |cfg| && cfg[i] == x;
      assert v == Map(RoleMap(rs[i]));
    }
    forall v | v in RoleBlocks(rs) ensures v in rhs {
      var i :| 0 <= i < |rs| && v == Map(RoleMap(rs[i]));
      assert cfg[i] in cfg;
    }
  }

  // ---------------------------------------------------------------------
  // Redirect URIs and scopes

  /** buildOAuthRedirectURIs: nil when unset, otherwise the set's elements. */
  function BuildOAuthRedirectURIs(attrs: Attrs): (r: Option<seq<string>>)
    ensures r.None? <==> !GetOk(attrs, "registered_redirect_uris")
    ensures r.Some? ==> |r.value| == |SetOf(Get(attrs, "registered_redirect_uris"))|
  {
    StringSetList(attrs, "registered_redirect_uris")
  }

  /** buildOAuthScopes: nil when unset, otherwise the set's elements. */
  function BuildOAuthScopes(attrs: Attrs): (r: Option<seq<string>>)
    ensures r.None? <==> !GetOk(attrs, "scopes")
    ensures r.Some? ==> |r.value| == |SetOf(Get(attrs, "scopes"))|
  {
    StringSetList(attrs, "scopes")
  }

  /** Reading back the URIs and scopes that were sent restores the
      configured sets. */
  lemma {:induction false} UrisAndScopesRoundTrip(attrs: Attrs)
    requires StringSetWellTyped(attrs, "registered_redirect_uris") && StringSetWellTyped(attrs, "scopes")
    ensures Elements(ListToStringSet(BuildOAuthRedirectURIs(attrs))) == Elements(Get(attrs, "registered_redirect_uris"))
    ensures Elements(ListToStringSet(BuildOAuthScopes(attrs))) == Elements(Get(attrs, "scopes"))
  {
    StringSetRoundTrip(attrs, "registered_redirect_uris");
    StringSetRoundTrip(attrs, "scopes");
  }

  // ---------------------------------------------------------------------
  // Exporter

  /** An OAuth client as the API returns it. */
  datatype Client = Client(id: string, name: string, state: Option<string>)

  /** Clients disabled by support are not exported. */
  function ClientEntry(c: Client): Entry
  {
    if c.state == Some("disabled") then None else Some((c.id, c.name))
  }

  /** getAllOAuthClients: one fetch; an error aborts, a nil or empty list
      exports nothing. */
  method GetAllOAuthClients(clients: Page<Client>) returns (resources: Result<map<string, string>, int>)
    ensures clients.PageError? ==> resources == Err(clients.status)
    ensures clients.Page? ==> resources == Ok(Gather(Entities(clients), ClientEntry))
  {
    if clients.PageError? {
      return Err(clients.status);
    }
    if clients.entities.None? || |clients.entities.value| == 0 {
      return Ok(map[]);
    }
    var m := GatherInto(map[], [], clients.entities.value, ClientEntry);
    assert [] + clients.entities.value == clients.entities.value;
    return Ok(m);
  }

  /** The export holds exactly the ids of the listed clients that are not
      disabled. */
  lemma {:induction false} ExportedClients(clients: seq<Client>)
    ensures Gather(clients, ClientEntry).Keys == set c | c in clients && c.state != Some("disabled") :: c.id
  {
    var entry := ClientEntry;
    forall id | true
      ensures id in Gather(clients, entry) <==> id in set c | c in clients && c.state != Some("disabled") :: c.id
    {
      GatherKeys(clients, entry, id);
      if id in set c | c in clients && c.state != Some("disabled") :: c.id {
        var p :| p in clients && p.state != Some("disabled") && p.id == id;
        var i :| 0 <= i < |clients| && clients[i] == p;
        assert entry(clients[i]).Some? && entry(clients[i]).value.0 == id;
      }
    }
  }

  // ---------------------------------------------------------------------
  // Update and delete

  /** The API's Oauthclientrequest. */
  datatype ClientRequest = ClientRequest(
    name: string,
    description: string,
    accessTokenValiditySeconds: int,
    authorizedGrantType: string,
    state: string,
    registeredRedirectUri: Option<seq<string>>,
    scope: Option<seq<string>>,
    roleDivisions: Option<seq<RoleDivision>>)

  /** The body updateOAuthClient puts. */
  function RequestOf(attrs: Attrs, home: Option<string>): ClientRequest
    requires !HomeLookupFails(attrs, home)
  {
    ClientRequest(GetString(attrs, "name"), GetString(attrs, "description"),
      IntOf(Get(attrs, "access_token_validity_seconds")), GetString(attrs, "authorized_grant_type"),
      GetString(attrs, "state"), BuildOAuthRedirectURIs(attrs), BuildOAuthScopes(attrs), RolesOf(attrs, home))
  }

  /** The calls the adapter makes to the API, in order. */
  datatype Call = PutClient(request: ClientRequest) | DeleteClient

  /** updateOAuthClient up to its read back: build the roles, then put the
      request. `put` is whether the PUT succeeded; `readBack` whether the
      read that follows it succeeded. */
  method UpdateOAuthClient(d: ResourceData, home: Option<string>, put: bool, readBack: bool)
    returns (calls: seq<Call>, ok: bool)
    ensures HomeLookupFails(d.attrs, home) ==> calls == [] && !ok
    ensures !HomeLookupFails(d.attrs, home) ==> calls == [PutClient(RequestOf(d.attrs, home))] && (ok <==> put && readBack)
  {
    var roles, failed := BuildOAuthRoles(d.attrs, home);
    if failed {
      return [], false;
    }
    var request := ClientRequest(GetString(d.attrs, "name"), GetString(d.attrs, "description"),
      IntOf(Get(d.attrs, "access_token_validity_seconds")), GetString(d.attrs, "authorized_grant_type"),
      GetString(d.attrs, "state"), BuildOAuthRedirectURIs(d.attrs), BuildOAuthScopes(d.attrs), roles);
    calls := [PutClient(request)];
    ok := put && readBack;
  }

  /** How deleteOAuthClient ends. */
  datatype DeleteOutcome = UpdateFailed | DeleteFailed | Polled(result: PollResult)

  /** deleteOAuthClient: mark the client inactive and update it, then delete
      it, then poll until it is gone. `polls` are the answers to the poll's
      reads within its time budget. */
  method DeleteOAuthClient(d: ResourceData, home: Option<string>, put: bool, readBack: bool,
                           delete: bool, polls: seq<Response<Client>>)
    returns (calls: seq<Call>, outcome: DeleteOutcome)
    requires forall i :: 0 <= i < |polls| ==> polls[i].Found? ==> polls[i].body.state.Some?
    modifies d
    ensures d.attrs == old(d.attrs)["state" := Str("inactive")] && d.id == old(d.id)
    ensures outcome == UpdateFailed <==> DeleteClient !in calls
    ensures DeleteClient in calls ==> (
      && !HomeLookupFails(d.attrs, home)
      && calls == [PutClient(RequestOf(d.attrs, home)), DeleteClient]
      && RequestOf(d.attrs, home).state == "inactive")
    ensures DeleteClient in calls <==> !HomeLookupFails(d.attrs, home) && put && readBack
    ensures outcome == UpdateFailed ==>
      calls == if HomeLookupFails(d.attrs, home) then [] else [PutClient(RequestOf(d.attrs, home))]
    ensures outcome.Polled? <==> DeleteClient in calls && delete
    ensures outcome.Polled? ==> outcome.result == Poll(PollVerdicts(polls))
  {
    d.Set("state", Str("inactive"));
    var ok;
    calls, ok := UpdateOAuthClient(d, home, put, readBack);
    if !ok {
      return calls, UpdateFailed;
    }
    calls := calls + [DeleteClient];
    if !delete {
      return calls, DeleteFailed;
    }
    return calls, Polled(Poll(PollVerdicts(polls)));
  }

  /** One attempt of the poll after DELETE: gone on 404 or state `deleted`,
      abort on any other error, retry while the client is live. */
  function DeleteOAuthClientAttempt(r: Response<Client>): (a: Attempt)
    requires r.Found? ==> r.body.state.Some?
    ensures a == Done <==> IsStatus404(r) || (r.Found? && r.body.state == Some("deleted"))
    ensures a == NonRetryable <==> r.ErrorStatus? && r.status != StatusNotFound
    ensures a == Retryable <==> r.Found? && r.body.state != Some("deleted")
  {
    if r.ErrorStatus? then
      if IsStatus404(r) then Done else NonRetryable
    else if r.body.state.value == "deleted" then Done
    else Retryable
  }

  /** The verdicts of the poll's attempts. */
  function PollVerdicts(polls: seq<Response<Client>>): (vs: seq<Attempt>)
    requires forall i :: 0 <= i < |polls| ==> polls[i].Found? ==> polls[i].body.state.Some?
    ensures |vs| == |polls|
    ensures forall i :: 0 <= i < |polls| ==> vs[i] == DeleteOAuthClientAttempt(polls[i])
  {
    seq(|polls|, i requires 0 <= i < |polls| && (polls[i].Found? ==> polls[i].body.state.Some?) =>
      DeleteOAuthClientAttempt(polls[i]))
  }

  /** An answer that shows the client gone: a 404, or the client in state
      `deleted`. */
  predicate ClientGone(r: Response<Client>)
  {
    IsStatus404(r) || (r.Found? && r.body.state == Some("deleted"))
  }

  /** An answer that shows the client still there. */
  predicate ClientLive(r: Response<Client>)
  {
    r.Found? && r.body.state != Some("deleted")
  }

  /** Answer i is the first that does not show a live client. */
  predicate FirstSettled(polls: seq<Response<Client>>, i: int)
  {
    0 <= i < |polls| && !ClientLive(polls[i]) && forall j :: 0 <= j < i ==> ClientLive(polls[j])
  }

  /** The delete poll in terms of the answers: it succeeds exactly when the
      first answer that is not a live client shows the client gone, aborts
      exactly when that answer is any other error, and times out exactly
      when every answer in the budget is a live client. */
  lemma {:induction false} DeletePollOutcome(polls: seq<Response<Client>>)
    requires forall i :: 0 <= i < |polls| ==> polls[i].Found? ==> polls[i].body.state.Some?
    ensures Poll(PollVerdicts(polls)) == Succeeded <==> exists i :: FirstSettled(polls, i) && ClientGone(polls[i])
    ensures Poll(PollVerdicts(polls)) == Aborted <==> exists i :: FirstSettled(polls, i) && !ClientGone(polls[i])
    ensures Poll(PollVerdicts(polls)) == TimedOut <==> forall i :: 0 <= i < |polls| ==> ClientLive(polls[i])
    decreases |polls|
  {
    if polls != [] {
      var vs := PollVerdicts(polls);
      var rest := polls[1..];
      if ClientLive(polls[0]) {
        assert vs[0] == Retryable;
        assert vs[1..] == PollVerdicts(rest);
        DeletePollOutcome(rest);
        assert forall i :: FirstSettled(rest, i) ==> FirstSettled(polls, i + 1);
        assert forall i :: FirstSettled(polls, i) ==> FirstSettled(rest, i - 1);
      } else {
        assert FirstSettled(polls, 0);
        assert forall i :: FirstSettled(polls, i) ==> i == 0;
      }
    }
  }
}
