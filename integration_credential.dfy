/** Integration credentials: the credential field map, the update that is
    issued only when something changed, the read attempt that refreshes
    only the name and type, the exporter and the delete poll. */
module IntegrationCredential {
  import opened Common

  /** A credential as the API returns it; its name may be missing. */
  datatype Credential = Credential(id: string, name: Option<string>, typeName: string)

  /** The API's Credential body as update and create send it. */
  datatype CredentialRequest = CredentialRequest(name: string, typeName: string, fields: map<string, string>)

  // ---------------------------------------------------------------------
  // Fields

  /** The configured `fields`, key for key, as strings; empty when unset. */
  function CredentialFieldsOf(attrs: Attrs): map<string, string>
  {
    if GetOk(attrs, "fields") then StringMap(MapOf(attrs["fields"])) else map[]
  }

  /** buildCredentialFields: always a map, holding a copy of `fields` when
      it is set. */
  method BuildCredentialFields(attrs: Attrs) returns (results: map<string, string>)
    ensures results == CredentialFieldsOf(attrs)
    ensures results.Keys == MapOf(Get(attrs, "fields")).Keys
    ensures forall k :: k in results ==> results[k] == StringOf(MapOf(Get(attrs, "fields"))[k])
  {
    results := map[];
    if GetOk(attrs, "fields") {
      results := CopyStrings(MapOf(attrs["fields"]));
    }
  }

  /** A `fields` attribute that is unset or a map of strings. */
  predicate FieldsWellTyped(attrs: Attrs)
  {
    var v := Get(attrs, "fields");
    v.Null? || (v.Map? && forall k :: k in v.entries ==> v.entries[k].Str?)
  }

  /** The fields sent are exactly the configured ones: turned back into an
      attribute value they give the configured map (an unset attribute
      sends an empty map). */
  lemma {:induction false} FieldsRoundTrip(attrs: Attrs)
    requires FieldsWellTyped(attrs)
    ensures StrMapValue(CredentialFieldsOf(attrs)) == if Get(attrs, "fields").Null? then Map(map[]) else Get(attrs, "fields")
  {
    var v := Get(attrs, "fields");
    if v.Map? {
      var m := StrMapValue(CredentialFieldsOf(attrs)).entries;
      assert m.Keys == v.entries.Keys;
      assert forall k :: k in m ==> m[k] == v.entries[k];
      assert m == v.entries;
    }
  }

  // ---------------------------------------------------------------------
  // Read

  /** The verdict of one read attempt: done once found, retry while it
      answers 404, give up on any other error. */
  function ReadVerdict(r: Response<Credential>): (a: Attempt)
    ensures a == Done <==> r.Found?
    ensures a == Retryable <==> IsStatus404(r)
    ensures a == NonRetryable <==> r.ErrorStatus? && r.status != StatusNotFound
  {
    if r.Found? then Done else if IsStatus404(r) then Retryable else NonRetryable
  }

  /** The attributes after a read that found `c`: name and type only. A
      credential without a name reads its name as null. */
  function ReadAttrs(attrs: Attrs, c: Credential): Attrs
  {
    attrs["name" := StringOrNull(c.name)]["credential_type_name" := Str(c.typeName)]
  }

  /** One attempt of readCredential's retry loop, with the name of a
      credential that has none set to null. */
  method ReadCredentialAttempt(d: ResourceData, r: Response<Credential>) returns (a: Attempt)
    modifies d
    ensures a == ReadVerdict(r)
    ensures d.id == old(d.id)
    ensures d.attrs == if r.Found? then ReadAttrs(old(d.attrs), r.body) else old(d.attrs)
  {
    if r.ErrorStatus? {
      if IsStatus404(r) {
        return Retryable;
      }
      return NonRetryable;
    }
    d.Set("name", StringOrNull(r.body.name));
    d.Set("credential_type_name", Str(r.body.typeName));
    return Done;
  }

  /** One attempt of readCredential as written: it dereferences the name of
      the credential it found, so a credential without a name makes the read
      panic (None). Wherever it does not panic it agrees with
      ReadCredentialAttempt. */
  function ReadAttemptAsWritten(attrs: Attrs, r: Response<Credential>): (res: Option<(Attempt, Attrs)>)
    ensures res.None? <==> r.Found? && r.body.name.None?
    ensures res.Some? ==> res.value == (ReadVerdict(r), if r.Found? then ReadAttrs(attrs, r.body) else attrs)
  {
    if r.ErrorStatus? then Some((if IsStatus404(r) then Retryable else NonRetryable, attrs))
    else if r.body.name.None? then None
    else Some((Done, attrs["name" := Str(r.body.name.value)]["credential_type_name" := Str(r.body.typeName)]))
  }

  /** A credential without a name, which the listing tolerates and skips,
      crashes the read as written; the corrected read finishes and stores a
      null name. */
  lemma {:induction false} NamelessCredentialCrashesRead()
    ensures var c := Credential("cred-1", None, "basicAuth");
      && CredentialEntry(c).None?
      && ReadAttemptAsWritten(map[], Found(c)).None?
      && ReadVerdict(Found(c)) == Done
      && ReadAttrs(map[], c)["name"] == Null
  {
  }

  /** A read leaves `fields` (which the API never returns) and every other
      attribute but the name and the type as they were. */
  lemma {:induction false} ReadKeepsFields(attrs: Attrs, c: Credential, k: string)
    requires k != "name" && k != "credential_type_name"
    ensures k in ReadAttrs(attrs, c) <==> k in attrs
    ensures k in attrs ==> ReadAttrs(attrs, c)[k] == attrs[k]
    ensures ReadAttrs(attrs, c)["name"] == StringOrNull(c.name)
    ensures ReadAttrs(attrs, c)["credential_type_name"] == Str(c.typeName)
  {
  }

  // ---------------------------------------------------------------------
  // Update

  /** d.HasChanges("name", "credential_type_name", "fields"). */
  predicate HasChanges(prior: Attrs, planned: Attrs)
  {
    Get(prior, "name") != Get(planned, "name")
    || Get(prior, "credential_type_name") != Get(planned, "credential_type_name")
    || Get(prior, "fields") != Get(planned, "fields")
  }

  /** The body update puts. */
  function RequestOf(attrs: Attrs): CredentialRequest
  {
    CredentialRequest(GetString(attrs, "name"), GetString(attrs, "credential_type_name"), CredentialFieldsOf(attrs))
  }

  /** The calls update makes, in order. */
  datatype Call = PutCredential(request: CredentialRequest) | GetCredential

  /** updateCredential: put only when name, type or fields changed from
      `prior` (the state before the plan), then read back (one attempt); a
      failed put ends the update. */
  method UpdateCredential(d: ResourceData, prior: Attrs, put: bool, got: Response<Credential>)
    returns (calls: seq<Call>, attempt: Option<Attempt>)
    modifies d
    ensures HasChanges(prior, old(d.attrs)) ==> |calls| >= 1 && calls[0] == PutCredential(RequestOf(old(d.attrs)))
    ensures HasChanges(prior, old(d.attrs)) && put ==> calls == [PutCredential(RequestOf(old(d.attrs))), GetCredential]
    ensures !HasChanges(prior, old(d.attrs)) ==> calls == [GetCredential]
    ensures HasChanges(prior, old(d.attrs)) && !put ==> calls == [PutCredential(RequestOf(old(d.attrs)))]
    ensures attempt.Some? <==> GetCredential in calls
    ensures attempt.Some? ==> attempt.value == ReadVerdict(got)
    ensures d.attrs == if attempt.Some? && got.Found? then ReadAttrs(old(d.attrs), got.body) else old(d.attrs)
    ensures d.id == old(d.id)
  {
    calls := [];
    if HasChanges(prior, d.attrs) {
      var fields := BuildCredentialFields(d.attrs);
      calls := [PutCredential(CredentialRequest(GetString(d.attrs, "name"), GetString(d.attrs, "credential_type_name"), fields))];
      if !put {
        return calls, None;
      }
    }
    calls := calls + [GetCredential];
    var a := ReadCredentialAttempt(d, got);
    attempt := Some(a);
  }

  // ---------------------------------------------------------------------
  // Exporter and delete

  /** Credentials without a name are not exported. */
  function CredentialEntry(c: Credential): Entry
  {
    if c.name.Some? then Some((c.id, c.name.value)) else None
  }

  /** getAllCredentials: request pages 1, 2, ... of size 100 until an empty
      page; a page error aborts the export. */
  method GetAllCredentials(pages: seq<Page<Credential>>)
    returns (resources: Result<map<string, string>, int>, requests: seq<PageRequest>)
    requires Terminates(pages)
    ensures resources == Export(pages, CredentialEntry)
    ensures requests == Requests(FirstStop(pages) + 1)
  {
    resources, requests := ExportPages(pages, CredentialEntry);
  }

  /** The ids of the listed credentials that have a name. */
  function NamedIds(creds: seq<Credential>): set<string>
  {
    set c | c in creds && c.name.Some? :: c.id
  }

  /** The export holds exactly the ids of the listed credentials that have
      a name. */
  lemma {:induction false} ExportedCredentials(pages: seq<Page<Credential>>)
    requires Terminates(pages) && Export(pages, CredentialEntry).Ok?
    ensures Export(pages, CredentialEntry).value.Keys == NamedIds(Visited(pages, FirstStop(pages)))
  {
    var listed := Visited(pages, FirstStop(pages));
    var entry := CredentialEntry;
    assert Export(pages, CredentialEntry).value == Gather(listed, entry);
    forall id | true
      ensures id in Gather(listed, entry) <==> id in NamedIds(listed)
    {
      GatherKeys(listed, entry, id);
      if id in NamedIds(listed) {
        var p :| p in listed && p.name.Some? && p.id == id;
        var i :| 0 <= i < |listed| && listed[i] == p;
        assert entry(listed[i]).Some? && entry(listed[i]).value.0 == id;
      }
    }
  }

  /** One attempt of the poll after DELETE: gone on 404, abort on any other
      error, retry while the credential still exists. */
  function DeleteCredentialAttempt(r: Response<Credential>): (a: Attempt)
    ensures a == Done <==> IsStatus404(r)
    ensures a == NonRetryable <==> r.ErrorStatus? && r.status != StatusNotFound
    ensures a == Retryable <==> r.Found?
  {
    if r.ErrorStatus? then
      if IsStatus404(r) then Done else NonRetryable
    else
      Retryable
  }
}
