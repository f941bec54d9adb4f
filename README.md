# Genesys Cloud Terraform provider adapters, modelled in Dafny

This project models the adapters that carry resources of the Genesys Cloud
Terraform provider between a Terraform configuration and the Genesys Cloud
platform API. It covers six parts:

- the telephony phone resource;
- the generic SAML identity provider;
- integration actions;
- OAuth clients;
- integration credentials;
- the routing queue and architect schedule group data sources.

For each of these the model covers:

- the encoders that turn configured attributes into API request bodies
  (`buildSdk*`, `build*`);
- the decoders that turn API responses back into attributes (`flatten*`);
- one attempt of each read, and of each deletion poll, with its verdict:
  done, retry or give up;
- the resource-level create, update and delete sequences that are in scope;
- the exporters' paginated listing loops.

The Terraform `ResourceData` is a class (`Common.ResourceData`) with an `id`
and an attribute map. `Set` and `SetId` are its only mutators. API calls are
inputs to the model:

- a `Response<T>` for a single call: the body, or the HTTP status of a failed
  call;
- a sequence of `Page<E>` for a paginated listing, with the requirement that
  some page eventually stops the loop.

Files:

- `common.dfy`: attribute values, the resource data, responses, retry
  verdicts and the retry loop, the page-loop specification shared by the
  exporters, and string/set/map helpers;
- `phone.dfy`: `resource_genesyscloud_telephony_providers_edges_phone.go`;
- `idp_generic.dfy`: `resource_genesyscloud_idp_generic.go`;
- `integration_action.dfy`: `resource_genesyscloud_integration_action.go`;
- `oauth_client.dfy`: `resource_genesyscloud_oauth_client.go`;
- `integration_credential.dfy`: `resource_genesyscloud_integration_credential.go`;
- `routing_queue.dfy`: `data_source_genesyscloud_routing_queue.go`;
- `schedule_groups.dfy`: `data_source_genesyscloud_architect_schedulegroups.go`.

## Model

| member | source | states |
|---|---|---|
| Common.Poll | genesyscloud/resource_genesyscloud_oauth_client.go:291-309 | a retry loop succeeds exactly when some attempt returns nil after only retryable attempts. It times out exactly when every attempt in the time budget was retryable. Otherwise it aborts on the first non-retryable attempt |
| Common.CopyStrings | genesyscloud/resource_genesyscloud_integration_credential.go:187-191 | the key-by-key copy loop yields a map with the same keys, each holding that key's string |
| Common.StringMapRoundTrip | genesyscloud/resource_genesyscloud_integration_action.go:407-412 | turning a map of strings into an attribute value and reading it back gives the same map |
| Common.StringSetRoundTrip | genesyscloud/resource_genesyscloud_oauth_client.go:312-324 | a set attribute turned into a string list (nil when unset or empty) and back into a set has the same elements |
| Common.NatToStringInjective | genesyscloud/resource_genesyscloud_telephony_providers_edges_phone.go:499 | distinct line numbers print as distinct decimal strings |
| Common.FirstStop | genesyscloud/resource_genesyscloud_telephony_providers_edges_phone.go:447-456 | a page loop stops on the first page that is an error, nil or empty, and on no earlier page |
| Common.Requests | genesyscloud/resource_genesyscloud_telephony_providers_edges_phone.go:447-449 | the n-th page request asks for page n with page size 100 |
| Common.GatherInto | genesyscloud/resource_genesyscloud_telephony_providers_edges_phone.go:458-462 | the loop over one page's entities extends the export map exactly as the entry filter specifies for the longer run |
| Common.ExportPages | genesyscloud/resource_genesyscloud_integration_credential.go:19-35 | the page loop shared by the exporters requests pages 1, 2, … of size 100 up to the stopping page. A failed page gives its status. Otherwise the result is the id-to-name map of the entities the filter keeps on every earlier page |
| Common.GatherKeys | genesyscloud/resource_genesyscloud_telephony_providers_edges_phone.go:458-462 | an id is in the export map exactly when some listed entity carries it and passes the filter |
| Common.GatherName | genesyscloud/resource_genesyscloud_integration_action.go:88-94 | the name exported for an id is that of the last listed entity carrying it |
| Common.VisitedPrefix | genesyscloud/data_source_genesyscloud_routing_queue.go:36-53 | the entities of fewer pages are a prefix of the entities of more pages |
| Phone.BuildSdkLines | genesyscloud/resource_genesyscloud_telephony_providers_edges_phone.go:479-518 | no line addresses give one line named `line_<base>` and a phone that is not standalone. Otherwise the phone is standalone, with one line per address, in order, named `line_<base>_<i+1>` and carrying that address |
| Phone.LineNamesDistinct | genesyscloud/resource_genesyscloud_telephony_providers_edges_phone.go:498-499 | the lines of a standalone phone all have different names |
| Phone.FlattenPhoneLines | genesyscloud/resource_genesyscloud_telephony_providers_edges_phone.go:380-403 | nil lines give nil. Otherwise the result is the lines' station identity addresses, in order, with lines that have none skipped |
| Phone.LineAddressesMembers | genesyscloud/resource_genesyscloud_telephony_providers_edges_phone.go:386-400 | an address is flattened exactly when it is non-empty and some line carries it |
| Phone.LineAddressesSound | genesyscloud/resource_genesyscloud_telephony_providers_edges_phone.go:386-400 | every address read back is non-empty and carried by some line |
| Phone.LineAddressesComplete | genesyscloud/resource_genesyscloud_telephony_providers_edges_phone.go:386-400 | the non-empty address of every line is read back |
| Phone.LinesRoundTrip | genesyscloud/resource_genesyscloud_telephony_providers_edges_phone.go:380-403 | flattening the lines built for non-empty addresses gives back exactly those addresses, in order |
| Phone.BuildSdkCapabilities | genesyscloud/resource_genesyscloud_telephony_providers_edges_phone.go:520-560 | an empty or unset capabilities list gives empty capabilities. Otherwise every field of the first block is set, media codecs in order, with ill-typed values read as zero values |
| Phone.FlattenPhoneCapabilities | genesyscloud/resource_genesyscloud_telephony_providers_edges_phone.go:405-440 | nil capabilities give nil. Otherwise the result is one block holding exactly the fields that are set |
| Phone.CapabilityFieldOf | genesyscloud/resource_genesyscloud_telephony_providers_edges_phone.go:411-437 | each capability field built from a well-typed block flattens back to that block's value under the same key |
| Phone.CapabilitiesRoundTrip | genesyscloud/resource_genesyscloud_telephony_providers_edges_phone.go:405-440 | flattening the capabilities built from a well-typed block gives that block back |
| Phone.BuildCreatePhoneBody | genesyscloud/resource_genesyscloud_telephony_providers_edges_phone.go:142-187 | the create body carries the configured name, site, phone base settings, state and line base settings, and the phone meta base that was looked up. Without line addresses it has the one default line; otherwise line i is the standalone line numbered i+1 for the i-th address. Its capabilities are those of the first capabilities block, or empty ones. The standalone property is present exactly when line addresses are configured. The web RTC user is included only when it is non-empty |
| Phone.BuildUpdatePhoneBody | genesyscloud/resource_genesyscloud_telephony_providers_edges_phone.go:282-314 | the update body carries the configured name, site, phone base settings and phone meta base, but no state, line base settings or capabilities. Its lines are the default line or one standalone line per address, as on create. The standalone property and the web RTC user follow the same rules as on create |
| Phone.GetAllPhones | genesyscloud/resource_genesyscloud_telephony_providers_edges_phone.go:442-466 | the exporter requests pages 1, 2, … up to the stopping page. A page error gives that error. Otherwise the result is the id-to-name map of every non-deleted phone listed |
| Phone.ExportedPhones | genesyscloud/resource_genesyscloud_telephony_providers_edges_phone.go:458-462 | the exported ids are exactly the ids of the listed phones whose state is not `deleted` |
| Phone.DeletePhoneAttempt | genesyscloud/resource_genesyscloud_telephony_providers_edges_phone.go:347-365 | the deletion poll is done on 404 or on a phone in state `deleted`. It retries while the phone exists in any other state, and aborts on any other error |
| IdpGeneric.NameIdentifierFormatSchema | genesyscloud/resource_genesyscloud_idp_generic.go:96-111 | the default name identifier format is one of the eight accepted SAML format URNs (section 8.3 of OASIS SAML 2.0 Core), and the validator accepts exactly those eight |
| IdpGeneric.DecodeCertificates | genesyscloud/resource_genesyscloud_idp_generic.go:143-149 | read writes null exactly when the body has neither certificate field. The singular certificate, when present, is the only element. Otherwise the elements are the strings of the list |
| IdpGeneric.UpdateBody | genesyscloud/resource_genesyscloud_idp_generic.go:199-230 | the update body sets every scalar field from its attribute. It never sets both certificate fields: the singular one carries a lone configured certificate, and the list carries any other non-empty set. An unset or empty set sends neither |
| IdpGeneric.CertificateEncoding | genesyscloud/resource_genesyscloud_idp_generic.go:223-230 | the update body never sets both certificate fields. It sends the singular `certificate` exactly when one certificate is configured, and the list exactly when two or more are |
| IdpGeneric.CertificatesRoundTrip | genesyscloud/resource_genesyscloud_idp_generic.go:143-149 | decoding the certificate fields of the body built from the configuration gives back the configured set of certificates |
| IdpGeneric.UpdateIdpGeneric | genesyscloud/resource_genesyscloud_idp_generic.go:198-242 | update sends the body built from the attributes. A failed PUT reports its status and changes nothing. Otherwise one read attempt follows, and its verdict and attribute writes are those of the read |
| IdpGeneric.CreateIdpGeneric | genesyscloud/resource_genesyscloud_idp_generic.go:116-120 | create sets the id to `generic` and then behaves as update |
| IdpGeneric.ReadVerdict | genesyscloud/resource_genesyscloud_idp_generic.go:128-135 | a read attempt is done when the configuration is found, retries on 404 and aborts on any other error |
| IdpGeneric.ReadIdpGenericAttempt | genesyscloud/resource_genesyscloud_idp_generic.go:128-195 | a found configuration sets all nine attributes, each to nil when its field is absent. A failed read writes nothing |
| IdpGeneric.UpdateReadRoundTrip | genesyscloud/resource_genesyscloud_idp_generic.go:137-230 | reading back the body that update sends restores every configured attribute, and the certificate set up to order |
| IdpGeneric.GetAllIdpGeneric | genesyscloud/resource_genesyscloud_idp_generic.go:16-31 | the exporter fails exactly on a non-404 error. It exports nothing on 404, and otherwise the single id `0` named `generic` |
| IdpGeneric.DeleteIdpGenericAttempt | genesyscloud/resource_genesyscloud_idp_generic.go:254-265 | the deletion poll is done on 404, retries while the configuration exists, and aborts on any other error |
| IntegrationAction.BuildSdkActionConfigRequest | genesyscloud/resource_genesyscloud_integration_action.go:399-423 | the request configuration is empty exactly when no `config_request` block is configured. Otherwise it holds the block's URL template, template and type, and a copy of its headers |
| IntegrationAction.BuildSdkActionConfigResponse | genesyscloud/resource_genesyscloud_integration_action.go:425-455 | the response configuration is empty exactly when no `config_response` block is configured. Otherwise it holds copies of both translation maps and the success template |
| IntegrationAction.FlattenActionConfigRequest | genesyscloud/resource_genesyscloud_integration_action.go:468-483 | the result is a single block with a key for exactly the request fields that are set |
| IntegrationAction.FlattenActionConfigResponse | genesyscloud/resource_genesyscloud_integration_action.go:485-497 | the result is a single block with a key for exactly the response fields that are set |
| IntegrationAction.StringMapValueRoundTrip | genesyscloud/resource_genesyscloud_integration_action.go:407-412 | a map-of-strings attribute read into a Go map and turned back is unchanged |
| IntegrationAction.RequestConfigRoundTrip | genesyscloud/resource_genesyscloud_integration_action.go:399-483 | flattening the request configuration built from a well-typed block gives that block back |
| IntegrationAction.ResponseConfigRoundTrip | genesyscloud/resource_genesyscloud_integration_action.go:425-497 | flattening the response configuration built from a well-typed block gives that block back |
| IntegrationAction.ReadVerdict | genesyscloud/resource_genesyscloud_integration_action.go:220-246 | a read attempt retries exactly when the action answers 404. It is done when a template answers 404 or when the action and both templates are found, and aborts otherwise |
| IntegrationAction.ReadIntegrationActionAttempt | genesyscloud/resource_genesyscloud_integration_action.go:220-308 | a missing template clears the id. Attributes are written only when the action and both templates are found. An action without a name is read with a null name |
| IntegrationAction.ReadVerdictAsWritten | genesyscloud/resource_genesyscloud_integration_action.go:220-308 | the read as written panics exactly when the action and both templates are found and the action has no name. Otherwise it agrees with the corrected verdict |
| IntegrationAction.NamelessActionCrashesRead | genesyscloud/resource_genesyscloud_integration_action.go:248-252 | a concrete nameless action crashes the read as written, while the corrected read is done and stores a null name |
| IntegrationAction.TemplatesOverride | genesyscloud/resource_genesyscloud_integration_action.go:292-304 | the configuration blocks that read writes carry the separately fetched request and success templates, not the embedded ones |
| IntegrationAction.GetAllIntegrationActions | genesyscloud/resource_genesyscloud_integration_action.go:73-98 | the exporter requests pages up to the stopping page. A page error gives that error. Otherwise the result is the id-to-name map of the listed actions whose id does not start with `static` |
| IntegrationAction.ExportedActions | genesyscloud/resource_genesyscloud_integration_action.go:88-94 | the exported ids are exactly the listed ids that do not start with `static` |
| IntegrationAction.DeleteIntegrationActionAttempt | genesyscloud/resource_genesyscloud_integration_action.go:359-370 | the deletion poll is done on 404, retries while the action exists, and aborts on any other error |
| OAuthClient.SchemaChecks | genesyscloud/resource_genesyscloud_oauth_client.go:94-131 | token validity must lie between 300 and 172800 seconds, and the default of 86400 lies in that range. The configurable states are `active` and `inactive`, so the `disabled` and `deleted` states reported by the server cannot be configured. There are five grant types (sections 4.1 to 4.4 of RFC 6749, and RFC 7522) |
| OAuthClient.BuildOAuthRoles | genesyscloud/resource_genesyscloud_oauth_client.go:326-357 | building the roles fails exactly when some role has an empty division and the home division lookup fails. Otherwise each role keeps its id, and its division is the configured one or, when empty, the home division |
| OAuthClient.RolesDivisions | genesyscloud/resource_genesyscloud_oauth_client.go:336-353 | every built role carries a role id and a division. The division is the home division exactly when the configured one is empty |
| OAuthClient.RoleMap | genesyscloud/resource_genesyscloud_oauth_client.go:362-368 | a flattened role has a key for exactly the fields that are set |
| OAuthClient.FlattenOAuthRoles | genesyscloud/resource_genesyscloud_oauth_client.go:359-372 | the flattened set holds exactly one block per distinct role, and no duplicates |
| OAuthClient.RoleBlocksSnoc | genesyscloud/resource_genesyscloud_oauth_client.go:360-370 | adding a role to the list adds its block to the set |
| OAuthClient.RolesRoundTrip | genesyscloud/resource_genesyscloud_oauth_client.go:326-372 | flattening the built roles gives the configured role blocks, with every empty division replaced by the home division |
| OAuthClient.BuildOAuthRedirectURIs | genesyscloud/resource_genesyscloud_oauth_client.go:312-317 | the redirect URIs are nil exactly when none are configured. Otherwise there is one URI per set element |
| OAuthClient.BuildOAuthScopes | genesyscloud/resource_genesyscloud_oauth_client.go:319-324 | the scopes are nil exactly when none are configured. Otherwise there is one scope per set element |
| OAuthClient.UrisAndScopesRoundTrip | genesyscloud/resource_genesyscloud_oauth_client.go:312-324 | the URIs and scopes sent, read back as sets, are the configured sets |
| OAuthClient.GetAllOAuthClients | genesyscloud/resource_genesyscloud_oauth_client.go:34-56 | the exporter fails on an error. Otherwise it maps the id to the name of every listed client not disabled by support |
| OAuthClient.ExportedClients | genesyscloud/resource_genesyscloud_oauth_client.go:47-53 | the exported ids are exactly those of the clients whose state is not `disabled` |
| OAuthClient.UpdateOAuthClient | genesyscloud/resource_genesyscloud_oauth_client.go:235-269 | a failed role build makes no call. Otherwise one PUT carries the request built from the attributes, and update succeeds exactly when the PUT and the read-back succeed |
| OAuthClient.DeleteOAuthClient | genesyscloud/resource_genesyscloud_oauth_client.go:271-310 | delete first sets the state to `inactive` and updates. It deletes only after the update succeeds, issuing exactly a PUT of the inactive request and then a DELETE. It deletes exactly when the home division lookup, the PUT and its read-back all succeed. A failed update has issued only its PUT, or nothing when the lookup failed. It polls only after a successful DELETE, and the poll's result is the retry loop over the per-attempt verdicts |
| OAuthClient.DeleteOAuthClientAttempt | genesyscloud/resource_genesyscloud_oauth_client.go:291-309 | the deletion poll is done on 404 or on a client in state `deleted`. It retries while the client exists in any other state, and aborts on any other error |
| OAuthClient.DeletePollOutcome | genesyscloud/resource_genesyscloud_oauth_client.go:291-309 | the delete poll succeeds exactly when the first answer that is not a live client is a 404 or a `deleted` client. It aborts exactly when that answer is any other error, and it times out exactly when every answer in the budget is a live client |
| IntegrationCredential.BuildCredentialFields | genesyscloud/resource_genesyscloud_integration_credential.go:185-195 | the fields are always a map: the configured fields key for key as strings, or empty when none are configured |
| IntegrationCredential.FieldsRoundTrip | genesyscloud/resource_genesyscloud_integration_credential.go:185-195 | the fields sent, turned back into an attribute, are the configured map, or an empty map when none is configured |
| IntegrationCredential.ReadVerdict | genesyscloud/resource_genesyscloud_integration_credential.go:116-123 | a read attempt is done when the credential is found, retries on 404 and aborts on any other error |
| IntegrationCredential.ReadCredentialAttempt | genesyscloud/resource_genesyscloud_integration_credential.go:116-131 | a found credential sets the name and the type name only, and a credential without a name is read with a null name. A failed read writes nothing |
| IntegrationCredential.ReadAttemptAsWritten | genesyscloud/resource_genesyscloud_integration_credential.go:116-131 | the read as written panics exactly when it finds a credential without a name. Otherwise it agrees with the corrected read, verdict and attributes |
| IntegrationCredential.NamelessCredentialCrashesRead | genesyscloud/resource_genesyscloud_integration_credential.go:25-35 | a concrete nameless credential, which the listing skips, crashes the read as written, while the corrected read is done and stores a null name |
| IntegrationCredential.ReadKeepsFields | genesyscloud/resource_genesyscloud_integration_credential.go:125-126 | a read leaves `fields` and every attribute other than the name and the type as they were |
| IntegrationCredential.UpdateCredential | genesyscloud/resource_genesyscloud_integration_credential.go:134-160 | update PUTs the name, type and fields exactly when one of them changed. A failed PUT ends the update without a read. Otherwise a read attempt follows: the calls are exactly the PUT and the GET after a change, and only the GET without one |
| IntegrationCredential.GetAllCredentials | genesyscloud/resource_genesyscloud_integration_credential.go:15-38 | the exporter requests pages up to the stopping page. A page error gives that error. Otherwise the result is the id-to-name map of the listed credentials that have a name |
| IntegrationCredential.ExportedCredentials | genesyscloud/resource_genesyscloud_integration_credential.go:30-34 | the exported ids are exactly those of the listed credentials that have a name |
| IntegrationCredential.DeleteCredentialAttempt | genesyscloud/resource_genesyscloud_integration_credential.go:171-182 | the deletion poll is done on 404, retries while the credential exists, and aborts on any other error |
| RoutingQueue.FirstMatch | genesyscloud/data_source_genesyscloud_routing_queue.go:47-52 | the first position whose queue has exactly the requested name, with no match before it. None exactly when no queue matches |
| RoutingQueue.FirstMatchAt | genesyscloud/data_source_genesyscloud_routing_queue.go:47-52 | a matching position with no match before it is the first match |
| RoutingQueue.RoutingQueueReadAttempt | genesyscloud/data_source_genesyscloud_routing_queue.go:35-54 | one attempt requests pages 1, 2, … of size 100. It sets the id to that of the first queue, in listing order, whose name equals the requested name, and its last request is for the page holding that queue. When no queue matches before the stopping page, the id is unchanged and the attempt aborts on an error or retries on an empty page |
| RoutingQueue.MatchInVisited | genesyscloud/data_source_genesyscloud_routing_queue.go:36-52 | a match found on page n, after no match on the earlier pages and earlier on that page, is the first match of the whole listing. The listing up to page n has a first match and the listing before it has none |
| ScheduleGroups.ScheduleGroupVerdict | genesyscloud/data_source_genesyscloud_architect_schedulegroups.go:39-49 | an attempt aborts exactly on an error, retries exactly on a nil or empty page, and is done exactly when the page has a schedule group |
| ScheduleGroups.ScheduleGroupReadAttempt | genesyscloud/data_source_genesyscloud_architect_schedulegroups.go:35-50 | one attempt queries page 1 of size 100 with the name filter. When done, it sets the id to that of the first schedule group returned |

## Left out

- HTTP and the Genesys Cloud SDK are inputs:
  - each call's outcome is a `Response` value, and each listing is a sequence of pages;
  - transport errors without a response count as non-404 errors;
  - the routing queue's name filter on the listing request is not part of `PageRequest`, because the model applies the name match itself.
- The retry helpers' timing (`withRetries`, `withRetriesForRead`, their 15- and 30-second budgets) and `time.Sleep` are left out:
  - reads, deletion polls and data-source searches are modelled as one attempt and its verdict;
  - only the OAuth client delete runs a whole retry loop, `Common.Poll`, over a finite sequence of attempts that stands for the time budget.
- Update sequences perform a single read attempt after the PUT, not the retry loop of the read.
- OAuthClient.UpdateOAuthClient reduces the read-back after the PUT to a success flag. It does not model that read's attribute writes, because reading an OAuth client is not part of this model.
- OAuthClient.DeleteOAuthClient calls the same update, so its read-back is the same success flag. Its contract states the attributes as they are after setting the state to `inactive`, not as the read-back would rewrite them.
- JSON is not modelled:
  - `flattenActionContract`, `jsonStringToInterface` and `buildSdkActionContract` are left out, and action contracts are opaque text values;
  - the marshalling errors those functions can return are not modelled.
- Creating and updating integration actions is left out: the SDK post and get wrappers and the version-mismatch retry. Only their config builders are modelled.
- Creating OAuth clients and credentials is modelled only through the bodies and builders it shares with update.
- Phone creation and update are modelled through the bodies they send. Two steps are left out:
  - the phone meta base lookup `getPhoneMetaBaseId`, whose id is a parameter;
  - the web RTC user assignment `assignUserToWebRtcPhone`.
- The home division lookup of `buildOAuthRoles` is a parameter: `None` when the lookup fails.
- Terraform's `schema.Set` is a sequence in the framework's iteration order:
  - its hashing is not modelled;
  - results that depend on that order (string lists built from sets) are stated up to their elements.
- Ill-typed attributes are read as zero values. Terraform's schema rules them out, and where the source would panic on a type assertion the model reads the zero value instead.
- Fields that the source dereferences without a nil check are assumed present. Such a field is either typed as non-optional or guarded by a `requires` clause, so the model cannot express the panic a missing one causes:
  - every entity id in every listing and read;
  - `Phone.PhoneEntity`'s name and state, which the phone exporter dereferences (genesyscloud/resource_genesyscloud_telephony_providers_edges_phone.go:459-460) and which the delete poll dereferences (:358);
  - `IntegrationAction.ActionEntity`'s name, which the action exporter dereferences (genesyscloud/resource_genesyscloud_integration_action.go:93). The exporter of an action without a name would panic there as well as in the read, but the source gives no sign of what it should export instead, so only the read appears under Findings;
  - `IntegrationCredential.Credential`'s type name, which the read dereferences (genesyscloud/resource_genesyscloud_integration_credential.go:126);
  - `OAuthClient.Client`'s name, which the exporter dereferences (genesyscloud/resource_genesyscloud_oauth_client.go:52);
  - the state of a client found by the OAuth client delete poll: `OAuthClient.DeleteOAuthClientAttempt`, `OAuthClient.PollVerdicts`, `OAuthClient.DeletePollOutcome` and `OAuthClient.DeleteOAuthClient` require it;
  - a phone line's properties: `Phone.FlattenPhoneLines` and the lemmas about it require them.
- Page loops end only because the server eventually returns a stopping page. Every listing member requires `Terminates`, which says some page stops the loop.
- Phone.BuildSdkCapabilities: the source's nil result for a missing list is not modelled, because `d.Get` returns an empty list for an unset list attribute and that branch is never taken.
- Logging, the resource schemas other than the constants listed above, the exporters' reference attributes, and the acceptance tests are not part of this model.

## Findings

| source | as written | input that shows it | evidently intended | confidence | as-written member | corrected member |
|---|---|---|---|---|---|---|
| genesyscloud/resource_genesyscloud_integration_credential.go:125-128 | the read dereferences the credential's name to set it and to log it | a credential with no name, which the listing at line 31 expects and skips | set the name to null, as the other readers do for absent fields | not executed | IntegrationCredential.ReadAttemptAsWritten, IntegrationCredential.NamelessCredentialCrashesRead | IntegrationCredential.ReadCredentialAttempt |
| genesyscloud/resource_genesyscloud_integration_action.go:306 | the closing log line dereferences the action's name after lines 248-252 handled a missing name | an action with no name whose templates are both found | log without dereferencing, so the read finishes with a null name | not executed | IntegrationAction.ReadVerdictAsWritten, IntegrationAction.NamelessActionCrashesRead | IntegrationAction.ReadIntegrationActionAttempt |
