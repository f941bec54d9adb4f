/** Integration actions: the request and response configuration encoders,
    the read attempt that merges the separately stored velocity templates,
    the exporter's page loop and the delete poll. */
module IntegrationAction {
  import opened Common

  // ---------------------------------------------------------------------
  // Request and response configuration

  /** The API's Requestconfig. */
  datatype RequestConfig = RequestConfig(
    requestUrlTemplate: Option<string>,
    requestTemplate: Option<string>,
    requestType: Option<string>,
    headers: Option<map<string, string>>)

  /** The API's Responseconfig. */
  datatype ResponseConfig = ResponseConfig(
    translationMap: Option<map<string, string>>,
    translationMapDefaults: Option<map<string, string>>,
    successTemplate: Option<string>)

  /** The API's Actionconfig. */
  datatype ActionConfig = ActionConfig(request: Option<RequestConfig>, response: Option<ResponseConfig>)

  const EmptyRequestConfig: RequestConfig := RequestConfig(None, None, None, None)
  const EmptyResponseConfig: ResponseConfig := ResponseConfig(None, None, None)

  /** The first block of a single-block list attribute, when there is one. */
  function Block(attrs: Attrs, key: string): Option<map<string, Value>>
  {
    var list := ListOf(Get(attrs, key));
    if |list| > 0 then Some(MapOf(list[0])) else None
  }

  /** The string map under `key` of a block, or an empty one when the key is
      absent or nil. */
  function StringMapAt(block: map<string, Value>, key: string): map<string, string>
  {
    if key in block && block[key] != Null then StringMap(MapOf(block[key])) else map[]
  }

  /** The Requestconfig that `config_request` describes. */
  function RequestConfigOf(attrs: Attrs): RequestConfig
  {
    match Block(attrs, "config_request")
    case None => EmptyRequestConfig
    case Some(block) =>
      RequestConfig(
        Some(GetString(block, "request_url_template")),
        Some(GetString(block, "request_template")),
        Some(GetString(block, "request_type")),
        Some(StringMapAt(block, "headers")))
  }

  /** The Responseconfig that `config_response` describes: nil translation
      maps become empty maps and an absent success template the empty
      string. */
  function ResponseConfigOf(attrs: Attrs): ResponseConfig
  {
    match Block(attrs, "config_response")
    case None => EmptyResponseConfig
    case Some(block) =>
      ResponseConfig(
        Some(StringMapAt(block, "translation_map")),
        Some(StringMapAt(block, "translation_map_defaults")),
        Some(if "success_template" in block then StringOf(block["success_template"]) else ""))
  }

  /** buildSdkActionConfigRequest */
  method BuildSdkActionConfigRequest(attrs: Attrs) returns (r: RequestConfig)
    ensures r == RequestConfigOf(attrs)
    ensures Block(attrs, "config_request").None? <==> r == EmptyRequestConfig
  {
    var configList := ListOf(Get(attrs, "config_request"));
    if |configList| > 0 {
      var configMap := MapOf(configList[0]);
      var urlTemplate := GetString(configMap, "request_url_template");
      var template := GetString(configMap, "request_template");
      var reqType := GetString(configMap, "request_type");
      var headers: map<string, string> := map[];
      if "headers" in configMap && configMap["headers"] != Null {
        headers := CopyStrings(MapOf(configMap["headers"]));
      }
      return RequestConfig(Some(urlTemplate), Some(template), Some(reqType), Some(headers));
    }
    return EmptyRequestConfig;
  }

  /** buildSdkActionConfigResponse */
  method BuildSdkActionConfigResponse(attrs: Attrs) returns (r: ResponseConfig)
    ensures r == ResponseConfigOf(attrs)
    ensures Block(attrs, "config_response").None? <==> r == EmptyResponseConfig
  {
    var configList := ListOf(Get(attrs, "config_response"));
    if |configList| > 0 {
      var configMap := MapOf(configList[0]);
      var transMap: map<string, string> := map[];
      if "translation_map" in configMap && configMap["translation_map"] != Null {
        transMap := CopyStrings(MapOf(configMap["translation_map"]));
      }
      var transMapDefaults: map<string, string> := map[];
      if "translation_map_defaults" in configMap && configMap["translation_map_defaults"] != Null {
        transMapDefaults := CopyStrings(MapOf(configMap["translation_map_defaults"]));
      }
      var successTemplate := "";
      if "success_template" in configMap {
        successTemplate := StringOf(configMap["success_template"]);
      }
      return ResponseConfig(Some(transMap), Some(transMapDefaults), Some(successTemplate));
    }
    return EmptyResponseConfig;
  }

  function PutString(m: map<string, Value>, key: string, v: Option<string>): map<string, Value>
  {
    if v.Some? then m[key := Str(v.value)] else m
  }

  function PutStrings(m: map<string, Value>, key: string, v: Option<map<string, string>>): map<string, Value>
  {
    if v.Some? then m[key := StrMapValue(v.value)] else m
  }

  /** flattenActionConfigRequest: a one-block list whose block has a key for
      each field the API sent, and no other. */
  function FlattenActionConfigRequest(c: RequestConfig): (r: seq<Value>)
    ensures |r| == 1 && r[0].Map?
    ensures "request_url_template" in r[0].entries <==> c.requestUrlTemplate.Some?
    ensures "request_type" in r[0].entries <==> c.requestType.Some?
    ensures "request_template" in r[0].entries <==> c.requestTemplate.Some?
    ensures "headers" in r[0].entries <==> c.headers.Some?
    ensures r[0].entries.Keys <= {"request_url_template", "request_type", "request_template", "headers"}
  {
    var m := PutString(map[], "request_url_template", c.requestUrlTemplate);
    var m := PutString(m, "request_type", c.requestType);
    var m := PutString(m, "request_template", c.requestTemplate);
    var m := PutStrings(m, "headers", c.headers);
    [Map(m)]
  }

  /** flattenActionConfigResponse: a one-block list whose block has a key
      for each field the API sent, and no other. */
  function FlattenActionConfigResponse(c: ResponseConfig): (r: seq<Value>)
    ensures |r| == 1 && r[0].Map?
    ensures "translation_map" in r[0].entries <==> c.translationMap.Some?
    ensures "translation_map_defaults" in r[0].entries <==> c.translationMapDefaults.Some?
    ensures "success_template" in r[0].entries <==> c.successTemplate.Some?
    ensures r[0].entries.Keys <= {"translation_map", "translation_map_defaults", "success_template"}
  {
    var m := PutStrings(map[], "translation_map", c.translationMap);
    var m := PutStrings(m, "translation_map_defaults", c.translationMapDefaults);
    var m := PutString(m, "success_template", c.successTemplate);
    [Map(m)]
  }

  /** A map attribute whose values are all strings. */
  predicate StringMapValue(v: Value)
  {
    v.Map? && forall k :: k in v.entries ==> v.entries[k].Str?
  }

  /** A complete `config_request` block as the framework hands it over. */
  predicate RequestBlockWellTyped(block: map<string, Value>)
  {
    && block.Keys == {"request_url_template", "request_type", "request_template", "headers"}
    && block["request_url_template"].Str? && block["request_type"].Str?
    && block["request_template"].Str? && StringMapValue(block["headers"])
  }

  /** A complete `config_response` block as the framework hands it over. */
  predicate ResponseBlockWellTyped(block: map<string, Value>)
  {
    && block.Keys == {"translation_map", "translation_map_defaults", "success_template"}
    && StringMapValue(block["translation_map"]) && StringMapValue(block["translation_map_defaults"])
    && block["success_template"].Str?
  }

  lemma {:induction false} StringMapValueRoundTrip(v: Value)
    requires StringMapValue(v)
    ensures StrMapValue(StringMap(MapOf(v))) == v
  {
    var m := StrMapValue(StringMap(MapOf(v))).entries;
    assert forall k :: k in m ==> m[k] == v.entries[k];
  }

  /** Build then flatten gives back the configured request block. */
  lemma {:induction false} RequestConfigRoundTrip(attrs: Attrs)
    requires Block(attrs, "config_request").Some?
    requires RequestBlockWellTyped(Block(attrs, "config_request").value)
    ensures FlattenActionConfigRequest(RequestConfigOf(attrs)) == [Map(Block(attrs, "config_request").value)]
  {
    var block := Block(attrs, "config_request").value;
    StringMapValueRoundTrip(block["headers"]);
    var r := FlattenActionConfigRequest(RequestConfigOf(attrs));
    var m := r[0].entries;
    assert m.Keys == block.Keys;
    assert forall k :: k in m ==> m[k] == block[k];
    assert m == block;
    assert r == [r[0]] == [Map(m)];
  }

  /** Build then flatten gives back the configured response block. */
  lemma {:induction false} ResponseConfigRoundTrip(attrs: Attrs)
    requires Block(attrs, "config_response").Some?
    requires ResponseBlockWellTyped(Block(attrs, "config_response").value)
    ensures FlattenActionConfigResponse(ResponseConfigOf(attrs)) == [Map(Block(attrs, "config_response").value)]
  {
    var block := Block(attrs, "config_response").value;
    StringMapValueRoundTrip(block["translation_map"]);
    StringMapValueRoundTrip(block["translation_map_defaults"]);
    var r := FlattenActionConfigResponse(ResponseConfigOf(attrs));
    var m := r[0].entries;
    assert m.Keys == block.Keys;
    assert forall k :: k in m ==> m[k] == block[k];
    assert m == block;
    assert r == [r[0]] == [Map(m)];
  }

  // ---------------------------------------------------------------------
  // Read

  /** An integration action as the API returns it. The contract schemas are
      carried as the JSON text they marshal to. */
  datatype Action = Action(
    id: string,
    name: Option<string>,
    category: Option<string>,
    integrationId: Option<string>,
    secure: Option<bool>,
    contractInput: Option<string>,
    contractOutput: Option<string>,
    config: Option<ActionConfig>)


  /** The `config_request` attribute read writes: the action's request
      configuration with the separately fetched request template in place
      of the embedded one. */
  function ConfigRequestValue(a: Action, reqTemp: string): Value
  {
    if a.config.Some? && a.config.value.request.Some? then
      List(FlattenActionConfigRequest(a.config.value.request.value.(requestTemplate := Some(reqTemp))))
    else Null
  }

  /** The `config_response` attribute read writes, with the separately
      fetched success template in place of the embedded one. */
  function ConfigResponseValue(a: Action, successTemp: string): Value
  {
    if a.config.Some? && a.config.value.response.Some? then
      List(FlattenActionConfigResponse(a.config.value.response.value.(successTemplate := Some(successTemp))))
    else Null
  }

  /** The attributes after a read that found the action and both templates. */
  function ReadAttrs(attrs: Attrs, a: Action, reqTemp: string, successTemp: string): Attrs
  {
    attrs
      ["name" := StringOrNull(a.name)]
      ["category" := StringOrNull(a.category)]
      ["integration_id" := StringOrNull(a.integrationId)]
      ["secure" := BoolOrNull(a.secure)]
      ["contract_input" := StringOrNull(a.contractInput)]
      ["contract_output" := StringOrNull(a.contractOutput)]
      ["config_request" := ConfigRequestValue(a, reqTemp)]
      ["config_response" := ConfigResponseValue(a, successTemp)]
  }

  /** The verdict of one read attempt: a 404 on the action is retried, a
      404 on either template ends the read (the resource is gone), any
      other error aborts. */
  function ReadVerdict(action: Response<Action>, reqTemp: Response<string>, successTemp: Response<string>): (a: Attempt)
    ensures a == Retryable <==> IsStatus404(action)
    ensures a == Done <==>
      TemplateGone(action, reqTemp, successTemp) || (action.Found? && reqTemp.Found? && successTemp.Found?)
  {
    if action.ErrorStatus? then
      if IsStatus404(action) then Retryable else NonRetryable
    else if reqTemp.ErrorStatus? then
      if IsStatus404(reqTemp) then Done else NonRetryable
    else if successTemp.ErrorStatus? then
      if IsStatus404(successTemp) then Done else NonRetryable
    else Done
  }

  /** A template fetch answered 404 after the action was found: the read
      forgets the resource. */
  predicate TemplateGone(action: Response<Action>, reqTemp: Response<string>, successTemp: Response<string>)
  {
    action.Found? && (IsStatus404(reqTemp) || (reqTemp.Found? && IsStatus404(successTemp)))
  }

  /** The verdict of one read attempt as written: its closing log line
      dereferences the action's name, so an action without a name that got
      that far panics (None) although every attribute was already set.
      Wherever it does not panic it agrees with ReadVerdict. */
  function ReadVerdictAsWritten(action: Response<Action>, reqTemp: Response<string>, successTemp: Response<string>)
    : (r: Option<Attempt>)
    ensures r.None? <==> action.Found? && reqTemp.Found? && successTemp.Found? && action.body.name.None?
    ensures r.Some? ==> r.value == ReadVerdict(action, reqTemp, successTemp)
  {
    if action.ErrorStatus? then
      Some(if IsStatus404(action) then Retryable else NonRetryable)
    else if reqTemp.ErrorStatus? then
      Some(if IsStatus404(reqTemp) then Done else NonRetryable)
    else if successTemp.ErrorStatus? then
      Some(if IsStatus404(successTemp) then Done else NonRetryable)
    else if action.body.name.None? then None
    else Some(Done)
  }

  /** An action without a name crashes the read as written, although the
      read handles the missing name when it sets the attributes; the
      corrected read finishes and stores a null name. */
  lemma {:induction false} NamelessActionCrashesRead()
    ensures var a := Action("action-1", None, Some("Custom"), Some("integration-1"), Some(false), None, None, None);
      && ReadVerdictAsWritten(Found(a), Found("{}"), Found("{}")).None?
      && ReadVerdict(Found(a), Found("{}"), Found("{}")) == Done
      && ReadAttrs(map[], a, "{}", "{}")["name"] == Null
  {
  }

  /** One attempt of readIntegrationAction's retry loop. */
  method ReadIntegrationActionAttempt(d: ResourceData, action: Response<Action>,
                                      reqTemp: Response<string>, successTemp: Response<string>)
    returns (a: Attempt)
    modifies d
    ensures a == ReadVerdict(action, reqTemp, successTemp)
    ensures d.id == if TemplateGone(action, reqTemp, successTemp) then "" else old(d.id)
    ensures d.attrs == if action.Found? && reqTemp.Found? && successTemp.Found?
      then ReadAttrs(old(d.attrs), action.body, reqTemp.body, successTemp.body)
      else old(d.attrs)
  {
    if action.ErrorStatus? {
      if IsStatus404(action) {
        return Retryable;
      }
      return NonRetryable;
    }
    if reqTemp.ErrorStatus? {
      if IsStatus404(reqTemp) {
        d.SetId("");
        return Done;
      }
      return NonRetryable;
    }
    if successTemp.ErrorStatus? {
      if IsStatus404(successTemp) {
        d.SetId("");
        return Done;
      }
      return NonRetryable;
    }
    var act := action.body;
    d.Set("name", StringOrNull(act.name));
    d.Set("category", StringOrNull(act.category));
    d.Set("integration_id", StringOrNull(act.integrationId));
    d.Set("secure", BoolOrNull(act.secure));
    d.Set("contract_input", StringOrNull(act.contractInput));
    d.Set("contract_output", StringOrNull(act.contractOutput));
    if act.config.Some? && act.config.value.request.Some? {
      var request := act.config.value.request.value.(requestTemplate := Some(reqTemp.body));
      d.Set("config_request", List(FlattenActionConfigRequest(request)));
    } else {
      d.Set("config_request", Null);
    }
    if act.config.Some? && act.config.value.response.Some? {
      var response := act.config.value.response.value.(successTemplate := Some(successTemp.body));
      d.Set("config_response", List(FlattenActionConfigResponse(response)));
    } else {
      d.Set("config_response", Null);
    }
    return Done;
  }

  /** The templates fetched on their own win over those embedded in the
      action: a read that found everything stores the fetched request
      template and success template, whatever the action carried. */
  lemma {:induction false} TemplatesOverride(attrs: Attrs, a: Action, reqTemp: string, successTemp: string)
    requires a.config.Some? && a.config.value.request.Some? && a.config.value.response.Some?
    ensures var r := ReadAttrs(attrs, a, reqTemp, successTemp);
      && r["config_request"].List? && |r["config_request"].items| == 1
      && r["config_request"].items[0].Map?
      && r["config_request"].items[0].entries["request_template"] == Str(reqTemp)
    ensures var r := ReadAttrs(attrs, a, reqTemp, successTemp);
      && r["config_response"].List? && |r["config_response"].items| == 1
      && r["config_response"].items[0].Map?
      && r["config_response"].items[0].entries["success_template"] == Str(successTemp)
  {
  }

  // ---------------------------------------------------------------------
  // Exporter and delete

  /** An entity of the action listing. */
  datatype ActionEntity = ActionEntity(id: string, name: string)

  /** Static actions are built in and never exported. */
  function ActionEntry(a: ActionEntity): Entry
  {
    if HasPrefix(a.id, "static") then None else Some((a.id, a.name))
  }

  /** getAllIntegrationActions: request pages 1, 2, ... of size 100 until an
      empty page; a page error aborts the export. */
  method GetAllIntegrationActions(pages: seq<Page<ActionEntity>>)
    returns (resources: Result<map<string, string>, int>, requests: seq<PageRequest>)
    requires Terminates(pages)
    ensures resources == Export(pages, ActionEntry)
    ensures requests == Requests(FirstStop(pages) + 1)
  {
    resources, requests := ExportPages(pages, ActionEntry);
  }

  /** The ids of the listed actions that are not static. */
  function CustomIds(actions: seq<ActionEntity>): set<string>
  {
    set a | a in actions && !HasPrefix(a.id, "static") :: a.id
  }

  /** The export holds exactly the ids of the listed actions that do not
      start with `static`. */
  lemma {:induction false} ExportedActions(pages: seq<Page<ActionEntity>>)
    requires Terminates(pages) && Export(pages, ActionEntry).Ok?
    ensures Export(pages, ActionEntry).value.Keys == CustomIds(Visited(pages, FirstStop(pages)))
  {
    var listed := Visited(pages, FirstStop(pages));
    var entry := ActionEntry;
    assert Export(pages, ActionEntry).value == Gather(listed, entry);
    forall id | true
      ensures id in Gather(listed, entry) <==> id in CustomIds(listed)
    {
      GatherKeys(listed, entry, id);
      if id in CustomIds(listed) {
        var p :| p in listed && !HasPrefix(p.id, "static") && p.id == id;
        var i :| 0 <= i < |listed| && listed[i] == p;
        assert entry(listed[i]).Some? && entry(listed[i]).value.0 == id;
      }
    }
  }

  /** One attempt of the poll after DELETE: gone on 404, abort on any other
      error, retry while the action still exists. */
  function DeleteIntegrationActionAttempt(r: Response<Action>): (a: Attempt)
    ensures a == Done <==> IsStatus404(r)
    ensures a == NonRetryable <==> r.ErrorStatus? && r.status != StatusNotFound
    ensures a == Retryable <==> r.Found?
  {
    if r.ErrorStatus? then
      if IsStatus404(r) then Done else NonRetryable
    else
      Retryable
  }
}
