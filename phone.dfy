/** Phones: the line and capability encoders between the phone's attributes
    and the API's Phone body, the standalone marker, the exporter's page loop
    and the verdict of one attempt of the delete poll. */
module Phone {
  import opened Common

  // ---------------------------------------------------------------------
  // Lines

  /** A phone line as the API represents it. */
  datatype Line = Line(name: string, lineBaseSettingsId: string, properties: Option<Attrs>)

  const StationIdentityAddress: string := "station_identity_address"

  /** The properties of a line that carries the DID `addr`. */
  function AddressProperties(addr: string): Attrs
  {
    map[StationIdentityAddress := Map(map["value" := Map(map["instance" := Str(addr)])])]
  }

  /** The single line of a phone that is not standalone. */
  function DefaultLine(lineBaseId: string): Line
  {
    Line("line_" + lineBaseId, lineBaseId, None)
  }

  /** Line i (from 0) of a standalone phone, carrying the DID `addr`. */
  function StandaloneLine(lineBaseId: string, i: nat, addr: string): Line
  {
    Line("line_" + lineBaseId + "_" + NatToString(i + 1), lineBaseId, Some(AddressProperties(addr)))
  }

  /** The configured `line_addresses`; an unset attribute is an empty list. */
  function LineAddressConfig(attrs: Attrs): seq<string>
  {
    Strings(ListOf(Get(attrs, "line_addresses")))
  }

  /** buildSdkLines: one unnamed-address line when no address is configured,
      otherwise one line per address, in order, and the phone is standalone. */
  method BuildSdkLines(attrs: Attrs, lineBaseId: string) returns (lines: seq<Line>, isStandalone: bool)
    ensures |LineAddressConfig(attrs)| == 0 ==> lines == [DefaultLine(lineBaseId)] && !isStandalone
    ensures |LineAddressConfig(attrs)| > 0 ==> isStandalone && |lines| == |LineAddressConfig(attrs)|
    ensures forall i :: 0 <= i < |LineAddressConfig(attrs)| ==>
      lines[i] == StandaloneLine(lineBaseId, i, LineAddressConfig(attrs)[i])
  {
    lines := [];
    isStandalone := false;
    var ok := GetOk(attrs, "line_addresses");
    var lineStringList := LineAddressConfig(attrs);
    if !ok || |lineStringList| == 0 {
      lines := lines + [DefaultLine(lineBaseId)];
      return;
    }
    var i := 0;
    while i < |lineStringList|
      invariant 0 <= i <= |lineStringList|
      invariant |lines| == i
      invariant forall j :: 0 <= j < i ==> lines[j] == StandaloneLine(lineBaseId, j, lineStringList[j])
    {
      lines := lines + [StandaloneLine(lineBaseId, i, lineStringList[i])];
      i := i + 1;
    }
    isStandalone := true;
  }

  /** Distinct standalone lines get distinct names. */
  lemma {:induction false} LineNamesDistinct(lineBaseId: string, i: nat, j: nat, a: string, b: string)
    requires i != j
    ensures StandaloneLine(lineBaseId, i, a).name != StandaloneLine(lineBaseId, j, b).name
  {
    var p := "line_" + lineBaseId + "_";
    var s, t := NatToString(i + 1), NatToString(j + 1);
    if p + s == p + t {
      assert s == (p + s)[|p|..] && t == (p + t)[|p|..];
      NatToStringInjective(i + 1, j + 1);
    }
  }

  predicate HasProperties(lines: seq<Line>)
  {
    forall i :: 0 <= i < |lines| ==> lines[i].properties.Some?
  }

  /** The DID a line carries in station_identity_address.value.instance,
      or "" when it carries none. */
  function LineAddress(line: Line): string
    requires line.properties.Some?
  {
    var props := line.properties.value;
    if StationIdentityAddress in props && props[StationIdentityAddress] != Null then
      StringOf(Get(MapOf(Get(MapOf(props[StationIdentityAddress]), "value")), "instance"))
    else ""
  }

  /** The non-empty DIDs of the lines, in line order. */
  function LineAddresses(lines: seq<Line>): seq<string>
    requires HasProperties(lines)
  {
    if lines == [] then []
    else
      var rest := LineAddresses(lines[..|lines| - 1]);
      var did := LineAddress(lines[|lines| - 1]);
      if |did| == 0 then rest else rest + [did]
  }

  /** flattenPhoneLines. The source dereferences every line's properties, so
      every line must carry some. */
  method FlattenPhoneLines(lines: Option<seq<Line>>) returns (r: Option<seq<string>>)
    requires lines.Some? ==> HasProperties(lines.value)
    ensures lines.None? ==> r.None?
    ensures lines.Some? ==> r == Some(LineAddresses(lines.value))
  {
    if lines.None? {
      return None;
    }
    var ls := lines.value;
    var lineAddressList: seq<string> := [];
    var i := 0;
    while i < |ls|
      invariant 0 <= i <= |ls|
      invariant lineAddressList == LineAddresses(ls[..i])
    {
      var did := LineAddress(ls[i]);
      assert ls[..i + 1][..i] == ls[..i];
      if |did| == 0 {
        i := i + 1;
        continue;
      }
      lineAddressList := lineAddressList + [did];
      i := i + 1;
    }
    assert ls[..i] == ls;
    r := Some(lineAddressList);
  }

  /** Every DID read back is non-empty and carried by some line. */
  lemma {:induction false} LineAddressesSound(lines: seq<Line>, a: string)
    requires HasProperties(lines) && a in LineAddresses(lines)
    ensures |a| > 0 && exists i :: 0 <= i < |lines| && LineAddress(lines[i]) == a
  {
    var n := |lines| - 1;
    var init := lines[..n];
    var last := LineAddress(lines[n]);
    assert LineAddresses(lines) == if |last| == 0 then LineAddresses(init) else LineAddresses(init) + [last];
    if a in LineAddresses(init) {
      LineAddressesSound(init, a);
      var i :| 0 <= i < |init| && LineAddress(init[i]) == a;
      assert lines[i] == init[i];
    } else {
      assert LineAddress(lines[n]) == a;
    }
  }

  /** The non-empty DID of every line is read back. */
  lemma {:induction false} LineAddressesComplete(lines: seq<Line>, i: nat)
    requires HasProperties(lines) && i < |lines| && |LineAddress(lines[i])| > 0
    ensures LineAddress(lines[i]) in LineAddresses(lines)
  {
    var n := |lines| - 1;
    var init := lines[..n];
    var last := LineAddress(lines[n]);
    assert LineAddresses(lines) == if |last| == 0 then LineAddresses(init) else LineAddresses(init) + [last];
    if i < n {
      assert init[i] == lines[i];
      LineAddressesComplete(init, i);
    }
  }

  /** Exactly the non-empty DIDs of the lines are read back. */
  lemma {:induction false} LineAddressesMembers(lines: seq<Line>, a: string)
    requires HasProperties(lines)
    ensures a in LineAddresses(lines) <==>
      |a| > 0 && exists i :: 0 <= i < |lines| && LineAddress(lines[i]) == a
  {
    if a in LineAddresses(lines) {
      LineAddressesSound(lines, a);
    }
    if |a| > 0 && exists i :: 0 <= i < |lines| && LineAddress(lines[i]) == a {
      var i :| 0 <= i < |lines| && LineAddress(lines[i]) == a;
      LineAddressesComplete(lines, i);
    }
  }

  /** Standalone lines built from non-empty addresses read back as exactly
      those addresses, in order. */
  lemma {:induction false} LinesRoundTrip(lineBaseId: string, addrs: seq<string>, lines: seq<Line>)
    requires |lines| == |addrs|
    requires forall i :: 0 <= i < |addrs| ==> lines[i] == StandaloneLine(lineBaseId, i, addrs[i])
    requires forall i :: 0 <= i < |addrs| ==> |addrs[i]| > 0
    ensures HasProperties(lines)
    ensures LineAddresses(lines) == addrs
  {
    if addrs != [] {
      var n := |addrs| - 1;
      LinesRoundTrip(lineBaseId, addrs[..n], lines[..n]);
      assert lines[..n] == lines[..|lines| - 1];
      assert LineAddress(lines[n]) == addrs[n];
      assert addrs[..n] + [addrs[n]] == addrs;
    }
  }

  // ---------------------------------------------------------------------
  // Capabilities

  /** Phonecapabilities: every field may be absent. */
  datatype Capabilities = Capabilities(
    provisions: Option<bool>,
    registers: Option<bool>,
    dualRegisters: Option<bool>,
    hardwareIdType: Option<string>,
    allowReboot: Option<bool>,
    noRebalance: Option<bool>,
    noCloudProvisioning: Option<bool>,
    mediaCodecs: Option<seq<string>>,
    cdm: Option<bool>)

  const NoCapabilities: Capabilities := Capabilities(None, None, None, None, None, None, None, None, None)

  const CapabilityKeys: set<string> := {"provisions", "registers", "dual_registers", "hardware_id_type",
    "allow_reboot", "no_rebalance", "no_cloud_provisioning", "media_codecs", "cdm"}

  function BoolField(b: Option<bool>): Option<Value>
  {
    if b.Some? then Some(Bool(b.value)) else None
  }

  /** The attribute value of the capability field behind schema key `key`,
      when that field is set. */
  function CapabilityField(c: Capabilities, key: string): Option<Value>
  {
    if key == "provisions" then BoolField(c.provisions)
    else if key == "registers" then BoolField(c.registers)
    else if key == "dual_registers" then BoolField(c.dualRegisters)
    else if key == "hardware_id_type" then
      (if c.hardwareIdType.Some? then Some(Str(c.hardwareIdType.value)) else None)
    else if key == "allow_reboot" then BoolField(c.allowReboot)
    else if key == "no_rebalance" then BoolField(c.noRebalance)
    else if key == "no_cloud_provisioning" then BoolField(c.noCloudProvisioning)
    else if key == "media_codecs" then
      (if c.mediaCodecs.Some? then Some(List(StrValues(c.mediaCodecs.value))) else None)
    else if key == "cdm" then BoolField(c.cdm)
    else None
  }

  /** The API capabilities a capabilities block stands for: all nine fields set. */
  function CapabilitiesOf(block: Attrs): Capabilities
  {
    var hw := GetString(block, "hardware_id_type");
    Capabilities(
      Some(GetBool(block, "provisions")),
      Some(GetBool(block, "registers")),
      Some(GetBool(block, "dual_registers")),
      Some(if |hw| > 0 then hw else ""),
      Some(GetBool(block, "allow_reboot")),
      Some(GetBool(block, "no_rebalance")),
      Some(GetBool(block, "no_cloud_provisioning")),
      Some(Strings(ListOf(Get(block, "media_codecs")))),
      Some(GetBool(block, "cdm")))
  }

  /** buildSdkCapabilities: an empty struct for an empty list, and otherwise
      every field from the first block, media codecs copied in order. The
      list is read with d.Get, which answers an empty list for an unset
      one, so the function's nil branch is never taken. */
  method BuildSdkCapabilities(attrs: Attrs) returns (caps: Capabilities)
    ensures |ListOf(Get(attrs, "capabilities"))| == 0 ==> caps == NoCapabilities
    ensures |ListOf(Get(attrs, "capabilities"))| > 0 ==>
      caps == CapabilitiesOf(MapOf(ListOf(Get(attrs, "capabilities"))[0]))
  {
    var capabilities := ListOf(Get(attrs, "capabilities"));
    if |capabilities| == 0 {
      return NoCapabilities;
    }
    var block := MapOf(capabilities[0]);
    var hardwareIdType := "";
    var checkHardwareIdType := GetString(block, "hardware_id_type");
    if |checkHardwareIdType| > 0 {
      hardwareIdType := checkHardwareIdType;
    }
    var checkMediaCodecs := ListOf(Get(block, "media_codecs"));
    var mediaCodecs: seq<string> := [];
    var i := 0;
    while i < |checkMediaCodecs|
      invariant 0 <= i <= |checkMediaCodecs|
      invariant mediaCodecs == Strings(checkMediaCodecs[..i])
    {
      mediaCodecs := mediaCodecs + [StringOf(checkMediaCodecs[i])];
      i := i + 1;
    }
    assert checkMediaCodecs[..i] == checkMediaCodecs;
    caps := Capabilities(
      Some(GetBool(block, "provisions")),
      Some(GetBool(block, "registers")),
      Some(GetBool(block, "dual_registers")),
      Some(hardwareIdType),
      Some(GetBool(block, "allow_reboot")),
      Some(GetBool(block, "no_rebalance")),
      Some(GetBool(block, "no_cloud_provisioning")),
      Some(mediaCodecs),
      Some(GetBool(block, "cdm")));
  }

  /** flattenPhoneCapabilities: nil for nil, otherwise one block holding a key
      exactly for each capability field that is set, with that field's value. */
  function FlattenPhoneCapabilities(caps: Option<Capabilities>): (r: Option<seq<Attrs>>)
    ensures caps.None? <==> r.None?
    ensures r.Some? ==> |r.value| == 1
  {
    if caps.None? then None
    else
      var c := caps.value;
      Some([map k | k in CapabilityKeys && CapabilityField(c, k).Some? :: CapabilityField(c, k).value])
  }

  /** A capabilities block as the schema shapes it: all nine keys, each of its type. */
  predicate WellTypedCapabilities(block: Attrs)
  {
    && block.Keys == CapabilityKeys
    && block["provisions"].Bool? && block["registers"].Bool? && block["dual_registers"].Bool?
    && block["hardware_id_type"].Str?
    && block["allow_reboot"].Bool? && block["no_rebalance"].Bool? && block["no_cloud_provisioning"].Bool?
    && block["media_codecs"].List?
    && (forall i :: 0 <= i < |block["media_codecs"].items| ==> block["media_codecs"].items[i].Str?)
    && block["cdm"].Bool?
  }

  /** Each field built from a well-typed block flattens back to that
      block's value under the same key. */
  lemma {:induction false} CapabilityFieldOf(block: Attrs, k: string)
    requires WellTypedCapabilities(block) && k in CapabilityKeys
    ensures CapabilityField(CapabilitiesOf(block), k) == Some(block[k])
  {
    if k == "media_codecs" {
      var codecs := block["media_codecs"].items;
      assert StrValues(Strings(codecs)) == codecs;
    }
  }

  /** Sending a well-typed capabilities block and reading the capabilities
      back yields that block unchanged. */
  lemma {:induction false} CapabilitiesRoundTrip(block: Attrs)
    requires WellTypedCapabilities(block)
    ensures FlattenPhoneCapabilities(Some(CapabilitiesOf(block))) == Some([block])
  {
    var c := CapabilitiesOf(block);
    var m := FlattenPhoneCapabilities(Some(c)).value[0];
    forall k | k in CapabilityKeys ensures CapabilityField(c, k) == Some(block[k]) {
      CapabilityFieldOf(block, k);
    }
    assert m.Keys == block.Keys;
    assert forall k :: k in m ==> m[k] == block[k];
    assert m == block;
  }

  // ---------------------------------------------------------------------
  // The create and update bodies

  /** The Phone request body. */
  datatype PhoneRequest = PhoneRequest(
    name: string,
    state: Option<string>,
    siteId: string,
    phoneBaseSettingsId: string,
    lineBaseSettingsId: Option<string>,
    phoneMetaBaseId: string,
    lines: seq<Line>,
    capabilities: Option<Capabilities>,
    properties: Option<Attrs>,
    webRtcUserId: Option<string>)

  /** The property that marks a phone as standalone. */
  const StandaloneProperties: Attrs :=
    map["phone_standalone" := Map(map["value" := Map(map["instance" := Bool(true)])])]

  function WebRtcUser(attrs: Attrs): Option<string>
  {
    var user := GetString(attrs, "web_rtc_user_id");
    if user != "" then Some(user) else None
  }

  /** The body createPhone posts; `phoneMetaBaseId` is what the phone base
      settings lookup answered. The phone carries the standalone property
      exactly when line addresses are configured. */
  method BuildCreatePhoneBody(attrs: Attrs, phoneMetaBaseId: string) returns (body: PhoneRequest)
    ensures body.properties == if |LineAddressConfig(attrs)| > 0 then Some(StandaloneProperties) else None
    ensures body.state == Some(GetString(attrs, "state"))
    ensures body.lineBaseSettingsId == Some(GetString(attrs, "line_base_settings_id"))
    ensures body.phoneMetaBaseId == phoneMetaBaseId
    ensures |LineAddressConfig(attrs)| > 0 ==> |body.lines| == |LineAddressConfig(attrs)|
    ensures |LineAddressConfig(attrs)| == 0 ==> body.lines == [DefaultLine(GetString(attrs, "line_base_settings_id"))]
    ensures forall i :: 0 <= i < |LineAddressConfig(attrs)| ==>
      body.lines[i] == StandaloneLine(GetString(attrs, "line_base_settings_id"), i, LineAddressConfig(attrs)[i])
    ensures body.name == GetString(attrs, "name") && body.siteId == GetString(attrs, "site_id")
    ensures body.phoneBaseSettingsId == GetString(attrs, "phone_base_settings_id")
    ensures |ListOf(Get(attrs, "capabilities"))| == 0 ==> body.capabilities == Some(NoCapabilities)
    ensures |ListOf(Get(attrs, "capabilities"))| > 0 ==>
      body.capabilities == Some(CapabilitiesOf(MapOf(ListOf(Get(attrs, "capabilities"))[0])))
    ensures body.webRtcUserId == WebRtcUser(attrs)
  {
    var lineBaseId := GetString(attrs, "line_base_settings_id");
    var lines, isStandalone := BuildSdkLines(attrs, lineBaseId);
    var capabilities := BuildSdkCapabilities(attrs);
    body := PhoneRequest(GetString(attrs, "name"), Some(GetString(attrs, "state")), GetString(attrs, "site_id"),
      GetString(attrs, "phone_base_settings_id"), Some(lineBaseId), phoneMetaBaseId, lines, Some(capabilities), None, None);
    if isStandalone {
      body := body.(properties := Some(StandaloneProperties));
    }
    if GetString(attrs, "web_rtc_user_id") != "" {
      body := body.(webRtcUserId := Some(GetString(attrs, "web_rtc_user_id")));
    }
  }

  /** The body updatePhone puts: no state, capabilities or line base
      settings reference; the phone meta base comes from the attributes. */
  method BuildUpdatePhoneBody(attrs: Attrs) returns (body: PhoneRequest)
    ensures body.properties == if |LineAddressConfig(attrs)| > 0 then Some(StandaloneProperties) else None
    ensures body.state.None? && body.capabilities.None? && body.lineBaseSettingsId.None?
    ensures body.phoneMetaBaseId == GetString(attrs, "phone_meta_base_id")
    ensures |LineAddressConfig(attrs)| > 0 ==> |body.lines| == |LineAddressConfig(attrs)|
    ensures |LineAddressConfig(attrs)| == 0 ==> body.lines == [DefaultLine(GetString(attrs, "line_base_settings_id"))]
    ensures forall i :: 0 <= i < |LineAddressConfig(attrs)| ==>
      body.lines[i] == StandaloneLine(GetString(attrs, "line_base_settings_id"), i, LineAddressConfig(attrs)[i])
    ensures body.name == GetString(attrs, "name") && body.siteId == GetString(attrs, "site_id")
    ensures body.phoneBaseSettingsId == GetString(attrs, "phone_base_settings_id")
    ensures body.webRtcUserId == WebRtcUser(attrs)
  {
    var lineBaseId := GetString(attrs, "line_base_settings_id");
    var lines, isStandalone := BuildSdkLines(attrs, lineBaseId);
    body := PhoneRequest(GetString(attrs, "name"), None, GetString(attrs, "site_id"),
      GetString(attrs, "phone_base_settings_id"), None, GetString(attrs, "phone_meta_base_id"), lines, None, None, None);
    if isStandalone {
      body := body.(properties := Some(StandaloneProperties));
    }
    if GetString(attrs, "web_rtc_user_id") != "" {
      body := body.(webRtcUserId := Some(GetString(attrs, "web_rtc_user_id")));
    }
  }

  // ---------------------------------------------------------------------
  // Exporter and delete poll

  /** A phone as the listing and GET endpoints return it. */
  datatype PhoneEntity = PhoneEntity(id: string, name: string, state: string)

  /** Phones in state `deleted` are not exported. */
  function PhoneEntry(p: PhoneEntity): Entry
  {
    if p.state != "deleted" then Some((p.id, p.name)) else None
  }

  /** getAllPhones: pages 1, 2, ... of 100 until a page is nil or empty; a
      failed page aborts the export. */
  method GetAllPhones(pages: seq<Page<PhoneEntity>>) returns (resources: Result<map<string, string>, int>, requests: seq<PageRequest>)
    requires Terminates(pages)
    ensures resources == Export(pages, PhoneEntry)
    ensures requests == Requests(FirstStop(pages) + 1)
  {
    resources, requests := ExportPages(pages, PhoneEntry);
  }

  /** The ids of the phones in a listing that are not deleted. */
  function LiveIds(phones: seq<PhoneEntity>): set<string>
  {
    set p | p in phones && p.state != "deleted" :: p.id
  }

  /** The export holds exactly the ids of the listed phones that are not
      deleted. */
  lemma {:induction false} ExportedPhones(pages: seq<Page<PhoneEntity>>)
    requires Terminates(pages) && Export(pages, PhoneEntry).Ok?
    ensures Export(pages, PhoneEntry).value.Keys == LiveIds(Visited(pages, FirstStop(pages)))
  {
    var listed := Visited(pages, FirstStop(pages));
    var entry := PhoneEntry;
    assert Export(pages, PhoneEntry).value == Gather(listed, entry);
    forall id | true
      ensures id in Gather(listed, entry) <==> id in LiveIds(listed)
    {
      GatherKeys(listed, entry, id);
      if id in LiveIds(listed) {
        var p :| p in listed && p.state != "deleted" && p.id == id;
        var i :| 0 <= i < |listed| && listed[i] == p;
        assert entry(listed[i]).Some? && entry(listed[i]).value.0 == id;
      }
    }
  }

  /** One attempt of the poll after DELETE: gone on 404 or state `deleted`,
      abort on any other error, retry while the phone is live. */
  function DeletePhoneAttempt(r: Response<PhoneEntity>): (a: Attempt)
    ensures a == Done <==> IsStatus404(r) || (r.Found? && r.body.state == "deleted")
    ensures a == NonRetryable <==> r.ErrorStatus? && r.status != StatusNotFound
    ensures a == Retryable <==> r.Found? && r.body.state != "deleted"
  {
    match r
    case ErrorStatus(status) => if status == StatusNotFound then Done else NonRetryable
    case Found(phone) => if phone.state == "deleted" then Done else Retryable
  }
}
