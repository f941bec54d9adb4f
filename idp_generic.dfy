/** The generic SAML identity provider: a singleton configuration with id
    `generic`. Its certificates travel either in the singular `certificate`
    field or in the `certificates` list of the API body. */
module IdpGeneric {
  import opened Common

  /** The API's Genericsaml body, restricted to the fields the adapter uses. */
  datatype GenericSaml = GenericSaml(
    name: Option<string>,
    certificate: Option<string>,
    certificates: Option<seq<string>>,
    issuerUri: Option<string>,
    ssoTargetUri: Option<string>,
    relyingPartyIdentifier: Option<string>,
    disabled: Option<bool>,
    logoImageData: Option<string>,
    endpointCompression: Option<bool>,
    nameIdentifierFormat: Option<string>)

  // ---------------------------------------------------------------------
  // The name identifier formats of section 8.3 of OASIS SAML 2.0 Core

  const NameIdentifierFormats: seq<string> := [
    "urn:oasis:names:tc:SAML:1.1:nameid-format:unspecified",
    "urn:oasis:names:tc:SAML:1.1:nameid-format:emailAddress",
    "urn:oasis:names:tc:SAML:1.1:nameid-format:X509SubjectName",
    "urn:oasis:names:tc:SAML:1.1:nameid-format:WindowsDomainQualifiedName",
    "urn:oasis:names:tc:SAML:2.0:nameid-format:kerberos",
    "urn:oasis:names:tc:SAML:2.0:nameid-format:entity",
    "urn:oasis:names:tc:SAML:2.0:nameid-format:persistent",
    "urn:oasis:names:tc:SAML:2.0:nameid-format:transient"
  ]

  const DefaultNameIdentifierFormat: string := "urn:oasis:names:tc:SAML:1.1:nameid-format:unspecified"

  /** The validation of `name_identifier_format`: one of the listed URNs,
      compared case-sensitively. */
  predicate ValidNameIdentifierFormat(s: string)
  {
    s in NameIdentifierFormats
  }

  /** The schema default passes the schema's own validation, and only the
      eight listed formats do. */
  lemma {:induction false} NameIdentifierFormatSchema(s: string)
    ensures ValidNameIdentifierFormat(DefaultNameIdentifierFormat)
    ensures ValidNameIdentifierFormat(s) <==> exists i :: 0 <= i < 8 && NameIdentifierFormats[i] == s
  {
    assert NameIdentifierFormats[0] == DefaultNameIdentifierFormat;
  }

  // ---------------------------------------------------------------------
  // Certificates

  /** buildSdkStringList(d, "certificates"): nil when the set is unset or
      empty, otherwise its elements as strings. */
  function CertificateList(attrs: Attrs): Option<seq<string>>
  {
    StringSetList(attrs, "certificates")
  }

  /** The `certificates` attribute that read writes for a body: the singular
      field when present, else the list, else nothing. */
  function DecodeCertificates(g: GenericSaml): (r: Value)
    ensures r.Null? <==> g.certificate.None? && g.certificates.None?
    ensures g.certificate.Some? ==> Str(g.certificate.value) in Elements(r)
    ensures g.certificate.Some? ==> forall x :: x in Elements(r) ==> x == Str(g.certificate.value)
    ensures g.certificate.None? && g.certificates.Some? ==>
      (forall i :: 0 <= i < |g.certificates.value| ==> Str(g.certificates.value[i]) in Elements(r))
    ensures g.certificate.None? ==> forall x :: x in Elements(r) ==> x.Str? && x.s in g.certificates.value
  {
    if g.certificate.Some? then
      var one := [g.certificate.value];
      assert StrValues(one)[0] in StrValues(one);
      ListToStringSet(Some(one))
    else ListToStringSet(g.certificates)
  }

  predicate CertificatesWellTyped(attrs: Attrs)
  {
    StringSetWellTyped(attrs, "certificates")
  }

  // ---------------------------------------------------------------------
  // Update and create

  /** The body updateIdpGeneric puts: every scalar attribute as read with
      d.Get, and exactly one certificate in the singular field, more in the
      list. */
  function UpdateBody(attrs: Attrs): (b: GenericSaml)
    ensures !(b.certificate.Some? && b.certificates.Some?)
    ensures b.certificate.Some? <==> CertificateList(attrs).Some? && |CertificateList(attrs).value| == 1
    ensures b.certificate.Some? ==> CertificateList(attrs).Some? && CertificateList(attrs).value == [b.certificate.value]
    ensures b.certificates.Some? <==> CertificateList(attrs).Some? && |CertificateList(attrs).value| != 1
    ensures b.certificates.Some? ==> b.certificates == CertificateList(attrs)
    ensures b.name == Some(GetString(attrs, "name")) && b.issuerUri == Some(GetString(attrs, "issuer_uri"))
    ensures b.ssoTargetUri == Some(GetString(attrs, "target_uri"))
    ensures b.relyingPartyIdentifier == Some(GetString(attrs, "relying_party_identifier"))
    ensures b.disabled == Some(GetBool(attrs, "disabled")) && b.endpointCompression == Some(GetBool(attrs, "endpoint_compression"))
    ensures b.logoImageData == Some(GetString(attrs, "logo_image_data"))
    ensures b.nameIdentifierFormat == Some(GetString(attrs, "name_identifier_format"))
  {
    var certs := CertificateList(attrs);
    GenericSaml(
      Some(GetString(attrs, "name")),
      if certs.Some? && |certs.value| == 1 then Some(certs.value[0]) else None,
      if certs.Some? && |certs.value| != 1 then certs else None,
      Some(GetString(attrs, "issuer_uri")),
      Some(GetString(attrs, "target_uri")),
      Some(GetString(attrs, "relying_party_identifier")),
      Some(GetBool(attrs, "disabled")),
      Some(GetString(attrs, "logo_image_data")),
      Some(GetBool(attrs, "endpoint_compression")),
      Some(GetString(attrs, "name_identifier_format")))
  }

  /** The two certificate fields are never both sent; the singular one
      carries the only configured certificate and the list carries two or
      more; an unset or empty set sends neither. */
  lemma {:induction false} CertificateEncoding(attrs: Attrs)
    requires CertificatesWellTyped(attrs)
    ensures var b := UpdateBody(attrs);
      !(b.certificate.Some? && b.certificates.Some?)
    ensures var b := UpdateBody(attrs);
      b.certificate.Some? <==> |SetOf(Get(attrs, "certificates"))| == 1
    ensures var b := UpdateBody(attrs);
      b.certificates.Some? <==> |SetOf(Get(attrs, "certificates"))| >= 2
  {
    var v := Get(attrs, "certificates");
    if |SetOf(v)| > 0 {
      assert v.Set? && GetOk(attrs, "certificates");
      var certs := Strings(SetOf(v));
      assert CertificateList(attrs) == Some(certs) && |certs| == |SetOf(v)|;
      assert UpdateBody(attrs).certificates == if |certs| != 1 then Some(certs) else None;
    }
  }

  /** Reading back the body that update sent restores the configured
      certificate set. */
  lemma {:induction false} CertificatesRoundTrip(attrs: Attrs)
    requires CertificatesWellTyped(attrs)
    ensures Elements(DecodeCertificates(UpdateBody(attrs))) == Elements(Get(attrs, "certificates"))
  {
    StringSetRoundTrip(attrs, "certificates");
    var certs := CertificateList(attrs);
    if certs.Some? && |certs.value| == 1 {
      assert certs.value == [certs.value[0]];
    }
  }

  /** The outcome of updateIdpGeneric: the PUT failed with a status, or it
      succeeded and the resource was read back with the given verdict. */
  datatype UpdateOutcome = PutFailed(status: int) | ReadBack(attempt: Attempt)

  /** updateIdpGeneric: put the body, and on success read the configuration
      back (one attempt of the read's retry loop). */
  method UpdateIdpGeneric(d: ResourceData, put: Response<GenericSaml>, got: Response<GenericSaml>)
    returns (sent: GenericSaml, outcome: UpdateOutcome)
    modifies d
    ensures sent == UpdateBody(old(d.attrs))
    ensures d.id == old(d.id)
    ensures put.ErrorStatus? ==> outcome == PutFailed(put.status) && d.attrs == old(d.attrs)
    ensures put.Found? ==> outcome == ReadBack(ReadVerdict(got))
    ensures put.Found? && got.Found? ==> d.attrs == ReadAttrs(old(d.attrs), got.body)
    ensures put.Found? && got.ErrorStatus? ==> d.attrs == old(d.attrs)
  {
    sent := UpdateBody(d.attrs);
    if put.ErrorStatus? {
      return sent, PutFailed(put.status);
    }
    var a := ReadIdpGenericAttempt(d, got);
    outcome := ReadBack(a);
  }

  /** createIdpGeneric: the singleton always gets the id `generic`, and the
      rest is exactly an update. */
  method CreateIdpGeneric(d: ResourceData, put: Response<GenericSaml>, got: Response<GenericSaml>)
    returns (sent: GenericSaml, outcome: UpdateOutcome)
    modifies d
    ensures d.id == "generic"
    ensures sent == UpdateBody(old(d.attrs))
    ensures put.ErrorStatus? ==> outcome == PutFailed(put.status) && d.attrs == old(d.attrs)
    ensures put.Found? ==> outcome == ReadBack(ReadVerdict(got))
    ensures put.Found? && got.Found? ==> d.attrs == ReadAttrs(old(d.attrs), got.body)
    ensures put.Found? && got.ErrorStatus? ==> d.attrs == old(d.attrs)
  {
    d.SetId("generic");
    sent, outcome := UpdateIdpGeneric(d, put, got);
  }

  // ---------------------------------------------------------------------
  // Read


  /** The attributes after a successful read of `g`: every attribute is set
      from its field, and to nil when the field is absent. */
  function ReadAttrs(attrs: Attrs, g: GenericSaml): Attrs
  {
    attrs
      ["name" := StringOrNull(g.name)]
      ["certificates" := DecodeCertificates(g)]
      ["issuer_uri" := StringOrNull(g.issuerUri)]
      ["target_uri" := StringOrNull(g.ssoTargetUri)]
      ["relying_party_identifier" := StringOrNull(g.relyingPartyIdentifier)]
      ["disabled" := BoolOrNull(g.disabled)]
      ["logo_image_data" := StringOrNull(g.logoImageData)]
      ["endpoint_compression" := BoolOrNull(g.endpointCompression)]
      ["name_identifier_format" := StringOrNull(g.nameIdentifierFormat)]
  }

  /** The verdict of one attempt of the read retry loop: done once the
      configuration is found, retry while it answers 404, give up on any
      other error. */
  function ReadVerdict(r: Response<GenericSaml>): (a: Attempt)
    ensures a == Done <==> r.Found?
    ensures a == Retryable <==> IsStatus404(r)
    ensures a == NonRetryable <==> r.ErrorStatus? && r.status != StatusNotFound
  {
    if r.Found? then Done else if IsStatus404(r) then Retryable else NonRetryable
  }

  /** One attempt of readIdpGeneric's retry loop. */
  method ReadIdpGenericAttempt(d: ResourceData, r: Response<GenericSaml>) returns (a: Attempt)
    modifies d
    ensures a == ReadVerdict(r)
    ensures d.id == old(d.id)
    ensures d.attrs == if r.Found? then ReadAttrs(old(d.attrs), r.body) else old(d.attrs)
  {
    if r.ErrorStatus? {
      if IsStatus404(r) {
        return Retryable;
      }
      return NonRetryable;
    }
    var generic := r.body;
    d.Set("name", StringOrNull(generic.name));
    var certificates := Null;
    if generic.certificate.Some? {
      certificates := ListToStringSet(Some([generic.certificate.value]));
    } else if generic.certificates.Some? {
      certificates := ListToStringSet(generic.certificates);
    }
    assert certificates == DecodeCertificates(generic);
    d.Set("certificates", certificates);
    d.Set("issuer_uri", StringOrNull(generic.issuerUri));
    d.Set("target_uri", StringOrNull(generic.ssoTargetUri));
    d.Set("relying_party_identifier", StringOrNull(generic.relyingPartyIdentifier));
    d.Set("disabled", BoolOrNull(generic.disabled));
    d.Set("logo_image_data", StringOrNull(generic.logoImageData));
    d.Set("endpoint_compression", BoolOrNull(generic.endpointCompression));
    d.Set("name_identifier_format", StringOrNull(generic.nameIdentifierFormat));
    return Done;
  }

  /** The scalar attributes of the resource, present with their schema type. */
  predicate ScalarsWellTyped(attrs: Attrs)
  {
    && Get(attrs, "name").Str? && Get(attrs, "issuer_uri").Str? && Get(attrs, "target_uri").Str?
    && Get(attrs, "relying_party_identifier").Str? && Get(attrs, "disabled").Bool?
    && Get(attrs, "logo_image_data").Str? && Get(attrs, "endpoint_compression").Bool?
    && Get(attrs, "name_identifier_format").Str?
  }

  /** Reading a body whose scalar fields hold the attributes' values leaves
      every attribute but the certificates as it was. */
  lemma {:induction false} ReadRestoresScalars(attrs: Attrs, g: GenericSaml)
    requires StringOrNull(g.name) == Get(attrs, "name") && StringOrNull(g.issuerUri) == Get(attrs, "issuer_uri")
    requires StringOrNull(g.ssoTargetUri) == Get(attrs, "target_uri")
    requires StringOrNull(g.relyingPartyIdentifier) == Get(attrs, "relying_party_identifier")
    requires BoolOrNull(g.disabled) == Get(attrs, "disabled") && StringOrNull(g.logoImageData) == Get(attrs, "logo_image_data")
    requires BoolOrNull(g.endpointCompression) == Get(attrs, "endpoint_compression")
    requires StringOrNull(g.nameIdentifierFormat) == Get(attrs, "name_identifier_format")
    ensures var r := ReadAttrs(attrs, g);
      forall k :: k in attrs && k != "certificates" ==> k in r && r[k] == attrs[k]
  {
  }

  /** Update then read is the identity on the state: every scalar attribute
      comes back as configured, the certificates come back as the same set,
      and no other attribute is touched. */
  lemma {:induction false} UpdateReadRoundTrip(attrs: Attrs)
    requires ScalarsWellTyped(attrs) && CertificatesWellTyped(attrs)
    ensures var r := ReadAttrs(attrs, UpdateBody(attrs));
      forall k :: k in attrs && k != "certificates" ==> k in r && r[k] == attrs[k]
    ensures Elements(Get(ReadAttrs(attrs, UpdateBody(attrs)), "certificates")) == Elements(Get(attrs, "certificates"))
  {
    var b := UpdateBody(attrs);
    var r := ReadAttrs(attrs, b);
    ReadRestoresScalars(attrs, b);
    assert Get(r, "certificates") == DecodeCertificates(b);
    CertificatesRoundTrip(attrs);
  }

  // ---------------------------------------------------------------------
  // Exporter and delete

  /** getAllIdpGeneric: the singleton is exported under key "0" when it
      exists; a 404 exports nothing without error. */
  function GetAllIdpGeneric(r: Response<GenericSaml>): (res: Result<map<string, string>, int>)
    ensures res.Err? <==> r.ErrorStatus? && r.status != StatusNotFound
    ensures res.Ok? ==> res.value.Keys <= {"0"} && (res.value != map[] <==> r.Found?)
    ensures res.Ok? && "0" in res.value ==> res.value["0"] == "generic"
  {
    if r.ErrorStatus? then
      if IsStatus404(r) then Ok(map[]) else Err(r.status)
    else
      assert "0" in map["0" := "generic"];
      Ok(map["0" := "generic"])
  }

  /** One attempt of the poll after DELETE: gone on 404, abort on any other
      error, retry while the configuration still answers. */
  function DeleteIdpGenericAttempt(r: Response<GenericSaml>): (a: Attempt)
    ensures a == Done <==> IsStatus404(r)
    ensures a == NonRetryable <==> r.ErrorStatus? && r.status != StatusNotFound
    ensures a == Retryable <==> r.Found?
  {
    if r.ErrorStatus? then
      if IsStatus404(r) then Done else NonRetryable
    else
      Retryable
  }
}
