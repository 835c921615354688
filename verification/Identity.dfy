/** Client identities: taken from a certificate, joined into a sender id, and split again. */
module Identity {
  /** The parts of an X.509 certificate the identity depends on; `usages` are the unknown
      extended key usages in dotted form. */
  datatype Certificate = Certificate(commonName: string, issuer: string, units: seq<string>, usages: seq<string>)

  datatype Identified =
    | Identity(clientType: string, deviceId: string)
    | UnauthorizedCert
    | ExcludedCert

  const KNOWN_ISSUERS: set<string> := {"TeslaMotors", "Tesla Issuing CA", "Tesla Motors Products CA"}

  const KNOWN_OID_ISSUERS: set<string> := {
    "Tesla Motors Product Issuing CA",
    "Tesla Motors Product RSA Issuing CA",
    "Tesla Motors GF3 Product Issuing CA",
    "Tesla Motors GF3 Product RSA Issuing CA",
    "Tesla Energy Product Issuing CA",
    "Tesla Energy GF0 Product Issuing CA",
    "Tesla Motors GF0 Product Issuing CA",
    "Tesla Motors GF Austin Product Issuing CA",
    "Tesla Motors GF Berlin Product Issuing CA",
    "Tesla Product Access Issuing CA",
    "Tesla China Product Access Issuing CA",
    "Tesla GF0 Product Access Issuing CA",
    "Tesla GF3 Product Access Issuing CA",
    "Tesla GF Austin Product Access Issuing CA",
    "Tesla GF Berlin Product Access Issuing CA"
  }

  /** oidMap: the engineering arc and the production arc list the same client types. */
  function OidClientType(oid: string): (t: string)
    ensures '.' !in t
  {
    if oid == "1.3.6.1.4.1.49279.2.4.1" || oid == "1.3.6.1.4.1.49279.2.5.1" then "vehicle_device"
    else if oid == "1.3.6.1.4.1.49279.2.4.11" || oid == "1.3.6.1.4.1.49279.2.5.11" then "vehicle_board_device"
    else if oid == "1.3.6.1.4.1.49279.2.4.2" || oid == "1.3.6.1.4.1.49279.2.5.2" then "energy_device"
    else if oid == "1.3.6.1.4.1.49279.2.4.12" || oid == "1.3.6.1.4.1.49279.2.5.12" then "das_device"
    else if oid == "1.3.6.1.4.1.49279.2.4.14" || oid == "1.3.6.1.4.1.49279.2.5.14" then "vehicle_service"
    else if oid == "1.3.6.1.4.1.49279.2.4.15" || oid == "1.3.6.1.4.1.49279.2.5.15" then "das_service"
    else if oid == "1.3.6.1.4.1.49279.2.4.16" || oid == "1.3.6.1.4.1.49279.2.5.16" then "energy_service"
    else if oid == "1.3.6.1.4.1.49279.2.4.28" || oid == "1.3.6.1.4.1.49279.2.5.28" then "robotics_device"
    else ""
  }

  predicate KnownOid(oid: string) {
    OidClientType(oid) != ""
  }

  predicate ExcludedOid(oid: string) {
    oid == "1.3.6.1.4.1.49279.2.5.1.1"
  }

  function UnitClientType(unit: string): (t: string)
    ensures '.' !in t
  {
    if unit == "Solar Inverter" then "solar_inverter_device"
    else if unit == "Gen3 Wall Connector" then "wall_connector_device"
    else ""
  }

  /** strings.ReplaceAll(s, ".", "-"). */
  function DashDots(s: string): (d: string)
    ensures |d| == |s| && '.' !in d
    ensures forall i :: 0 <= i < |s| ==> d[i] == if s[i] == '.' then '-' else s[i]
  {
    if s == "" then "" else [if s[0] == '.' then '-' else s[0]] + DashDots(s[1..])
  }

  /** CreateIdentityFromCert. */
  function CreateIdentityFromCert(c: Certificate): (r: Identified) {
    var deviceId := DashDots(c.commonName);
    if c.issuer in KNOWN_OID_ISSUERS then CreateIdentityFromOids(c, deviceId, c.usages)
    else if c.issuer !in KNOWN_ISSUERS then UnauthorizedCert
    else if c.issuer == "Tesla Motors Products CA" && |c.units| > 0 && c.units[0] == "Tesla Motors SN" then
      Identity("vehicle_board_device", deviceId)
    else Identity("vehicle_device", deviceId)
  }

  /** createIdentifyFromOID, on the usages not looked at yet. */
  function CreateIdentityFromOids(c: Certificate, deviceId: string, usages: seq<string>): (r: Identified) {
    if usages == [] then UnauthorizedCert
    else if ExcludedOid(usages[0]) then ExcludedCert
    else if KnownOid(usages[0]) then
      var unitType := FirstUnitClientType(c.units);
      Identity(if unitType != "" then unitType else OidClientType(usages[0]), deviceId)
    else CreateIdentityFromOids(c, deviceId, usages[1..])
  }

  /** createIdentityFromOU: the client type of the first organizational unit that has one. */
  function FirstUnitClientType(units: seq<string>): (t: string)
    ensures '.' !in t
    ensures t == "" <==> forall u <- units :: UnitClientType(u) == ""
  {
    if units == [] then ""
    else if UnitClientType(units[0]) != "" then UnitClientType(units[0])
    else FirstUnitClientType(units[1..])
  }

  lemma {:induction false} FirstUnitDecides(units: seq<string>, i: nat)
    requires i < |units| && UnitClientType(units[i]) != ""
    requires forall j :: 0 <= j < i ==> UnitClientType(units[j]) == ""
    ensures FirstUnitClientType(units) == UnitClientType(units[i])
  {
    hide UnitClientType;
    if i > 0 {
      FirstUnitDecides(units[1..], i - 1);
    }
  }

  function BuildClientId(clientType: string, deviceId: string): (s: string) {
    clientType + "." + deviceId
  }

  /** ParseSenderID: strings.SplitN(senderID, ".", 2). */
  function ParseSenderId(senderId: string): (r: (string, string)) {
    var i := FirstDot(senderId);
    if i == |senderId| then (senderId, "") else (senderId[..i], senderId[i + 1..])
  }

  /** The index of the first dot, or the length of a string that has none. */
  function FirstDot(s: string): (i: nat)
    ensures i <= |s| && forall k :: 0 <= k < i ==> s[k] != '.'
    ensures i < |s| ==> s[i] == '.'
  {
    if s == "" || s[0] == '.' then 0 else 1 + FirstDot(s[1..])
  }

  /** Splitting undoes joining exactly when the client type has no dot; the device id may have any. */
  lemma ParseUndoesBuild(clientType: string, deviceId: string)
    ensures ParseSenderId(BuildClientId(clientType, deviceId)) == (clientType, deviceId) <==> '.' !in clientType
  {
    var s, n := BuildClientId(clientType, deviceId), |clientType|;
    assert s[n] == '.' && s[..n] == clientType && s[n + 1..] == deviceId;
    if '.' in clientType {
      var k :| 0 <= k < n && clientType[k] == '.';
      assert s[k] == '.';
    }
  }

  /** Joining undoes splitting exactly when the sender id has a dot. */
  lemma BuildUndoesParse(senderId: string)
    ensures var (clientType, deviceId) := ParseSenderId(senderId);
            BuildClientId(clientType, deviceId) == senderId <==> '.' in senderId
  {
    var i := FirstDot(senderId);
    if i < |senderId| {
      assert senderId == senderId[..i] + [senderId[i]] + senderId[i + 1..];
    } else {
      assert senderId[..i] == senderId;
      assert |BuildClientId(senderId, "")| == |senderId| + 1;
    }
  }

  /** An accepted certificate gives a client type and a device id without dots, so its sender id
      splits back into them. */
  lemma AcceptedIdentitySplits(c: Certificate)
    ensures var r := CreateIdentityFromCert(c);
            r.Identity? ==>
              && '.' !in r.clientType && '.' !in r.deviceId && r.clientType != ""
              && r.deviceId == DashDots(c.commonName)
              && ParseSenderId(BuildClientId(r.clientType, r.deviceId)) == (r.clientType, r.deviceId)
  {
    hide OidClientType, ExcludedOid, FirstUnitClientType, CreateIdentityFromOids;
    var r := CreateIdentityFromCert(c);
    if r.Identity? {
      OidsNameClientTypes(c, DashDots(c.commonName), c.usages);
      ParseUndoesBuild(r.clientType, r.deviceId);
    }
  }

  lemma {:induction false} OidsNameClientTypes(c: Certificate, deviceId: string, usages: seq<string>)
    ensures var r := CreateIdentityFromOids(c, deviceId, usages);
            r.Identity? ==> r.clientType != "" && '.' !in r.clientType && r.deviceId == deviceId
  {
    if usages != [] {
      OidsNameClientTypes(c, deviceId, usages[1..]);
    }
  }

  /** A usage cannot be both; the one for wireless authentication of production vehicles is excluded. */
  lemma ExcludedIsNotKnown(oid: string)
    ensures ExcludedOid(oid) ==> !KnownOid(oid)
    ensures ExcludedOid("1.3.6.1.4.1.49279.2.5.1.1")
  {
  }

  predicate Decides(oid: string) {
    KnownOid(oid) || ExcludedOid(oid)
  }

  /** On the OID path the first usage that is known or excluded decides: a known one accepts the
      certificate, with the client type of its unit if that has one; an excluded one refuses it.
      Without such a usage the certificate is unauthorized. */
  lemma {:induction false} FirstDecidingUsage(c: Certificate, deviceId: string, usages: seq<string>, i: nat)
    requires i <= |usages|
    requires forall j :: 0 <= j < i ==> !Decides(usages[j])
    ensures var r := CreateIdentityFromOids(c, deviceId, usages);
            && (i == |usages| ==> r == UnauthorizedCert)
            && (i < |usages| && ExcludedOid(usages[i]) ==> r == ExcludedCert)
            && (i < |usages| && KnownOid(usages[i]) ==>
                  var unitType := FirstUnitClientType(c.units);
                  r == Identity(if unitType != "" then unitType else OidClientType(usages[i]), deviceId))
  {
    hide OidClientType, ExcludedOid, FirstUnitClientType;
    if i < |usages| {
      ExcludedIsNotKnown(usages[i]);
    }
    if i > 0 {
      assert !Decides(usages[0]);
      FirstDecidingUsage(c, deviceId, usages[1..], i - 1);
    }
  }

  /** `usages[i]` is the first usage that decides. */
  predicate DecidedBy(usages: seq<string>, i: nat) {
    i < |usages| && Decides(usages[i]) && forall j :: 0 <= j < i ==> !Decides(usages[j])
  }

  lemma {:induction false} SomeUsageDecides(usages: seq<string>) returns (i: nat)
    ensures i <= |usages| && (forall j :: 0 <= j < i ==> !Decides(usages[j]))
    ensures i < |usages| ==> DecidedBy(usages, i)
  {
    if usages == [] || Decides(usages[0]) {
      i := 0;
    } else {
      i := SomeUsageDecides(usages[1..]);
      i := i + 1;
    }
  }

  /** What becomes of every certificate. One of an issuer that names client types by OID is accepted
      exactly if its first deciding usage is a known one, and excluded exactly if that is an excluded
      one; one of another known issuer is always accepted; any other is unauthorized. */
  lemma EveryCertificateIsDecided(c: Certificate)
    ensures var r := CreateIdentityFromCert(c);
            var byOid := c.issuer in KNOWN_OID_ISSUERS;
            && (r.Identity? <==>
                  if byOid then exists i: nat :: DecidedBy(c.usages, i) && KnownOid(c.usages[i]) else c.issuer in KNOWN_ISSUERS)
            && (r.ExcludedCert? <==> byOid && exists i: nat :: DecidedBy(c.usages, i) && ExcludedOid(c.usages[i]))
            && (r.Identity? && byOid ==>
                  exists i: nat :: DecidedBy(c.usages, i)
                    && r.clientType == if FirstUnitClientType(c.units) != "" then FirstUnitClientType(c.units) else OidClientType(c.usages[i]))
            && (r.Identity? && !byOid ==>
                  r.clientType == if c.issuer == "Tesla Motors Products CA" && c.units != [] && c.units[0] == "Tesla Motors SN"
                                  then "vehicle_board_device" else "vehicle_device")
  {
    hide OidClientType, ExcludedOid, FirstUnitClientType, CreateIdentityFromOids;
    if c.issuer in KNOWN_OID_ISSUERS {
      var i := SomeUsageDecides(c.usages);
      FirstDecidingUsage(c, DashDots(c.commonName), c.usages, i);
      if i < |c.usages| {
        ExcludedIsNotKnown(c.usages[i]);
      }
      forall k: nat | DecidedBy(c.usages, k)
        ensures k == i
      {
      }
    }
  }

  const ENGINEERING := "1.3.6.1.4.1.49279.2.4."
  const PRODUCTION := "1.3.6.1.4.1.49279.2.5."

  lemma KindIs(kind: string, tail: string)
    ensures ENGINEERING + kind == ENGINEERING + tail <==> kind == tail
    ensures PRODUCTION + kind == PRODUCTION + tail <==> kind == tail
    ensures ENGINEERING + kind != PRODUCTION + tail
  {
    assert (ENGINEERING + kind)[|ENGINEERING|..] == kind && (ENGINEERING + tail)[|ENGINEERING|..] == tail;
    assert (PRODUCTION + kind)[|PRODUCTION|..] == kind && (PRODUCTION + tail)[|PRODUCTION|..] == tail;
    assert (ENGINEERING + kind)[20] == '4' && (PRODUCTION + tail)[20] == '5';
  }

  lemma KindHas(kind: string, tail: string, engineering: string, production: string)
    requires engineering == ENGINEERING + tail && production == PRODUCTION + tail
    ensures ENGINEERING + kind == engineering <==> kind == tail
    ensures PRODUCTION + kind == production <==> kind == tail
    ensures ENGINEERING + kind != production && PRODUCTION + kind != engineering
  {
    KindIs(kind, tail);
    KindIs(tail, kind);
  }

  /** The engineering arc and the production arc name the same client types. */
  lemma ArcsAgree(kind: string)
    ensures OidClientType(ENGINEERING + kind) == OidClientType(PRODUCTION + kind)
  {
    KindHas(kind, "1", "1.3.6.1.4.1.49279.2.4.1", "1.3.6.1.4.1.49279.2.5.1");
    KindHas(kind, "11", "1.3.6.1.4.1.49279.2.4.11", "1.3.6.1.4.1.49279.2.5.11");
    KindHas(kind, "2", "1.3.6.1.4.1.49279.2.4.2", "1.3.6.1.4.1.49279.2.5.2");
    KindHas(kind, "12", "1.3.6.1.4.1.49279.2.4.12", "1.3.6.1.4.1.49279.2.5.12");
    KindHas(kind, "14", "1.3.6.1.4.1.49279.2.4.14", "1.3.6.1.4.1.49279.2.5.14");
    KindHas(kind, "15", "1.3.6.1.4.1.49279.2.4.15", "1.3.6.1.4.1.49279.2.5.15");
    KindHas(kind, "16", "1.3.6.1.4.1.49279.2.4.16", "1.3.6.1.4.1.49279.2.5.16");
    KindHas(kind, "28", "1.3.6.1.4.1.49279.2.4.28", "1.3.6.1.4.1.49279.2.5.28");
  }
}
