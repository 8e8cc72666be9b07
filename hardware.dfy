/**
 * What the verifier needs from outside itself: the SHA-256 hash, the processor's
 * EREPORT and report-key primitives, and this enclave's own identity. The
 * cryptography is not modelled; the hash, the report-key derivation and the
 * CMAC are parameters of a Platform, and every statement about them is made for
 * all of their values.
 */
module Hardware {
  import opened Bytes
  import opened SgxReport

  /** The fields of TARGETINFO that name the enclave a REPORT is meant for. */
  datatype Targetinfo = Targetinfo(measurement: Bytes32, attributes: Bytes16, miscselect: Bytes4)

  datatype Platform = Platform(
    /** SHA-256 as in FIPS 180-4. */
    sha256: seq<byte> -> Bytes32,
    /** The 128-bit report key of the enclave a TARGETINFO names, for a KEYID. */
    reportKey: (Targetinfo, Bytes32) -> Bytes16,
    /** AES-128-CMAC. */
    cmac: (Bytes16, seq<byte>) -> Bytes16,
    /** The KEYID the processor currently places in reports. */
    keyid: Bytes32,
    /** The REPORTBODY fields of the enclave running the verifier (its REPORTDATA is not used). */
    self: ReportBody)

  /**
   * The TARGETINFO naming this enclave, as SetTargetinfoFromSelfIdentity fills it:
   * each field holds, in its hardware encoding, the value of the self identity's
   * field of the same name.
   */
  function SetTargetinfoFromSelfIdentity(p: Platform): (t: Targetinfo)
    ensures t.measurement == GetSelfIdentity(p).mrenclave
    ensures LittleEndian(t.miscselect) == GetSelfIdentity(p).miscselect
    ensures Attributes(LittleEndian(t.attributes[..8]), LittleEndian(t.attributes[8..])) == GetSelfIdentity(p).attributes
  {
    Targetinfo(p.self.mrenclave, p.self.attributes, p.self.miscselect)
  }

  /** TrivialZeroObject<Targetinfo>(): a TARGETINFO that names no enclave. */
  function ZeroTargetinfo(): Targetinfo
  {
    Targetinfo(Zeros(32), Zeros(16), Zeros(4))
  }

  /** This enclave's own CodeIdentity, as GetSelfIdentity reports it. */
  function GetSelfIdentity(p: Platform): (id: CodeIdentity)
    ensures id.mrenclave == p.self.mrenclave && id.signerAssignedIdentity.mrsigner == p.self.mrsigner
  {
    ParseIdentityFromHardwareReport(p.self)
  }

  /**
   * EREPORT: a REPORT about this enclave carrying `reportdata`, MACed with the
   * report key of the enclave that `target` names. Only the enclave named by
   * `target` can check the MAC, so the REPORT verifies here exactly when it is
   * targeted at this enclave (the "only if" under the report-MAC assumption).
   */
  function GetHardwareReport(p: Platform, target: Targetinfo, reportdata: Bytes64): (r: Report)
    ensures r.body.reportdata == reportdata
    ensures ParseIdentityFromHardwareReport(r.body) == GetSelfIdentity(p)
    ensures target == SetTargetinfoFromSelfIdentity(p) ==> VerifyHardwareReport(p, r)
    ensures ReportKeysSeparate(p) && target != SetTargetinfoFromSelfIdentity(p) ==> !VerifyHardwareReport(p, r)
  {
    IdentityIgnoresReportdata(p.self, reportdata);
    var body := p.self.(reportdata := reportdata);
    Report(body, p.keyid, p.cmac(p.reportKey(target, p.keyid), EncodeBody(body)))
  }

  /**
   * VerifyHardwareReport: the REPORT's MAC is the CMAC of its body under this
   * enclave's own report key for the REPORT's KEYID, that is, the REPORT was
   * produced by EREPORT with a TARGETINFO naming this enclave.
   */
  predicate VerifyHardwareReport(p: Platform, report: Report)
  {
    report.mac == p.cmac(p.reportKey(SetTargetinfoFromSelfIdentity(p), report.keyid), EncodeBody(report.body))
  }

  /**
   * The security assumption on the report MAC: a MAC computed under the report
   * key of any other enclave never passes as one made under this enclave's key.
   */
  ghost predicate ReportKeysSeparate(p: Platform)
  {
    forall t: Targetinfo, k: Bytes32, m: seq<byte> | t != SetTargetinfoFromSelfIdentity(p) ::
      p.cmac(p.reportKey(t, k), m) != p.cmac(p.reportKey(SetTargetinfoFromSelfIdentity(p), k), m)
  }

  /** A REPORT this enclave's processor makes for this enclave verifies, whatever its REPORTDATA. */
  lemma SelfTargetedReportVerifies(p: Platform, reportdata: Bytes64)
    ensures VerifyHardwareReport(p, GetHardwareReport(p, SetTargetinfoFromSelfIdentity(p), reportdata))
  {
  }

  /** A REPORT made for any other enclave does not verify here. */
  lemma ForeignTargetedReportFails(p: Platform, target: Targetinfo, reportdata: Bytes64)
    requires ReportKeysSeparate(p)
    requires target != SetTargetinfoFromSelfIdentity(p)
    ensures !VerifyHardwareReport(p, GetHardwareReport(p, target, reportdata))
  {
  }

  /** A REPORT this processor makes carries this enclave's identity, whatever its target and REPORTDATA. */
  lemma HardwareReportCarriesSelfIdentity(p: Platform, target: Targetinfo, reportdata: Bytes64)
    ensures ParseIdentityFromHardwareReport(GetHardwareReport(p, target, reportdata).body) == GetSelfIdentity(p)
  {
  }
}
