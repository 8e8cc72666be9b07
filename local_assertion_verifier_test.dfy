/**
 * The behaviour the verifier's test suite demands, one method per test case,
 * together with the fixture's message builders and the general lemmas about
 * them that the test cases rely on. The methods quantify over every Platform,
 * that is, every hash, report-key derivation, CMAC and self identity, except
 * where a requires clause states an assumption about the report MAC.
 */
module LocalAssertionVerifierTest {
  import opened Bytes
  import opened Wrappers
  import opened LocalAssertion
  import Wire
  import SgxReport
  import Hardware

  function LocalAttestationDomain1(): seq<byte> { Ascii("A 16-byte string") }
  function LocalAttestationDomain2(): seq<byte> { Ascii("A superb std::string!") }
  const BadAuthority: string := "Foobar Assertion Authority"
  function BadAdditionalInfo(): seq<byte> { Ascii("Invalid additional info") }
  function BadLocalAssertion(): seq<byte> { Ascii("Invalid local assertion") }
  function BadReport(): seq<byte> { Ascii("Invalid report") }
  function UserData(): seq<byte> { Ascii("User data") }

  /** The enclave configuration the fixture installs: local attestation domain 1. */
  function ConfiguredDomain(): Option<seq<byte>> { Some(LocalAttestationDomain1()) }

  /** Default-constructed messages. */
  function EmptyDescription(): AssertionDescription { AssertionDescription(UnknownIdentity, "") }
  function EmptyRequest(): AssertionRequest { AssertionRequest(EmptyDescription(), []) }
  function EmptyOffer(): AssertionOffer { AssertionOffer(EmptyDescription(), []) }
  function EmptyAssertion(): Assertion { Assertion(EmptyDescription(), []) }
  function EmptyIdentity(): EnclaveIdentity
  {
    EnclaveIdentity(
      EnclaveIdentityDescription(UnknownIdentity, ""),
      SgxReport.CodeIdentity([], SgxReport.SignerAssignedIdentity([], 0, 0), 0, SgxReport.Attributes(0, 0)))
  }

  /** An offer for the SGX local assertion verifier in the given domain. */
  function MakeAssertionOffer(domain: seq<byte>): (offer: AssertionOffer)
    ensures IsCompatibleAssertionDescription(offer.description)
    ensures Wire.ParseField(offer.additionalInformation) == Some(domain)
  {
    Wire.ParseSerializeField(domain);
    AssertionOffer(LocalDescription(), Wire.SerializeField(domain))
  }

  /** The assertion an SGX local assertion generator makes from a REPORT. */
  function MakeLocalAssertion(report: SgxReport.Report): Assertion
  {
    Assertion(LocalDescription(), Wire.SerializeField(SgxReport.EncodeReport(report)))
  }

  /** A zero REPORTDATA with `digest` written over its first bytes, as `replace(/*pos=*/0, digest)` does. */
  function ReportdataWithDigest(digest: Bytes32): Bytes64
  {
    digest + Zeros(64)[32..]
  }

  /** The REPORTDATA the tests build for a digest is the one the verifier expects. */
  lemma ReportdataWithDigestIsExpected(digest: Bytes32)
    ensures ReportdataWithDigest(digest) == ExpectedReportdata(digest)
  {
    assert Zeros(64)[32..] == Zeros(32);
  }

  /** An offer built by the fixture is answered by exact equality of domains. */
  lemma CanVerifyMatchesDomainExactly(verifier: LocalAssertionVerifier, domain: seq<byte>)
    requires verifier.IsInitialized()
    ensures verifier.CanVerify(MakeAssertionOffer(domain)) == Success(domain == verifier.attestationDomain.value)
  {
    Wire.ParseSerializeField(domain);
  }

  /** The assertion wrapping a REPORT yields that REPORT back. */
  lemma EmbeddedReportOfLocalAssertion(report: SgxReport.Report)
    ensures EmbeddedReport(MakeLocalAssertion(report)) == Some(report)
  {
    Wire.ParseSerializeField(SgxReport.EncodeReport(report));
    SgxReport.ParseEncodeReport(report);
  }

  /**
   * An assertion made from a REPORT that this enclave's processor generated for
   * this enclave, bound to `userData`, is accepted for `userData`, and the
   * identity it yields is this enclave's own.
   */
  lemma SelfTargetedAssertionAccepted(p: Hardware.Platform, userData: seq<byte>)
    ensures var report := Hardware.GetHardwareReport(p, Hardware.SetTargetinfoFromSelfIdentity(p), ExpectedReportdata(p.sha256(userData)));
      && Accepted(p, userData, MakeLocalAssertion(report))
      && EmbeddedReport(MakeLocalAssertion(report)) == Some(report)
      && PeerIdentity(report).identity == Hardware.GetSelfIdentity(p)
  {
    var reportdata := ExpectedReportdata(p.sha256(userData));
    var report := Hardware.GetHardwareReport(p, Hardware.SetTargetinfoFromSelfIdentity(p), reportdata);
    EmbeddedReportOfLocalAssertion(report);
    Hardware.SelfTargetedReportVerifies(p, reportdata);
    Hardware.HardwareReportCarriesSelfIdentity(p, Hardware.SetTargetinfoFromSelfIdentity(p), reportdata);
  }

  /** A well-formed assertion whose REPORT names another enclave fails the REPORT check, whatever its REPORTDATA. */
  lemma ForeignTargetedAssertionUnverifiable(p: Hardware.Platform, target: Hardware.Targetinfo, reportdata: Bytes64)
    requires Hardware.ReportKeysSeparate(p)
    requires target != Hardware.SetTargetinfoFromSelfIdentity(p)
    ensures var report := Hardware.GetHardwareReport(p, target, reportdata);
      && EmbeddedReport(MakeLocalAssertion(report)) == Some(report)
      && !Hardware.VerifyHardwareReport(p, report)
  {
    EmbeddedReportOfLocalAssertion(Hardware.GetHardwareReport(p, target, reportdata));
    Hardware.ForeignTargetedReportFails(p, target, reportdata);
  }

  /** A self-targeted REPORT with any other REPORTDATA passes the REPORT check and fails the binding check. */
  lemma UnboundAssertionRejected(p: Hardware.Platform, userData: seq<byte>, reportdata: Bytes64)
    requires reportdata != ExpectedReportdata(p.sha256(userData))
    ensures var report := Hardware.GetHardwareReport(p, Hardware.SetTargetinfoFromSelfIdentity(p), reportdata);
      && EmbeddedReport(MakeLocalAssertion(report)) == Some(report)
      && Hardware.VerifyHardwareReport(p, report)
      && !BoundToUserData(p, report, userData)
  {
    EmbeddedReportOfLocalAssertion(Hardware.GetHardwareReport(p, Hardware.SetTargetinfoFromSelfIdentity(p), reportdata));
    Hardware.SelfTargetedReportVerifies(p, reportdata);
  }

  method IdentityType() returns (t: EnclaveIdentityType)
    ensures t == CodeIdentity
  {
    var verifier := new LocalAssertionVerifier();
    t := verifier.IdentityType();
  }

  method AuthorityType() returns (a: string)
    ensures a == SgxLocalAssertionAuthority
  {
    var verifier := new LocalAssertionVerifier();
    a := verifier.AuthorityType();
  }

  method InitializeSucceedsOnce() returns (first: Status, second: Status)
    ensures first == OkStatus
    ensures second == Failure(AlreadyInitialized)
  {
    var verifier := new LocalAssertionVerifier();
    first := verifier.Initialize(ConfiguredDomain());
    second := verifier.Initialize(ConfiguredDomain());
  }

  method InitializeFailsMissingAttestationDomain() returns (status: Status, initialized: bool)
    ensures status == Failure(MissingConfiguration)
    ensures !initialized
  {
    var verifier := new LocalAssertionVerifier();
    status := verifier.Initialize(None);
    initialized := verifier.IsInitialized();
  }

  method IsInitializedBeforeAfterInitialization() returns (before: bool, status: Status, after: bool)
    ensures !before && status == OkStatus && after
  {
    var verifier := new LocalAssertionVerifier();
    before := verifier.IsInitialized();
    status := verifier.Initialize(ConfiguredDomain());
    after := verifier.IsInitialized();
  }

  method CreateAssertionRequestFailsIfNotInitialized() returns (status: Status)
    ensures status == Failure(NotInitialized)
  {
    var verifier := new LocalAssertionVerifier();
    var request;
    status, request := verifier.CreateAssertionRequest(EmptyRequest());
  }

  method CreateAssertionRequestSuccess() returns (status: Status, request: AssertionRequest)
    ensures status == OkStatus
    ensures request.description.identityType == CodeIdentity
    ensures request.description.authorityType == SgxLocalAssertionAuthority
    ensures Wire.ParseField(request.additionalInformation) == Some(LocalAttestationDomain1())
  {
    var verifier := new LocalAssertionVerifier();
    var init := verifier.Initialize(ConfiguredDomain());
    status, request := verifier.CreateAssertionRequest(EmptyRequest());
  }

  method CanVerifyFailsIfNotInitialized() returns (result: StatusOr<bool>)
    ensures result == Failed(NotInitialized)
  {
    var verifier := new LocalAssertionVerifier();
    result := verifier.CanVerify(MakeAssertionOffer(LocalAttestationDomain1()));
  }

  method CanVerifyFailsIfUnparseableAssertionOffer() returns (result: StatusOr<bool>)
    ensures result == Failed(MalformedOffer)
  {
    var verifier := new LocalAssertionVerifier();
    var init := verifier.Initialize(ConfiguredDomain());
    var offer := AssertionOffer(LocalDescription(), BadAdditionalInfo());
    assert BadAdditionalInfo()[0] == 73;
    result := verifier.CanVerify(offer);
  }

  method CanVerifyFailsIfIncompatibleAssertionDescription() returns (result: StatusOr<bool>)
    ensures result == Failed(IncompatibleDescription)
  {
    var verifier := new LocalAssertionVerifier();
    var init := verifier.Initialize(ConfiguredDomain());
    var offer := EmptyOffer().(description := AssertionDescription(UnknownIdentity, BadAuthority));
    result := verifier.CanVerify(offer);
  }

  method CanVerifyFailsIfNonMatchingLocalAttestationDomain() returns (result: StatusOr<bool>)
    ensures result == Success(false)
  {
    var verifier := new LocalAssertionVerifier();
    var init := verifier.Initialize(ConfiguredDomain());
    CanVerifyMatchesDomainExactly(verifier, LocalAttestationDomain2());
    assert |LocalAttestationDomain2()| != |LocalAttestationDomain1()|;
    result := verifier.CanVerify(MakeAssertionOffer(LocalAttestationDomain2()));
  }

  method VerifyFailsIfNotInitialized(p: Hardware.Platform) returns (status: Status, identity: EnclaveIdentity)
    ensures status == Failure(NotInitialized)
    ensures identity == EmptyIdentity()
  {
    var verifier := new LocalAssertionVerifier();
    status, identity := verifier.Verify(p, UserData(), EmptyAssertion(), EmptyIdentity());
  }

  method VerifyFailsIfIncompatibleAssertionDescription(p: Hardware.Platform) returns (status: Status)
    ensures status == Failure(IncompatibleDescription)
  {
    var verifier := new LocalAssertionVerifier();
    var init := verifier.Initialize(ConfiguredDomain());
    var assertion := EmptyAssertion().(description := AssertionDescription(UnknownIdentity, BadAuthority));
    var identity;
    status, identity := verifier.Verify(p, UserData(), assertion, EmptyIdentity());
  }

  method VerifyFailsIfUnparseableAssertion(p: Hardware.Platform) returns (status: Status)
    ensures status == Failure(MalformedAssertion)
  {
    var verifier := new LocalAssertionVerifier();
    var init := verifier.Initialize(ConfiguredDomain());
    var assertion := Assertion(LocalDescription(), BadLocalAssertion());
    assert BadLocalAssertion()[0] == 73;
    var identity;
    status, identity := verifier.Verify(p, UserData(), assertion, EmptyIdentity());
  }

  method VerifyFailsIfReportMalformed(p: Hardware.Platform) returns (status: Status)
    ensures status == Failure(MalformedReport)
  {
    var verifier := new LocalAssertionVerifier();
    var init := verifier.Initialize(ConfiguredDomain());
    var assertion := Assertion(LocalDescription(), Wire.SerializeField(BadReport()));
    Wire.ParseSerializeField(BadReport());
    var identity;
    status, identity := verifier.Verify(p, UserData(), assertion, EmptyIdentity());
  }

  method VerifyFailsIfReportIsUnverifiable(p: Hardware.Platform) returns (status: Status)
    requires Hardware.ReportKeysSeparate(p)
    requires Hardware.ZeroTargetinfo() != Hardware.SetTargetinfoFromSelfIdentity(p)
    ensures status == Failure(UnverifiableReport)
  {
    var verifier := new LocalAssertionVerifier();
    var init := verifier.Initialize(ConfiguredDomain());
    var reportdata := ReportdataWithDigest(p.sha256(UserData()));
    var report := Hardware.GetHardwareReport(p, Hardware.ZeroTargetinfo(), reportdata);
    ForeignTargetedAssertionUnverifiable(p, Hardware.ZeroTargetinfo(), reportdata);
    var identity;
    status, identity := verifier.Verify(p, UserData(), MakeLocalAssertion(report), EmptyIdentity());
  }

  /** `reportdata` stands for the test's random REPORTDATA: any value but the one bound to the user data. */
  method VerifyFailsIfAssertionIsNotBoundToUserData(p: Hardware.Platform, reportdata: Bytes64) returns (status: Status)
    requires reportdata != ExpectedReportdata(p.sha256(UserData()))
    ensures status == Failure(UnboundAssertion)
  {
    var verifier := new LocalAssertionVerifier();
    var init := verifier.Initialize(ConfiguredDomain());
    var report := Hardware.GetHardwareReport(p, Hardware.SetTargetinfoFromSelfIdentity(p), reportdata);
    UnboundAssertionRejected(p, UserData(), reportdata);
    var identity;
    status, identity := verifier.Verify(p, UserData(), MakeLocalAssertion(report), EmptyIdentity());
  }

  method VerifySuccess(p: Hardware.Platform) returns (status: Status, identity: EnclaveIdentity)
    ensures status == OkStatus
    ensures identity.description == EnclaveIdentityDescription(CodeIdentity, SgxAuthorizationAuthority)
    ensures identity.identity == Hardware.GetSelfIdentity(p)
  {
    var verifier := new LocalAssertionVerifier();
    var init := verifier.Initialize(ConfiguredDomain());
    var reportdata := ReportdataWithDigest(p.sha256(UserData()));
    ReportdataWithDigestIsExpected(p.sha256(UserData()));
    var report := Hardware.GetHardwareReport(p, Hardware.SetTargetinfoFromSelfIdentity(p), reportdata);
    SelfTargetedAssertionAccepted(p, UserData());
    status, identity := verifier.Verify(p, UserData(), MakeLocalAssertion(report), EmptyIdentity());
  }
}
