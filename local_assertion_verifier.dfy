/**
 * The SGX local assertion verifier: it is initialised once with this enclave's
 * local attestation domain, negotiates with assertion generators through
 * offers and requests, and verifies local assertions, each of which carries an
 * SGX REPORT targeted at this enclave and bound to caller-supplied user data.
 */
module LocalAssertion {
  import opened Bytes
  import opened Wrappers
  import Wire
  import SgxReport
  import Hardware

  datatype EnclaveIdentityType = UnknownIdentity | NullIdentity | CodeIdentity | CertIdentity

  /** The authority type of SGX local assertions. */
  const SgxLocalAssertionAuthority: string := "SGX Local"
  /** The authority type of the SGX code identities that verification produces. */
  const SgxAuthorizationAuthority: string := "SGX"

  datatype AssertionDescription = AssertionDescription(identityType: EnclaveIdentityType, authorityType: string)
  datatype AssertionOffer = AssertionOffer(description: AssertionDescription, additionalInformation: seq<byte>)
  datatype AssertionRequest = AssertionRequest(description: AssertionDescription, additionalInformation: seq<byte>)
  datatype Assertion = Assertion(description: AssertionDescription, assertion: seq<byte>)

  datatype EnclaveIdentityDescription = EnclaveIdentityDescription(identityType: EnclaveIdentityType, authorityType: string)
  /** A verified identity: its description and, as its payload, the peer's CodeIdentity. */
  datatype EnclaveIdentity = EnclaveIdentity(description: EnclaveIdentityDescription, identity: SgxReport.CodeIdentity)

  datatype ErrorKind =
    | AlreadyInitialized
    | NotInitialized
    | MissingConfiguration
    | MalformedOffer
    | IncompatibleDescription
    | MalformedAssertion
    | MalformedReport
    | UnverifiableReport
    | UnboundAssertion

  datatype Status = OkStatus | Failure(kind: ErrorKind)
  datatype StatusOr<T> = Success(value: T) | Failed(kind: ErrorKind)

  /** The description of the assertions this verifier handles. */
  function LocalDescription(): (d: AssertionDescription)
    ensures d.identityType == CodeIdentity && d.authorityType == SgxLocalAssertionAuthority
    ensures d.authorityType != SgxAuthorizationAuthority
  {
    AssertionDescription(CodeIdentity, SgxLocalAssertionAuthority)
  }

  /** Two descriptions match exactly when both their identity types and their authority types are equal. */
  predicate IsCompatibleAssertionDescription(d: AssertionDescription): (b: bool)
    ensures b <==> d.identityType == CodeIdentity && d.authorityType == SgxLocalAssertionAuthority
  {
    d == LocalDescription()
  }

  /** The REPORT inside an assertion: the LocalAssertion parsed from the assertion bytes, then its report field. */
  function EmbeddedReport(a: Assertion): Option<SgxReport.Report>
  {
    match Wire.ParseField(a.assertion)
    case None => None
    case Some(report) => SgxReport.ParseReport(report)
  }

  /** The REPORTDATA of a REPORT bound to data with the given SHA-256 digest: the digest followed by 32 zero bytes. */
  function ExpectedReportdata(digest: Bytes32): Bytes64
  {
    digest + Zeros(32)
  }

  /** The REPORT is cryptographically bound to `userData`. */
  predicate BoundToUserData(p: Hardware.Platform, report: SgxReport.Report, userData: seq<byte>)
  {
    report.body.reportdata == ExpectedReportdata(p.sha256(userData))
  }

  /** Every check of Verify after the lifecycle check passes. */
  predicate Accepted(p: Hardware.Platform, userData: seq<byte>, a: Assertion)
  {
    && IsCompatibleAssertionDescription(a.description)
    && EmbeddedReport(a).Some?
    && Hardware.VerifyHardwareReport(p, EmbeddedReport(a).value)
    && BoundToUserData(p, EmbeddedReport(a).value, userData)
  }

  /** The identity Verify reports for a peer whose REPORT passed every check. */
  function PeerIdentity(report: SgxReport.Report): EnclaveIdentity
  {
    EnclaveIdentity(EnclaveIdentityDescription(CodeIdentity, SgxAuthorizationAuthority),
                    SgxReport.ParseIdentityFromHardwareReport(report.body))
  }

  /** A REPORTDATA is the expected one exactly when it starts with the digest and is zero after it. */
  lemma ExpectedReportdataIff(digest: Bytes32, reportdata: Bytes64)
    ensures reportdata == ExpectedReportdata(digest) <==>
      reportdata[..32] == digest && forall i | 32 <= i < 64 :: reportdata[i] == 0
  {
    var e := ExpectedReportdata(digest);
    assert e[..32] == digest;
    if reportdata[..32] == digest && forall i | 32 <= i < 64 :: reportdata[i] == 0 {
      assert forall i | 0 <= i < 64 :: reportdata[i] == e[i] by {
        forall i | 0 <= i < 64 ensures reportdata[i] == e[i] {
          if i < 32 { assert reportdata[..32][i] == reportdata[i]; }
        }
      }
    }
  }

  /**
   * An accepted assertion carries a REPORT that verifies against this enclave
   * and whose REPORTDATA is the digest of the user data followed by zeros.
   */
  lemma AcceptedMeansAuthenticAndBound(p: Hardware.Platform, userData: seq<byte>, a: Assertion)
    requires Accepted(p, userData, a)
    ensures EmbeddedReport(a).Some?
    ensures Hardware.VerifyHardwareReport(p, EmbeddedReport(a).value)
    ensures EmbeddedReport(a).value.body.reportdata[..32] == p.sha256(userData)
    ensures forall i | 32 <= i < 64 :: EmbeddedReport(a).value.body.reportdata[i] == 0
  {
    ExpectedReportdataIff(p.sha256(userData), EmbeddedReport(a).value.body.reportdata);
  }

  /**
   * An assertion is bound to one user data up to its digest: the same assertion
   * is never accepted for user data with a different SHA-256 digest.
   */
  lemma BindingSeparatesUserData(p: Hardware.Platform, userData: seq<byte>, other: seq<byte>, a: Assertion)
    requires Accepted(p, userData, a)
    requires p.sha256(userData) != p.sha256(other)
    ensures !Accepted(p, other, a)
  {
    var rd := EmbeddedReport(a).value.body.reportdata;
    ExpectedReportdataIff(p.sha256(userData), rd);
    ExpectedReportdataIff(p.sha256(other), rd);
  }

  class LocalAssertionVerifier {
    /** The local attestation domain; None while the verifier is not initialised. */
    var attestationDomain: Option<seq<byte>>

    /** An initialised verifier's domain is never empty. */
    ghost predicate Valid()
      reads this
    {
      attestationDomain.Some? ==> |attestationDomain.value| > 0
    }

    constructor()
      ensures Valid() && attestationDomain == None
    {
      attestationDomain := None;
    }

    /** The identity type this verifier handles, available before initialisation. */
    function IdentityType(): (t: EnclaveIdentityType)
      ensures t == LocalDescription().identityType
    {
      CodeIdentity
    }

    /**
     * The authority type this verifier handles, available before initialisation;
     * it differs from the authority of the identities Verify produces.
     */
    function AuthorityType(): (a: string)
      ensures a == LocalDescription().authorityType
      ensures a != SgxAuthorizationAuthority
    {
      SgxLocalAssertionAuthority
    }

    predicate IsInitialized(): (b: bool)
      reads this
      ensures b <==> attestationDomain != None
      ensures b && Valid() ==> attestationDomain.value != []
    {
      attestationDomain.Some?
    }

    /**
     * Initialises the verifier from the enclave's configured local attestation
     * domain (None when the configuration has none). Succeeds at most once.
     */
    method Initialize(configuredDomain: Option<seq<byte>>) returns (status: Status)
      requires Valid()
      modifies this
      ensures Valid()
      ensures old(IsInitialized()) ==> status == Failure(AlreadyInitialized) && attestationDomain == old(attestationDomain)
      ensures !old(IsInitialized()) && (configuredDomain.None? || configuredDomain.value == []) ==>
        status == Failure(MissingConfiguration) && attestationDomain == None
      ensures !old(IsInitialized()) && configuredDomain.Some? && configuredDomain.value != [] ==>
        status == OkStatus && attestationDomain == configuredDomain
    {
      if IsInitialized() {
        return Failure(AlreadyInitialized);
      }
      if configuredDomain.None? || configuredDomain.value == [] {
        return Failure(MissingConfiguration);
      }
      attestationDomain := configuredDomain;
      status := OkStatus;
    }

    /**
     * Fills `request` with this verifier's description and its domain; the
     * request comes back as it was when the verifier is not initialised.
     */
    method CreateAssertionRequest(request: AssertionRequest) returns (status: Status, filled: AssertionRequest)
      ensures !IsInitialized() ==> status == Failure(NotInitialized) && filled == request
      ensures IsInitialized() ==> status == OkStatus
      ensures IsInitialized() ==> filled.description == AssertionDescription(IdentityType(), AuthorityType())
      ensures IsInitialized() ==> Wire.ParseField(filled.additionalInformation) == attestationDomain
      ensures IsInitialized() ==> |filled.additionalInformation| > 0
    {
      if !IsInitialized() {
        return Failure(NotInitialized), request;
      }
      var additionalInformation := Wire.SerializeField(attestationDomain.value);
      Wire.ParseSerializeField(attestationDomain.value);
      status, filled := OkStatus, AssertionRequest(LocalDescription(), additionalInformation);
    }

    /**
     * Whether this verifier can verify assertions described by `offer`: an
     * error for an uninitialised verifier, a foreign description or unparseable
     * additional information, and otherwise whether the offer's domain is this
     * verifier's domain.
     */
    function CanVerify(offer: AssertionOffer): (r: StatusOr<bool>)
      reads this
      ensures !IsInitialized() ==> r == Failed(NotInitialized)
      ensures IsInitialized() && !IsCompatibleAssertionDescription(offer.description) ==> r == Failed(IncompatibleDescription)
      ensures (IsInitialized() && IsCompatibleAssertionDescription(offer.description) &&
               Wire.ParseField(offer.additionalInformation).None?) ==>
        r == Failed(MalformedOffer)
      ensures r == Success(true) <==>
        IsInitialized() && IsCompatibleAssertionDescription(offer.description) && Wire.ParseField(offer.additionalInformation) == attestationDomain
      ensures r == Success(false) <==>
        IsInitialized() && IsCompatibleAssertionDescription(offer.description) &&
        Wire.ParseField(offer.additionalInformation).Some? && Wire.ParseField(offer.additionalInformation) != attestationDomain
    {
      if !IsInitialized() then Failed(NotInitialized)
      else if !IsCompatibleAssertionDescription(offer.description) then Failed(IncompatibleDescription)
      else match Wire.ParseField(offer.additionalInformation)
        case None => Failed(MalformedOffer)
        case Some(domain) => Success(domain == attestationDomain.value)
    }

    /**
     * Verifies that `assertion` is a local assertion by an enclave on this
     * processor, targeted at this enclave and bound to `userData`. On success the
     * peer's identity is written to the output; on failure the output is
     * `identity` unchanged.
     */
    method Verify(p: Hardware.Platform, userData: seq<byte>, assertion: Assertion, identity: EnclaveIdentity)
      returns (status: Status, peer: EnclaveIdentity)
      ensures status == OkStatus <==> IsInitialized() && Accepted(p, userData, assertion)
      ensures status == OkStatus ==> peer == PeerIdentity(EmbeddedReport(assertion).value)
      ensures status != OkStatus ==> peer == identity
      ensures !IsInitialized() ==> status == Failure(NotInitialized)
      ensures IsInitialized() && !IsCompatibleAssertionDescription(assertion.description) ==>
        status == Failure(IncompatibleDescription)
      ensures (IsInitialized() && IsCompatibleAssertionDescription(assertion.description) &&
               Wire.ParseField(assertion.assertion).None?) ==>
        status == Failure(MalformedAssertion)
      ensures (IsInitialized() && IsCompatibleAssertionDescription(assertion.description) &&
               Wire.ParseField(assertion.assertion).Some? && EmbeddedReport(assertion).None?) ==>
        status == Failure(MalformedReport)
      ensures (IsInitialized() && IsCompatibleAssertionDescription(assertion.description) && EmbeddedReport(assertion).Some? &&
               !Hardware.VerifyHardwareReport(p, EmbeddedReport(assertion).value)) ==>
        status == Failure(UnverifiableReport)
      ensures (IsInitialized() && IsCompatibleAssertionDescription(assertion.description) && EmbeddedReport(assertion).Some? &&
               Hardware.VerifyHardwareReport(p, EmbeddedReport(assertion).value) &&
               !BoundToUserData(p, EmbeddedReport(assertion).value, userData)) ==>
        status == Failure(UnboundAssertion)
    {
      peer := identity;
      if !IsInitialized() {
        return Failure(NotInitialized), peer;
      }
      if !IsCompatibleAssertionDescription(assertion.description) {
        return Failure(IncompatibleDescription), peer;
      }
      var localAssertion := Wire.ParseField(assertion.assertion);
      if localAssertion.None? {
        return Failure(MalformedAssertion), peer;
      }
      var report := SgxReport.ParseReport(localAssertion.value);
      if report.None? {
        return Failure(MalformedReport), peer;
      }
      if !Hardware.VerifyHardwareReport(p, report.value) {
        return Failure(UnverifiableReport), peer;
      }
      var expectedReportdata := ExpectedReportdata(p.sha256(userData));
      if expectedReportdata != report.value.body.reportdata {
        return Failure(UnboundAssertion), peer;
      }
      status, peer := OkStatus, PeerIdentity(report.value);
    }
  }
}
