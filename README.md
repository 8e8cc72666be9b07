# SGX local assertion verifier

A Dafny model of Asylo's SGX local assertion verifier, `LocalAssertionVerifier`,
as its test suite `asylo/identity/sgx/local_assertion_verifier_test.cc` pins it
down. The verifier checks assertions made by another enclave on the same
processor:

- **Lifecycle.** It starts uninitialised. `Initialize` stores the enclave's
  configured local attestation domain. It succeeds at most once and fails
  when the configuration has no domain.
- **Negotiation.** `CreateAssertionRequest` fills a request with the
  description `{CODE_IDENTITY, "SGX Local"}` and the serialized domain.
  `CanVerify(offer)` gives an error for a foreign description or unparseable
  additional information. Otherwise it answers whether the offer's domain is
  byte-for-byte the verifier's own.
- **Verification.** `Verify(user_data, assertion, &identity)` runs an ordered
  chain of checks:
  1. the verifier is initialised;
  2. the description matches;
  3. the assertion bytes parse as a `LocalAssertion`;
  4. its report has the size of an SGX REPORT;
  5. the REPORT's MAC verifies under this enclave's own report key;
  6. REPORTDATA is SHA-256(user_data) followed by 32 zero bytes.

  On success it writes the peer's `CodeIdentity` under the authority `"SGX"`.
  On failure it leaves the output alone.

The implementation file of the verifier is not part of this model. The model
follows the tests and the contract they exercise.

Files:

- `bytes.dfy` has bytes, fixed-size byte strings and little-endian integers.
- `wrappers.dfy` has `Option`.
- `wire.dfy` is the Protocol Buffers encoding of a message with one
  length-delimited field number 1. That covers `LocalAssertionOfferAdditionalInfo`,
  `LocalAssertionRequestAdditionalInfo` and `LocalAssertion`.
- `sgx_report.dfy` has the 432-byte REPORT layout of the Intel SDM (a
  384-byte REPORTBODY, then KEYID, then MAC) and the `CodeIdentity` read out
  of a REPORTBODY.
- `hardware.dfy` models the processor as a `Platform`: a record of function
  values for SHA-256, report-key derivation and CMAC, plus this enclave's own
  REPORTBODY and the current KEYID. EREPORT (`GetHardwareReport`) MACs a
  body under the report key of the TARGETINFO it is given.
  `VerifyHardwareReport` checks the MAC under this enclave's own key.
- `local_assertion_verifier.dfy` has the messages, the `LocalAssertionVerifier`
  class and the verification predicates.
- `local_assertion_verifier_test.dfy` has one method per test case, with the
  fixture's message builders and the lemmas the cases rest on. Every method
  that needs a `Platform` takes it as a parameter, so each result holds for
  every hash, key derivation, MAC and self identity. The exceptions are
  `VerifyFailsIfReportIsUnverifiable` and `ForeignTargetedAssertionUnverifiable`.
  They also require `ReportKeysSeparate` (the report MAC is secure) and that
  the REPORT's target is not this enclave's own TARGETINFO.

I/O and external collaborators enter as parameters:
- the configuration, as `Initialize`'s `Option<seq<byte>>` argument;
- the hash, the processor and the self identity, as the `Platform`.

The authority strings `"SGX Local"` and `"SGX"` are the values of Asylo's
`code_identity_constants.h`, which is not part of this model. The proofs only
need the two to be different.

Two choices the tests leave open:
- `CanVerify` checks the description before parsing the additional
  information. The tests cannot tell the orders apart, because each failing
  case has only one defect.
- `Initialize` treats an empty domain like a missing one. The tests exercise
  only the missing one (lines 131-138).

## Model

| member | source | states |
|---|---|---|
| Wire.ParseSerializeField | asylo/identity/sgx/local_assertion_verifier_test.cc:89-94 | parsing the serialized single-field message gives back exactly the field's value (the round trip behind MakeAssertionOffer and the request's additional info) |
| Wire.ParseVarintOfVarint | asylo/identity/sgx/local_assertion_verifier_test.cc:93-94 | the length prefix written by serialization reads back as the same number and consumes exactly its own bytes |
| SgxReport.ParseReport | asylo/identity/sgx/local_assertion_verifier_test.cc:264-277 | a byte string is a REPORT exactly when it is 432 bytes long, and the REPORT read re-encodes to the same bytes |
| SgxReport.ParseEncodeReport | asylo/identity/sgx/local_assertion_verifier_test.cc:354-359 | the bytes of a REPORT placed in a LocalAssertion read back as that same REPORT |
| SgxReport.ParseIdentityFromHardwareReport | asylo/identity/sgx/local_assertion_verifier_test.cc:368-373 | the extracted CodeIdentity carries MRENCLAVE and MRSIGNER verbatim and ISVPRODID, ISVSVN, MISCSELECT and ATTRIBUTES as integers of their field widths |
| SgxReport.IdentityIgnoresReportdata | asylo/identity/sgx/local_assertion_verifier_test.cc:371-373 | the extracted identity does not depend on REPORTDATA |
| Hardware.SelfTargetedReportVerifies | asylo/identity/sgx/local_assertion_verifier_test.cc:351-355 | a REPORT generated for this enclave's own TARGETINFO passes the hardware check `VerifyHardwareReport` (its MAC is the CMAC of its body under this enclave's report key) whatever its REPORTDATA |
| Hardware.ForeignTargetedReportFails | asylo/identity/sgx/local_assertion_verifier_test.cc:293-298 | under the report-MAC security assumption, a REPORT generated for any other TARGETINFO fails the hardware check `VerifyHardwareReport`, as step 5 of Verify requires |
| Hardware.HardwareReportCarriesSelfIdentity | asylo/identity/sgx/local_assertion_verifier_test.cc:371-373 | every REPORT the processor generates here yields this enclave's own CodeIdentity |
| LocalAssertion.LocalDescription | asylo/identity/sgx/local_assertion_verifier_test.cc:66-71 | the description the verifier handles is {CODE_IDENTITY, SGX Local}, whose authority differs from the authority of verified identities |
| LocalAssertion.IsCompatibleAssertionDescription | asylo/identity/sgx/local_assertion_verifier_test.cc:202-211 | a description matches exactly when both its identity type and its authority type equal the verifier's |
| LocalAssertion.LocalAssertionVerifier.IdentityType | asylo/identity/sgx/local_assertion_verifier_test.cc:112-115 | the identity type is the one in the verifier's description, with no dependence on initialisation |
| LocalAssertion.LocalAssertionVerifier.AuthorityType | asylo/identity/sgx/local_assertion_verifier_test.cc:117-120 | the authority type is the one in the verifier's description and differs from the authorization authority; no dependence on initialisation |
| LocalAssertion.LocalAssertionVerifier.IsInitialized | asylo/identity/sgx/local_assertion_verifier_test.cc:142-147 | true exactly when a domain is stored, and then that domain is non-empty |
| LocalAssertionVerifierTest.MakeAssertionOffer | asylo/identity/sgx/local_assertion_verifier_test.cc:85-95 | the offer has the verifier's own description and additional info that parses back to exactly the given domain |
| Hardware.GetHardwareReport | asylo/identity/sgx/local_assertion_verifier_test.cc:293-298 | the REPORT carries the given REPORTDATA and this enclave's self identity; it passes `VerifyHardwareReport` when targeted at this enclave, and under the report-MAC security assumption fails it when targeted at any other TARGETINFO |
| Hardware.SetTargetinfoFromSelfIdentity | asylo/identity/sgx/local_assertion_verifier_test.cc:322-323 | the TARGETINFO names this enclave: its measurement, MISCSELECT and attributes decode to the MRENCLAVE, MISCSELECT and attributes of the self identity |
| Hardware.GetSelfIdentity | asylo/identity/sgx/local_assertion_verifier_test.cc:371 | the self identity carries this enclave's MRENCLAVE and MRSIGNER |
| LocalAssertion.ExpectedReportdataIff | asylo/identity/sgx/local_assertion_verifier_test.cc:345-349 | a REPORTDATA is the expected one exactly when its first 32 bytes are the digest and bytes 32 to 63 are zero |
| LocalAssertion.AcceptedMeansAuthenticAndBound | asylo/identity/sgx/local_assertion_verifier_test.cc:338-362 | an accepted assertion holds a REPORT that verifies against this enclave and whose REPORTDATA is SHA-256(user data) in bytes 0..31 and zero after |
| LocalAssertion.BindingSeparatesUserData | asylo/identity/sgx/local_assertion_verifier_test.cc:310-334 | an assertion accepted for some user data is rejected for any user data with a different digest |
| LocalAssertion.LocalAssertionVerifier.constructor | asylo/identity/sgx/local_assertion_verifier_test.cc:142-144 | a new verifier is not initialised |
| LocalAssertion.LocalAssertionVerifier.Initialize | asylo/identity/sgx/local_assertion_verifier_test.cc:123-147 | the first call with a configured domain succeeds and stores it; a call on an initialised verifier fails and changes nothing; a missing or empty domain fails and leaves the verifier uninitialised |
| LocalAssertion.LocalAssertionVerifier.CreateAssertionRequest | asylo/identity/sgx/local_assertion_verifier_test.cc:151-178 | fails without touching the request when uninitialised; otherwise succeeds with description {CODE_IDENTITY, SGX Local} and non-empty additional info that parses back to exactly the configured domain |
| LocalAssertion.LocalAssertionVerifier.CanVerify | asylo/identity/sgx/local_assertion_verifier_test.cc:181-226 | error when uninitialised, for a foreign description and for unparseable additional info; otherwise Ok(true) exactly when the parsed domain equals the configured domain and Ok(false) exactly when it differs |
| LocalAssertion.LocalAssertionVerifier.Verify | asylo/identity/sgx/local_assertion_verifier_test.cc:229-377 | succeeds exactly when initialised and every check passes, writing the peer identity derived from the REPORT; each failed check gives its own error and leaves the output unchanged |
| LocalAssertionVerifierTest.ReportdataWithDigestIsExpected | asylo/identity/sgx/local_assertion_verifier_test.cc:345-349 | the REPORTDATA the tests build (zero object with the hash written at position 0) is the verifier's expected REPORTDATA |
| LocalAssertionVerifierTest.CanVerifyMatchesDomainExactly | asylo/identity/sgx/local_assertion_verifier_test.cc:85-95 | for an offer built by MakeAssertionOffer, CanVerify answers Ok(d == configured domain) for every domain d |
| LocalAssertionVerifierTest.EmbeddedReportOfLocalAssertion | asylo/identity/sgx/local_assertion_verifier_test.cc:356-359 | an assertion wrapping a REPORT in a LocalAssertion yields that REPORT back |
| LocalAssertionVerifierTest.SelfTargetedAssertionAccepted | asylo/identity/sgx/local_assertion_verifier_test.cc:338-362 | the assertion of a self-targeted REPORT bound to any user data is accepted for that user data and yields this enclave's own identity |
| LocalAssertionVerifierTest.ForeignTargetedAssertionUnverifiable | asylo/identity/sgx/local_assertion_verifier_test.cc:280-306 | the assertion of a REPORT targeted at another enclave parses but fails the hardware check |
| LocalAssertionVerifierTest.UnboundAssertionRejected | asylo/identity/sgx/local_assertion_verifier_test.cc:310-334 | a self-targeted REPORT with any REPORTDATA other than the expected one passes the hardware check and fails the binding check |
| LocalAssertionVerifierTest.IdentityType | asylo/identity/sgx/local_assertion_verifier_test.cc:112-115 | an uninitialised verifier's identity type is CODE_IDENTITY |
| LocalAssertionVerifierTest.AuthorityType | asylo/identity/sgx/local_assertion_verifier_test.cc:117-120 | an uninitialised verifier's authority type is the SGX local assertion authority |
| LocalAssertionVerifierTest.InitializeSucceedsOnce | asylo/identity/sgx/local_assertion_verifier_test.cc:123-127 | the first Initialize succeeds and the second fails with AlreadyInitialized |
| LocalAssertionVerifierTest.InitializeFailsMissingAttestationDomain | asylo/identity/sgx/local_assertion_verifier_test.cc:131-138 | Initialize without a configured domain fails and the verifier stays uninitialised |
| LocalAssertionVerifierTest.IsInitializedBeforeAfterInitialization | asylo/identity/sgx/local_assertion_verifier_test.cc:142-147 | IsInitialized is false before and true after a successful Initialize |
| LocalAssertionVerifierTest.CreateAssertionRequestFailsIfNotInitialized | asylo/identity/sgx/local_assertion_verifier_test.cc:151-157 | CreateAssertionRequest on an uninitialised verifier fails with NotInitialized |
| LocalAssertionVerifierTest.CreateAssertionRequestSuccess | asylo/identity/sgx/local_assertion_verifier_test.cc:162-178 | after Initialize the request has description {CODE_IDENTITY, SGX Local} and additional info that parses to domain 1 |
| LocalAssertionVerifierTest.CanVerifyFailsIfNotInitialized | asylo/identity/sgx/local_assertion_verifier_test.cc:181-187 | CanVerify on an uninitialised verifier fails with NotInitialized |
| LocalAssertionVerifierTest.CanVerifyFailsIfUnparseableAssertionOffer | asylo/identity/sgx/local_assertion_verifier_test.cc:190-198 | the additional info "Invalid additional info" does not parse, and CanVerify fails with MalformedOffer |
| LocalAssertionVerifierTest.CanVerifyFailsIfIncompatibleAssertionDescription | asylo/identity/sgx/local_assertion_verifier_test.cc:202-211 | an offer described as {UNKNOWN_IDENTITY, Foobar Assertion Authority} fails with IncompatibleDescription |
| LocalAssertionVerifierTest.CanVerifyFailsIfNonMatchingLocalAttestationDomain | asylo/identity/sgx/local_assertion_verifier_test.cc:215-226 | a well-formed offer for domain 2 gives Ok(false) on a verifier configured with domain 1 |
| LocalAssertionVerifierTest.VerifyFailsIfNotInitialized | asylo/identity/sgx/local_assertion_verifier_test.cc:229-235 | Verify on an uninitialised verifier fails with NotInitialized and leaves the identity as it was |
| LocalAssertionVerifierTest.VerifyFailsIfIncompatibleAssertionDescription | asylo/identity/sgx/local_assertion_verifier_test.cc:239-249 | an assertion with a foreign description fails with IncompatibleDescription |
| LocalAssertionVerifierTest.VerifyFailsIfUnparseableAssertion | asylo/identity/sgx/local_assertion_verifier_test.cc:252-261 | the assertion bytes "Invalid local assertion" do not parse, and Verify fails with MalformedAssertion |
| LocalAssertionVerifierTest.VerifyFailsIfReportMalformed | asylo/identity/sgx/local_assertion_verifier_test.cc:264-277 | a LocalAssertion whose report is "Invalid report" fails with MalformedReport |
| LocalAssertionVerifierTest.VerifyFailsIfReportIsUnverifiable | asylo/identity/sgx/local_assertion_verifier_test.cc:280-306 | on any platform whose report MAC is secure and whose own TARGETINFO is not all zero, a REPORT for the zero TARGETINFO bound to the user data fails with UnverifiableReport |
| LocalAssertionVerifierTest.VerifyFailsIfAssertionIsNotBoundToUserData | asylo/identity/sgx/local_assertion_verifier_test.cc:310-334 | a self-targeted REPORT with any REPORTDATA other than the expected one fails with UnboundAssertion |
| LocalAssertionVerifierTest.VerifySuccess | asylo/identity/sgx/local_assertion_verifier_test.cc:338-377 | on every platform, a self-targeted REPORT bound to "User data" verifies, and the identity is {CODE_IDENTITY, SGX} with payload the enclave's own CodeIdentity |

## Left out

- The `VerifierFoundInStaticMap` test (lines 103-110) is not modelled. The global `AssertionVerifierMap` registry is a separate concern from verification.
- The mutex around `Initialize` is not modelled. The model has sequential semantics only; concurrent callers are out of scope.
- `SetEnclaveConfig` and the global configuration are not modelled. The configured domain is `Initialize`'s argument. The `config` string the tests pass (always empty) is not consulted and is omitted.
- SHA-256, report-key derivation and AES-CMAC are not modelled as cryptography. They are function values of the `Platform`. That a MAC made under another enclave's key never passes is a stated premise (`ReportKeysSeparate`), not a proof.
- TARGETINFO is a record of the three fields that name an enclave (MRENCLAVE, ATTRIBUTES, MISCSELECT). Its byte layout and reserved fields are not modelled, because no test serializes one.
- `GetHardwareReport` (EREPORT) is total in the model. The failure the test's `ASSERT_TRUE` guards against is not modelled.
- Report-key derivation takes only the target and the KEYID. The other EGETKEY inputs, such as CPUSVN and the owner epoch, are not modelled.
- Wire.ParseField accepts only the empty message or exactly one field-1 record spanning the input. Real protobuf parsing also skips unknown fields and merges repeated ones, so on those the model is stricter. Real protobuf also caps varints at ten bytes and lengths at 2 GiB; `Wire.ParseVarint` and `Wire.ParseField` have no such caps, so on those the model is looser. Neither difference affects any test input.
- The peer's `CodeIdentity` reaches `EnclaveIdentity` as a parsed record, not as serialized bytes. The protobuf encoding of `CodeIdentity` is not modelled; the test parses it back before comparing (lines 368-373).
- The errors are kinds (`NotInitialized`, `MalformedReport`, ...), not Asylo's status codes. The implementation's codes are not part of this model, and the tests check only failure.
- `asylo/platform/posix/src/signal.cc` is not modelled. It is host signal plumbing through the untrusted runtime, not part of the verifier.
