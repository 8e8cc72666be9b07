/**
 * The SGX REPORT structure (Intel SDM, volume 3D, section 38.15 "REPORT"):
 * a 384-byte REPORTBODY, a 32-byte KEYID and a 16-byte MAC, and the
 * CodeIdentity record that the verifier derives from a REPORTBODY.
 */
module SgxReport {
  import opened Bytes
  import opened Wrappers

  const ReportBodySize: nat := 384
  const ReportSize: nat := 432

  /** The fields of REPORTBODY, in their order in memory. */
  datatype ReportBody = ReportBody(
    cpusvn: Bytes16,
    miscselect: Bytes4,
    reserved1: Bytes28,
    attributes: Bytes16,
    mrenclave: Bytes32,
    reserved2: Bytes32,
    mrsigner: Bytes32,
    reserved3: Bytes96,
    isvprodid: Bytes2,
    isvsvn: Bytes2,
    reserved4: Bytes60,
    reportdata: Bytes64)

  datatype Report = Report(body: ReportBody, keyid: Bytes32, mac: Bytes16)

  /** The bytes of a REPORTBODY: the input of the report MAC. */
  function EncodeBody(b: ReportBody): (s: seq<byte>)
    ensures |s| == ReportBodySize
  {
    b.cpusvn + b.miscselect + b.reserved1 + b.attributes + b.mrenclave + b.reserved2 +
    b.mrsigner + b.reserved3 + b.isvprodid + b.isvsvn + b.reserved4 + b.reportdata
  }

  function DecodeBody(s: seq<byte>): ReportBody
    requires |s| == ReportBodySize
  {
    ReportBody(s[0..16], s[16..20], s[20..48], s[48..64], s[64..96], s[96..128],
               s[128..160], s[160..256], s[256..258], s[258..260], s[260..320], s[320..384])
  }

  /** The bytes of a whole REPORT, as they are placed in a LocalAssertion. */
  function EncodeReport(r: Report): (s: seq<byte>)
    ensures |s| == ReportSize
  {
    EncodeBody(r.body) + r.keyid + r.mac
  }

  /**
   * Reads a REPORT out of a byte string. Any string of exactly the size of a
   * REPORT is accepted; every other size is malformed.
   */
  function ParseReport(s: seq<byte>): (r: Option<Report>)
    ensures r.Some? <==> |s| == ReportSize
    ensures r.Some? ==> EncodeReport(r.value) == s
  {
    if |s| != ReportSize then None
    else
      EncodeDecodeBody(s[..ReportBodySize]);
      assert s == s[..ReportBodySize] + s[ReportBodySize..416] + s[416..];
      Some(Report(DecodeBody(s[..ReportBodySize]), s[ReportBodySize..416], s[416..]))
  }

  lemma EncodeDecodeBody(s: seq<byte>)
    requires |s| == ReportBodySize
    ensures EncodeBody(DecodeBody(s)) == s
  {
    var b := DecodeBody(s);
    assert s[0..16] + s[16..20] + s[20..48] + s[48..64] + s[64..96] + s[96..128] == s[0..128];
    assert s[128..160] + s[160..256] + s[256..258] + s[258..260] + s[260..320] + s[320..384] == s[128..384];
    assert s == s[0..128] + s[128..384];
  }

  lemma DecodeEncodeBody(b: ReportBody)
    ensures DecodeBody(EncodeBody(b)) == b
  {
    var s := EncodeBody(b);
    var head := b.cpusvn + b.miscselect + b.reserved1 + b.attributes + b.mrenclave + b.reserved2;
    var tail := b.mrsigner + b.reserved3 + b.isvprodid + b.isvsvn + b.reserved4 + b.reportdata;
    assert s == head + tail;
    assert s[0..128] == head && s[128..384] == tail;
    assert head[0..16] == b.cpusvn && head[16..20] == b.miscselect && head[20..48] == b.reserved1;
    assert head[48..64] == b.attributes && head[64..96] == b.mrenclave && head[96..128] == b.reserved2;
    assert tail[0..32] == b.mrsigner && tail[32..128] == b.reserved3 && tail[128..130] == b.isvprodid;
    assert tail[130..132] == b.isvsvn && tail[132..192] == b.reserved4 && tail[192..256] == b.reportdata;
  }

  /** A REPORT placed in bytes reads back as the same REPORT. */
  lemma ParseEncodeReport(r: Report)
    ensures ParseReport(EncodeReport(r)) == Some(r)
  {
    var s := EncodeReport(r);
    assert s[..ReportBodySize] == EncodeBody(r.body);
    DecodeEncodeBody(r.body);
  }

  datatype Attributes = Attributes(flags: nat, xfrm: nat)

  datatype SignerAssignedIdentity = SignerAssignedIdentity(mrsigner: seq<byte>, isvprodid: nat, isvsvn: nat)

  /** The SGX code identity of an enclave: what the verifier hands back as the peer's identity. */
  datatype CodeIdentity = CodeIdentity(
    mrenclave: seq<byte>,
    signerAssignedIdentity: SignerAssignedIdentity,
    miscselect: nat,
    attributes: Attributes)

  /**
   * The identity of the enclave that produced a REPORTBODY: its measurements
   * verbatim, and its integer fields read little-endian at their widths.
   */
  function ParseIdentityFromHardwareReport(b: ReportBody): (id: CodeIdentity)
    ensures id.mrenclave == b.mrenclave && id.signerAssignedIdentity.mrsigner == b.mrsigner
    ensures id.signerAssignedIdentity.isvprodid < 0x1_0000 && id.signerAssignedIdentity.isvsvn < 0x1_0000
    ensures id.miscselect < 0x1_0000_0000
    ensures id.attributes.flags < 0x1_0000_0000_0000_0000 && id.attributes.xfrm < 0x1_0000_0000_0000_0000
  {
    LittleEndianBound(b.isvprodid);
    LittleEndianBound(b.isvsvn);
    LittleEndianBound(b.miscselect);
    LittleEndianBound(b.attributes[..8]);
    LittleEndianBound(b.attributes[8..]);
    assert Pow256(2) == 0x1_0000;
    assert Pow256(4) == 0x1_0000_0000;
    assert Pow256(8) == 0x1_0000_0000_0000_0000;
    CodeIdentity(
      b.mrenclave,
      SignerAssignedIdentity(b.mrsigner, LittleEndian(b.isvprodid), LittleEndian(b.isvsvn)),
      LittleEndian(b.miscselect),
      Attributes(LittleEndian(b.attributes[..8]), LittleEndian(b.attributes[8..])))
  }

  /** The identity does not depend on REPORTDATA, the one field the reporting enclave chooses per report. */
  lemma IdentityIgnoresReportdata(b: ReportBody, reportdata: Bytes64)
    ensures ParseIdentityFromHardwareReport(b.(reportdata := reportdata)) == ParseIdentityFromHardwareReport(b)
  {
  }
}
