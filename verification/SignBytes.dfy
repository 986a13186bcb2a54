/** The length-prefixed payloads that agents sign. */
module SignBytes {
  import opened Basics
  import opened Types

  /** []byte(s): a char stands for one byte. */
  function Raw(s: string): (b: Bytes)
    ensures |b| == |s|
  {
    seq(|s|, i requires 0 <= i < |s| => s[i] as int % 256)
  }

  /** A Go string: every char is a byte. */
  predicate ByteString(s: string) { forall i :: 0 <= i < |s| ==> s[i] as int < 256 }

  lemma RawInjective(a: string, b: string)
    requires ByteString(a) && ByteString(b) && Raw(a) == Raw(b)
    ensures a == b
  {
    forall i | 0 <= i < |a| ensures a[i] == b[i] {
      assert Raw(a)[i] == a[i] as int % 256 && Raw(b)[i] == b[i] as int % 256;
    }
  }

  /** The low k bytes of n, most significant first. */
  function BigEndian(n: nat, k: nat): (b: Bytes)
    ensures |b| == k
  {
    if k == 0 then [] else BigEndian(n / 256, k - 1) + [n % 256]
  }

  function FromBigEndian(b: Bytes): nat
  {
    if b == [] then 0 else 256 * FromBigEndian(b[..|b| - 1]) + b[|b| - 1]
  }

  function Pow256(k: nat): (r: nat)
    ensures r > 0
  {
    if k == 0 then 1 else 256 * Pow256(k - 1)
  }

  lemma {:induction false} BigEndianRoundTrip(n: nat, k: nat)
    requires n < Pow256(k)
    ensures FromBigEndian(BigEndian(n, k)) == n
  {
    if k > 0 {
      BigEndianRoundTrip(n / 256, k - 1);
      assert BigEndian(n, k)[..k - 1] == BigEndian(n / 256, k - 1);
    }
  }

  lemma {:induction false} FromBigEndianRoundTrip(b: Bytes)
    ensures FromBigEndian(b) < Pow256(|b|) && BigEndian(FromBigEndian(b), |b|) == b
  {
    if b != [] {
      FromBigEndianRoundTrip(b[..|b| - 1]);
      assert b == b[..|b| - 1] + [b[|b| - 1]];
    }
  }

  lemma Pow256Eight()
    ensures Pow256(8) == U64
  {
    assert Pow256(2) == 0x1_0000 && Pow256(4) == 0x1_0000_0000 && Pow256(6) == 0x1_0000_0000_0000;
  }

  /** writeUint64 after the conversion uint64(n): eight bytes, two's complement for a negative n. */
  function WriteUint64(n: int): (b: Bytes)
    ensures |b| == 8
  {
    BigEndian(n % U64, 8)
  }

  function WriteBytes(value: Bytes): (b: Bytes)
    ensures |b| == 8 + |value|
  {
    WriteUint64(|value|) + value
  }

  function OptionCode(o: VoteOption): int
  {
    match o
    case NoOption => 0 case Approve => 1 case Reject => 2 case Abstain => 3 case OtherVote(n) => n
  }

  function ActionCode(a: Action): int
  {
    match a
    case NoAction => 0 case Watch => 1 case BlockTx => 2 case FreezeAddress => 3
    case EscrowFunds => 4 case RevertTransfer => 5 case UnknownAction(n) => n
  }

  const MODULE_NAME := "sanction"

  /** The signed fields of a vote, as raw bytes and 64-bit words. */
  datatype Payload = Payload(
    chainId: Bytes, moduleName: Bytes, caseId: Bytes, agentId: Bytes,
    option: uint64, action: uint64, reason: Bytes, rationale: Bytes, signedHeight: uint64)

  function PayloadOf(chainId: string, v: SanctionVote): Payload
  {
    Payload(Raw(chainId), Raw(MODULE_NAME), Raw(v.caseId), Raw(v.agentId),
            OptionCode(v.option) % U64, ActionCode(v.approvedAction) % U64,
            Raw(v.reason), v.rationale, v.signedHeight)
  }

  /** Lengths that fit the 64-bit prefix, as every Go slice's does. */
  predicate Sized(p: Payload)
  {
    && |p.chainId| < U64 && |p.moduleName| < U64 && |p.caseId| < U64 && |p.agentId| < U64
    && |p.reason| < U64 && |p.rationale| < U64
  }

  function Encode(p: Payload): Bytes
  {
    WriteBytes(p.chainId) + (WriteBytes(p.moduleName) + (WriteBytes(p.caseId) + (WriteBytes(p.agentId) +
    (WriteUint64(p.option) + (WriteUint64(p.action) +
    (WriteBytes(p.reason) + (WriteBytes(p.rationale) + WriteUint64(p.signedHeight))))))))
  }

  function VoteBytes(chainId: string, v: SanctionVote): Bytes
  {
    Encode(PayloadOf(chainId, v))
  }

  /** VoteSignBytes: the fields are appended one after another to a buffer. */
  method VoteSignBytes(chainId: string, v: SanctionVote) returns (out: Bytes)
    ensures out == VoteBytes(chainId, v)
  {
    out := WriteBytes(Raw(chainId));
    out := out + WriteBytes(Raw(MODULE_NAME));
    out := out + WriteBytes(Raw(v.caseId));
    out := out + WriteBytes(Raw(v.agentId));
    out := out + WriteUint64(OptionCode(v.option) % U64);
    out := out + WriteUint64(ActionCode(v.approvedAction) % U64);
    out := out + WriteBytes(Raw(v.reason));
    out := out + WriteBytes(v.rationale);
    out := out + WriteUint64(v.signedHeight);
  }

  function ReportBytes(chainId: string, marshalled: Bytes): Bytes
  {
    WriteBytes(Raw(chainId)) + (WriteBytes(Raw(MODULE_NAME)) + WriteBytes(marshalled))
  }

  /** RiskReportSignBytes over the protobuf bytes of the report without its signature. */
  method RiskReportSignBytes(chainId: string, marshalled: Bytes) returns (out: Bytes)
    ensures out == ReportBytes(chainId, marshalled)
  {
    out := WriteBytes(Raw(chainId));
    out := out + WriteBytes(Raw(MODULE_NAME));
    out := out + WriteBytes(marshalled);
  }

  // ---- a decoder for the layout

  function ReadUint64(b: Bytes): Option<(uint64, Bytes)>
  {
    if |b| < 8 then None else
      FromBigEndianRoundTrip(b[..8]); Pow256Eight();
      Some((FromBigEndian(b[..8]), b[8..]))
  }

  function ReadBytes(b: Bytes): Option<(Bytes, Bytes)>
  {
    var head := ReadUint64(b);
    if head.None? || |head.value.1| < head.value.0 then None
    else Some((head.value.1[..head.value.0], head.value.1[head.value.0..]))
  }

  function Decode(b: Bytes): Option<Payload>
  {
    var r1 := ReadBytes(b); if r1.None? then None else
    var r2 := ReadBytes(r1.value.1); if r2.None? then None else
    var r3 := ReadBytes(r2.value.1); if r3.None? then None else
    var r4 := ReadBytes(r3.value.1); if r4.None? then None else
    var r5 := ReadUint64(r4.value.1); if r5.None? then None else
    var r6 := ReadUint64(r5.value.1); if r6.None? then None else
    var r7 := ReadBytes(r6.value.1); if r7.None? then None else
    var r8 := ReadBytes(r7.value.1); if r8.None? then None else
    var r9 := ReadUint64(r8.value.1);
    if r9.None? || r9.value.1 != [] then None
    else Some(Payload(r1.value.0, r2.value.0, r3.value.0, r4.value.0, r5.value.0, r6.value.0,
                      r7.value.0, r8.value.0, r9.value.0))
  }

  lemma ReadWriteUint64(n: uint64, rest: Bytes)
    ensures ReadUint64(WriteUint64(n) + rest) == Some((n, rest))
  {
    hide BigEndian, FromBigEndian, Pow256;
    Pow256Eight();
    BigEndianRoundTrip(n, 8);
    assert (WriteUint64(n) + rest)[..8] == WriteUint64(n);
    assert (WriteUint64(n) + rest)[8..] == rest;
  }

  lemma ReadWriteBytes(value: Bytes, rest: Bytes)
    requires |value| < U64
    ensures ReadBytes(WriteBytes(value) + rest) == Some((value, rest))
  {
    ReadWriteUint64(|value|, value + rest);
    assert WriteBytes(value) + rest == WriteUint64(|value|) + (value + rest);
    assert (value + rest)[..|value|] == value && (value + rest)[|value|..] == rest;
  }

  /** Every signed field can be read back. */
  lemma DecodeEncode(p: Payload)
    requires Sized(p)
    ensures Decode(Encode(p)) == Some(p)
  {
    var t9 := WriteUint64(p.signedHeight);
    var t8 := WriteBytes(p.rationale) + t9;
    var t7 := WriteBytes(p.reason) + t8;
    var t6 := WriteUint64(p.action) + t7;
    var t5 := WriteUint64(p.option) + t6;
    var t4 := WriteBytes(p.agentId) + t5;
    var t3 := WriteBytes(p.caseId) + t4;
    var t2 := WriteBytes(p.moduleName) + t3;
    ReadWriteBytes(p.chainId, t2);
    ReadWriteBytes(p.moduleName, t3);
    ReadWriteBytes(p.caseId, t4);
    ReadWriteBytes(p.agentId, t5);
    ReadWriteUint64(p.option, t6);
    ReadWriteUint64(p.action, t7);
    ReadWriteBytes(p.reason, t8);
    ReadWriteBytes(p.rationale, t9);
    ReadWriteUint64(p.signedHeight, []);
    assert t9 + [] == t9;
  }

  lemma BigEndianOfHead(h: Bytes)
    requires |h| == 8
    ensures FromBigEndian(h) < U64 && WriteUint64(FromBigEndian(h)) == h
  {
    Pow256Eight();
    FromBigEndianRoundTrip(h);
    var n := FromBigEndian(h);
    assert n % U64 == n;
  }

  lemma WriteReadUint64(b: Bytes)
    requires ReadUint64(b).Some?
    ensures var r := ReadUint64(b).value; WriteUint64(r.0) + r.1 == b
  {
    BigEndianOfHead(b[..8]);
    assert b == b[..8] + b[8..];
  }

  lemma WriteReadBytes(b: Bytes)
    requires ReadBytes(b).Some?
    ensures var r := ReadBytes(b).value; |r.0| < U64 && WriteBytes(r.0) + r.1 == b
  {
    WriteReadUint64(b);
    var head := ReadUint64(b).value;
    var r := ReadBytes(b).value;
    assert r.0 + r.1 == head.1;
    assert WriteBytes(r.0) + r.1 == WriteUint64(head.0) + (r.0 + r.1);
  }

  /** Only an encoding decodes: the layout has one reading and one writing. */
  lemma EncodeDecode(b: Bytes)
    ensures Decode(b).Some? ==> Sized(Decode(b).value) && Encode(Decode(b).value) == b
  {
    if Decode(b).None? { return; }
    var r1 := ReadBytes(b).value; WriteReadBytes(b);
    var r2 := ReadBytes(r1.1).value; WriteReadBytes(r1.1);
    var r3 := ReadBytes(r2.1).value; WriteReadBytes(r2.1);
    var r4 := ReadBytes(r3.1).value; WriteReadBytes(r3.1);
    var r5 := ReadUint64(r4.1).value; WriteReadUint64(r4.1);
    var r6 := ReadUint64(r5.1).value; WriteReadUint64(r5.1);
    var r7 := ReadBytes(r6.1).value; WriteReadBytes(r6.1);
    var r8 := ReadBytes(r7.1).value; WriteReadBytes(r7.1);
    var r9 := ReadUint64(r8.1).value; WriteReadUint64(r8.1);
    assert WriteUint64(r9.0) + [] == WriteUint64(r9.0);
  }

  lemma Int32Wraps(a: int, b: int)
    requires -0x8000_0000 <= a < 0x8000_0000 && -0x8000_0000 <= b < 0x8000_0000 && a % U64 == b % U64
    ensures a == b
  {
  }

  lemma CodesInjective(o: VoteOption, o': VoteOption, a: Action, a': Action)
    ensures OptionCode(o) % U64 == OptionCode(o') % U64 ==> o == o'
    ensures ActionCode(a) % U64 == ActionCode(a') % U64 ==> a == a'
  {
    if OptionCode(o) % U64 == OptionCode(o') % U64 { Int32Wraps(OptionCode(o), OptionCode(o')); }
    if ActionCode(a) % U64 == ActionCode(a') % U64 { Int32Wraps(ActionCode(a), ActionCode(a')); }
  }

  ghost predicate GoVote(chainId: string, v: SanctionVote)
  {
    && ByteString(chainId) && ByteString(v.caseId) && ByteString(v.agentId) && ByteString(v.reason)
    && Sized(PayloadOf(chainId, v))
  }

  /** The protobuf numbers of options and actions, as unsigned words. */
  lemma CodeNumbers(o: VoteOption, a: Action)
    ensures OptionCode(o) % U64
            == match o case NoOption => 0 case Approve => 1 case Reject => 2 case Abstain => 3 case OtherVote(n) => n % U64
    ensures ActionCode(a) % U64
            == match a case NoAction => 0 case Watch => 1 case BlockTx => 2 case FreezeAddress => 3
               case EscrowFunds => 4 case RevertTransfer => 5 case UnknownAction(n) => n % U64
  {
  }

  /** The decoder finds each field of the vote in its place. */
  lemma VoteFields(chainId: string, v: SanctionVote)
    requires GoVote(chainId, v)
    ensures Decode(VoteBytes(chainId, v)).Some?
    ensures var p := Decode(VoteBytes(chainId, v)).value;
      && p.chainId == Raw(chainId) && p.moduleName == Raw("sanction") && p.caseId == Raw(v.caseId) && p.agentId == Raw(v.agentId)
      && p.reason == Raw(v.reason) && p.rationale == v.rationale && p.signedHeight == v.signedHeight
      && p.option == OptionCode(v.option) % U64 && p.action == ActionCode(v.approvedAction) % U64
  {
    hide Raw, Encode, Decode, OptionCode, ActionCode, ByteString;
    DecodeEncode(PayloadOf(chainId, v));
  }

  /** A signature covers one vote of one chain: equal payloads have equal signed fields. */
  lemma VoteBytesInjective(chainId: string, v: SanctionVote, chainId': string, v': SanctionVote)
    requires GoVote(chainId, v) && GoVote(chainId', v')
    ensures VoteBytes(chainId, v) == VoteBytes(chainId', v') ==>
              chainId == chainId' && v'.(signature := v.signature) == v
  {
    if VoteBytes(chainId, v) != VoteBytes(chainId', v') { return; }
    DecodeEncode(PayloadOf(chainId, v));
    DecodeEncode(PayloadOf(chainId', v'));
    RawInjective(chainId, chainId');
    RawInjective(v.caseId, v'.caseId);
    RawInjective(v.agentId, v'.agentId);
    RawInjective(v.reason, v'.reason);
    CodesInjective(v.option, v'.option, v.approvedAction, v'.approvedAction);
  }

  lemma DecodeTooShort(b: Bytes, r1: (Bytes, Bytes), r2: (Bytes, Bytes), r3: (Bytes, Bytes))
    requires ReadBytes(b) == Some(r1) && ReadBytes(r1.1) == Some(r2) && ReadBytes(r2.1) == Some(r3) && r3.1 == []
    ensures Decode(b).None?
  {
    assert ReadUint64(r3.1).None?;
  }

  lemma ReportsDoNotDecode(chainId: string, marshalled: Bytes)
    requires |chainId| < U64 && |marshalled| < U64
    ensures Decode(ReportBytes(chainId, marshalled)).None?
  {
    var t3 := WriteBytes(marshalled);
    var t2 := WriteBytes(Raw(MODULE_NAME)) + t3;
    ReadWriteBytes(Raw(chainId), t2);
    ReadWriteBytes(Raw(MODULE_NAME), t3);
    ReadWriteBytes(marshalled, []);
    assert t3 + [] == t3;
    DecodeTooShort(ReportBytes(chainId, marshalled), (Raw(chainId), t2), (Raw(MODULE_NAME), t3), (marshalled, []));
  }

  /** No report payload is a vote payload, so neither signature can be reused as the other. */
  lemma VotesAreNotReports(chainId: string, v: SanctionVote, chainId': string, marshalled: Bytes)
    requires GoVote(chainId, v) && |chainId'| < U64 && |marshalled| < U64
    ensures VoteBytes(chainId, v) != ReportBytes(chainId', marshalled)
  {
    DecodeEncode(PayloadOf(chainId, v));
    ReportsDoNotDecode(chainId', marshalled);
  }
}
