/** Composite store keys: when two records share a key. */
module Keys {
  import opened Basics
  import opened Types
  import opened SignBytes

  /** transferKey without its one-byte table prefix: hash, big-endian index, denom. */
  function TransferKey(id: TransferId): Bytes
  {
    id.txHash + BigEndian(id.messageIndex, 4) + Raw(id.denom)
  }

  /** Transfers with hashes of one length never share a key. */
  lemma TransferKeyInjective(a: TransferId, b: TransferId)
    requires |a.txHash| == |b.txHash|
    requires ByteString(a.denom) && ByteString(b.denom)
    requires TransferKey(a) == TransferKey(b)
    ensures a == b
  {
    var n := |a.txHash|;
    var ka, kb := TransferKey(a), TransferKey(b);
    assert ka[..n] == a.txHash && kb[..n] == b.txHash;
    assert ka[n..n + 4] == BigEndian(a.messageIndex, 4) && kb[n..n + 4] == BigEndian(b.messageIndex, 4);
    assert ka[n + 4..] == Raw(a.denom) && kb[n + 4..] == Raw(b.denom);
    assert Pow256(4) == U32 by { assert Pow256(2) == 0x1_0000; }
    BigEndianRoundTrip(a.messageIndex, 4);
    BigEndianRoundTrip(b.messageIndex, 4);
    RawInjective(a.denom, b.denom);
  }

  const SHORT := TransferId([], 0, "\0\0\0\0a")
  const LONG := TransferId([0, 0, 0, 0], 0, "a")

  /** With hashes of different lengths they can; hence the 32-byte checks and the hash comparison. */
  lemma TransferKeyClash()
    ensures SHORT != LONG && TransferKey(SHORT) == TransferKey(LONG)
  {
    assert BigEndian(0, 4) == [0, 0, 0, 0] by {
      assert BigEndian(0, 1) == [0] && BigEndian(0, 2) == [0, 0] && BigEndian(0, 3) == [0, 0, 0];
    }
    assert Raw("\0\0\0\0a") == [0, 0, 0, 0, 97];
    assert Raw("a") == [97];
    assert TransferKey(SHORT) == [0, 0, 0, 0, 0, 0, 0, 0, 97] == TransferKey(LONG);
  }

  /** sanctionVoteKey without its table prefix: case, 0x00, agent. */
  function VoteKey(caseId: string, agentId: string): string
  {
    caseId + "\0" + agentId
  }

  /** The prefix that GetSanctionVotes iterates. */
  function VotePrefix(caseId: string): string
  {
    caseId + "\0"
  }

  predicate NoNul(s: string) { forall i :: 0 <= i < |s| ==> s[i] != '\0' }

  /**
   * Which votes the prefix of a case selects: its own, and those of every case whose id goes on with
   * NUL after this one's.
   */
  lemma VotePrefixSelects(caseId: string, other: string, agentId: string)
    requires NoNul(agentId)
    ensures VotePrefix(caseId) <= VoteKey(other, agentId) <==> caseId == other || VotePrefix(caseId) <= other
  {
    var p, k := VotePrefix(caseId), VoteKey(other, agentId);
    assert p[|caseId|] == '\0' && k[|other|] == '\0';
    assert forall i :: 0 <= i < |caseId| ==> p[i] == caseId[i];
    assert forall i :: 0 <= i < |other| ==> k[i] == other[i];
    assert forall j :: |other| < j < |k| ==> k[j] == agentId[j - |other| - 1];
    assert p <= k ==> k[|caseId|] == '\0';
    if p <= k && |caseId| == |other| { assert caseId == other; }
    if p <= k && |caseId| < |other| { assert p == other[..|p|]; }
  }

  /** The prefix of each stored case selects its own votes and no other's. */
  ghost predicate PrefixesExact(ids: set<string>)
  {
    forall c, other, agent :: c in ids && other in ids && NoNul(agent) ==>
      (VotePrefix(c) <= VoteKey(other, agent) <==> c == other)
  }

  /** No stored id goes on with NUL after another stored id: a condition on the ids alone. */
  ghost predicate NoneContinues(ids: set<string>)
  {
    forall c, other :: c in ids && other in ids && c != other ==> !(VotePrefix(c) <= other)
  }

  /** The vote prefixes of a set of cases are exact if and only if no id continues another. */
  lemma VotePrefixExact(ids: set<string>)
    ensures PrefixesExact(ids) <==> NoneContinues(ids)
  {
    hide VotePrefix, VoteKey;
    if PrefixesExact(ids) {
      forall c, other | c in ids && other in ids && c != other ensures !(VotePrefix(c) <= other) {
        VotePrefixSelects(c, other, "");
      }
    }
    if NoneContinues(ids) {
      forall c, other, agent | c in ids && other in ids && NoNul(agent)
        ensures VotePrefix(c) <= VoteKey(other, agent) <==> c == other
      {
        VotePrefixSelects(c, other, agent);
        if c == other { NotAfterItself(c); }
      }
    }
  }

  lemma NotAfterItself(c: string)
    ensures !(VotePrefix(c) <= c)
  {
  }

  /** Ids without NUL never continue one another. */
  lemma NulFreePrefixes(ids: set<string>)
    requires forall c :: c in ids ==> NoNul(c)
    ensures PrefixesExact(ids)
  {
    forall c, other | c in ids && other in ids && c != other ensures !(VotePrefix(c) <= other) {
      assert VotePrefix(c)[|c|] == '\0';
    }
    VotePrefixExact(ids);
  }

  /** Two ids that a chain may hold: the prefix of the first also selects the votes of the second. */
  lemma VotePrefixClash()
    ensures "a" != "a\0b" && VotePrefix("a") <= VoteKey("a\0b", "v") && !PrefixesExact({"a", "a\0b"})
  {
    assert "a\0b" == VotePrefix("a") + "b";
    assert VotePrefix("a") <= "a\0b";
    assert VoteKey("a\0b", "v") == VotePrefix("a") + "b\0v";
    VotePrefixExact({"a", "a\0b"});
  }
}
