/** The stub chain: contract addresses and transaction hashes computed from the campaign id. */
module StubDeployer {
  import opened Options
  import opened Uuid
  import opened Timestamp
  import opened Domain
  import Text

  /** strings.ReplaceAll(s, "-", ""). */
  function RemoveDashes(s: string): string {
    if s == "" then ""
    else if s[0] == '-' then RemoveDashes(s[1..])
    else [s[0]] + RemoveDashes(s[1..])
  }

  function Zeros(n: nat): (s: string)
    ensures |s| == n
    ensures forall i :: 0 <= i < n ==> s[i] == '0'
  {
    seq(n, _ => '0')
  }

  /** stubContractAddress. */
  function ContractAddress(campaignId: UUID): string {
    var all := RemoveDashes(Uuid.ToString(campaignId));
    var hex := if |all| > 40 then all[|all| - 40..] else all;
    "0x" + Zeros(40 - |hex|) + hex
  }

  /** stubTxHash. */
  function TxHash(campaignId: UUID): string {
    var all := RemoveDashes(Uuid.ToString(campaignId));
    var hex := if |all| > 64 then all[..64] else all;
    "0x" + Zeros(64 - |hex|) + hex
  }

  /** StubCampaignDeployer.DeployCampaign for a live context at time now; None is its error. */
  function Deploy(campaignId: UUID, now: Instant): Option<DeploymentResult> {
    if campaignId == Uuid.NIL then None
    else Some(DeploymentResult(ContractAddress(campaignId), TxHash(campaignId), 0, 1, now))
  }

  /** A group without dashes, the dash after it, and whatever follows. */
  lemma {:induction false} DashAfterGroup(group: string, rest: string)
    requires '-' !in group
    ensures RemoveDashes(group + ("-" + rest)) == group + RemoveDashes(rest)
  {
    var s := group + ("-" + rest);
    if group == "" {
      assert s[1..] == rest;
    } else {
      DashAfterGroup(group[1..], rest);
      assert s[1..] == group[1..] + ("-" + rest);
      assert group == [group[0]] + group[1..];
    }
  }

  lemma {:induction false} NothingToRemove(s: string)
    requires '-' !in s
    ensures RemoveDashes(s) == s
  {
    if s != "" {
      NothingToRemove(s[1..]);
    }
  }

  lemma GroupsJoined(g1: string, g2: string, g3: string, g4: string, g5: string)
    requires '-' !in g1 && '-' !in g2 && '-' !in g3 && '-' !in g4 && '-' !in g5
    ensures RemoveDashes(g1 + ("-" + (g2 + ("-" + (g3 + ("-" + (g4 + ("-" + g5)))))))) == g1 + (g2 + (g3 + (g4 + g5)))
  {
    hide RemoveDashes;
    var s5 := g5;
    var s4 := g4 + ("-" + s5);
    var s3 := g3 + ("-" + s4);
    var s2 := g2 + ("-" + s3);
    NothingToRemove(g5);
    DashAfterGroup(g4, s5);
    DashAfterGroup(g3, s4);
    DashAfterGroup(g2, s3);
    DashAfterGroup(g1, s2);
  }

  /** Without its dashes the text of a UUID is its 32 digits. */
  lemma DashlessDigits(id: UUID)
    ensures RemoveDashes(Uuid.ToString(id)) == HexDigits(id.digits)
  {
    hide RemoveDashes, HexDigits;
    var h := HexDigits(id.digits);
    assert '-' !in h;
    GroupsJoined(h[..8], h[8..12], h[12..16], h[16..20], h[20..]);
    assert h == h[..8] + (h[8..12] + (h[12..16] + (h[16..20] + h[20..])));
  }

  lemma AddressDigits(id: UUID)
    ensures ContractAddress(id) == "0x" + Zeros(8) + HexDigits(id.digits)
    ensures TxHash(id) == "0x" + Zeros(32) + HexDigits(id.digits)
  {
    hide Uuid.ToString, RemoveDashes, HexDigits, Zeros;
    DashlessDigits(id);
  }

  /** Padded digits hold no capital letter and start and end with a digit. */
  lemma PaddedDigits(id: UUID, n: nat)
    ensures
      var s := "0x" + Zeros(n) + HexDigits(id.digits);
      Text.Trimmed(s) && forall i :: 0 <= i < |s| ==> Text.LowerChar(s[i]) == s[i]
  {
    hide HexDigits, Zeros;
    var z, h := Zeros(n), HexDigits(id.digits);
    var s := "0x" + z + h;
    assert s[0] == '0' && s[|s| - 1] == h[31];
    forall i | 0 <= i < |s|
      ensures Text.LowerChar(s[i]) == s[i]
    {
      if i >= 2 + n {
        assert s[i] == h[i - 2 - n];
      }
    }
  }

  /** A stub address has 42 characters, no capital letter, and is not changed by trimming. */
  lemma AddressShape(id: UUID)
    ensures |ContractAddress(id)| == 42 && |TxHash(id)| == 66
    ensures Text.Lower(ContractAddress(id)) == ContractAddress(id)
    ensures Text.TrimSpace(ContractAddress(id)) == ContractAddress(id)
    ensures Text.TrimSpace(TxHash(id)) == TxHash(id)
  {
    hide ContractAddress, TxHash, Text.TrimSpace, Text.IsSpace, HexDigits, Zeros, Text.LowerChar;
    AddressDigits(id);
    PaddedDigits(id, 8);
    PaddedDigits(id, 32);
  }

  /** Distinct campaigns get distinct stub addresses, even ignoring case. */
  lemma AddressInjective(a: UUID, b: UUID)
    requires Text.Lower(ContractAddress(a)) == Text.Lower(ContractAddress(b))
    ensures a == b
  {
    hide ContractAddress, TxHash, Text.Lower, HexDigits, Zeros, Text.TrimSpace;
    AddressShape(a);
    AddressShape(b);
    AddressDigits(a);
    AddressDigits(b);
    var ha, hb := HexDigits(a.digits), HexDigits(b.digits);
    assert ha == ContractAddress(a)[10..] && hb == ContractAddress(b)[10..];
    SameDigits(a, b);
  }

  /** So do their transaction hashes. */
  lemma TxHashInjective(a: UUID, b: UUID)
    requires TxHash(a) == TxHash(b)
    ensures a == b
  {
    hide ContractAddress, TxHash, HexDigits, Zeros;
    AddressDigits(a);
    AddressDigits(b);
    var ha, hb := HexDigits(a.digits), HexDigits(b.digits);
    assert ha == TxHash(a)[34..] && hb == TxHash(b)[34..];
    SameDigits(a, b);
  }

  lemma SameDigits(a: UUID, b: UUID)
    requires HexDigits(a.digits) == HexDigits(b.digits)
    ensures a == b
  {
    var ha, hb := HexDigits(a.digits), HexDigits(b.digits);
    forall i | 0 <= i < 32
      ensures a.digits[i] == b.digits[i]
    {
      assert HexValue(ha[i]) == Some(a.digits[i]) && HexValue(hb[i]) == Some(b.digits[i]);
    }
  }
}
