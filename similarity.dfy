/**
 * The similarity vector of two relay descriptors (similarity.go): absolute
 * differences of uptime, bandwidth and ORPort, the length of the shared
 * fingerprint prefix, the nickname edit distance and six boolean flags.
 */
module Similarity {
  import Levenshtein

  newtype uint16 = x: int | 0 <= x < 0x1_0000
  newtype uint32 = x: int | 0 <= x < 0x1_0000_0000
  newtype uint64 = x: int | 0 <= x < 0x1_0000_0000_0000_0000

  /** The fields of a parsed relay descriptor that the vector reads. */
  datatype RouterDescriptor = RouterDescriptor(
    fingerprint: string,   // 40 hex digits
    nickname: string,
    address: string,       // the textual form of the relay's IP address
    orPort: uint16,
    dirPort: uint16,       // 0 when the relay has no directory port
    bandwidthAvg: uint64,
    uptime: uint64,
    contact: string,       // empty when unset
    torVersion: string,
    family: set<string>,   // fingerprints this relay claims as family
    rawReject: string)     // the literal reject part of the exit policy

  /** The similarity vector of an ordered pair of descriptors. */
  datatype DescriptorSimilarity = DescriptorSimilarity(
    fingerprint1: string,
    fingerprint2: string,
    uptimeDiff: uint64,
    bandwidthDiff: uint64,
    orPortDiff: uint16,
    sharedFprPrefix: uint32,
    levenshteinDist: nat,
    sameFamily: bool,
    sameAddress: bool,
    sameContact: bool,
    sameVersion: bool,
    haveDirPort: bool,
    samePolicy: bool)

  /** Number of hex digits of a fingerprint. */
  const FprDigits := 40

  /** The universal reject policy. */
  const UniversalReject := "*:*"

  /** The default reject policy is this head, the relay's own address, then this tail. */
  const DefaultRejectHead := "0.0.0.0/8:* 169.254.0.0/16:* 127.0.0.0/8:* 192.168.0.0/16:* 10.0.0.0/8:* 172.16.0.0/12:* "
  const DefaultRejectTail := ":* *:25 *:119 *:135-139 *:445 *:563 *:1214 *:4661-4666 *:6346-6429 *:6699 *:6881-6999"

  function Abs(x: int): nat
  {
    if x < 0 then -x else x
  }

  function MaxUInt64(a: uint64, b: uint64): uint64 { if a > b then a else b }
  function MinUInt64(a: uint64, b: uint64): uint64 { if a < b then a else b }
  function MaxUInt16(a: uint16, b: uint16): uint16 { if a > b then a else b }
  function MinUInt16(a: uint16, b: uint16): uint16 { if a < b then a else b }

  /** max - min of two unsigned 64-bit values: never underflows, and is the absolute difference. */
  function UInt64Diff(a: uint64, b: uint64): (r: uint64)
    ensures r as int == Abs(a as int - b as int)
  {
    MaxUInt64(a, b) - MinUInt64(a, b)
  }

  /** max - min of two ports: the absolute difference, which never exceeds the larger port. */
  function UInt16Diff(a: uint16, b: uint16): (r: uint16)
    ensures r as int == Abs(a as int - b as int)
    ensures r <= MaxUInt16(a, b)
  {
    MaxUInt16(a, b) - MinUInt16(a, b)
  }

  /** White space as Go's unicode.IsSpace defines it. */
  predicate IsSpace(c: char)
  {
    var n := c as int;
    n == 0x09 || n == 0x0A || n == 0x0B || n == 0x0C || n == 0x0D || n == 0x20 ||
    n == 0x85 || n == 0xA0 || n == 0x1680 || (0x2000 <= n <= 0x200A) ||
    n == 0x2028 || n == 0x2029 || n == 0x202F || n == 0x205F || n == 0x3000
  }

  /** Number of white-space characters at the start of s. */
  function LeadingSpaces(s: string): (n: nat)
    ensures n <= |s|
    ensures forall k :: 0 <= k < n ==> IsSpace(s[k])
    ensures n < |s| ==> !IsSpace(s[n])
  {
    if |s| == 0 || !IsSpace(s[0]) then 0 else 1 + LeadingSpaces(s[1..])
  }

  /** Number of white-space characters at the end of s. */
  function TrailingSpaces(s: string): (n: nat)
    ensures n <= |s|
    ensures forall k :: |s| - n <= k < |s| ==> IsSpace(s[k])
    ensures n < |s| ==> !IsSpace(s[|s| - 1 - n])
  {
    if |s| == 0 || !IsSpace(s[|s| - 1]) then 0 else 1 + TrailingSpaces(s[..|s| - 1])
  }

  /** The white space TrailingSpaces counts at the end of s[a..] lies at the end of s. */
  lemma TrailingSpacesOfSuffix(s: string, a: nat)
    requires a <= |s|
    ensures |s| - TrailingSpaces(s[a..]) >= a
    ensures forall k :: |s| - TrailingSpaces(s[a..]) <= k < |s| ==> IsSpace(s[k])
    ensures |s| - TrailingSpaces(s[a..]) > a ==> !IsSpace(s[|s| - TrailingSpaces(s[a..]) - 1])
  {
    var t := s[a..];
    var n := TrailingSpaces(t);
    forall k | |s| - n <= k < |s|
      ensures IsSpace(s[k])
    {
      assert s[k] == t[k - a];
    }
    if n < |t| {
      assert s[|s| - n - 1] == t[|t| - 1 - n];
    }
  }

  /** strings.TrimSpace: s without its leading and trailing white space. */
  function TrimSpace(s: string): (r: string)
    ensures |r| <= |s|
    ensures r == [] || (!IsSpace(r[0]) && !IsSpace(r[|r| - 1]))
    ensures s == [] || (!IsSpace(s[0]) && !IsSpace(s[|s| - 1])) ==> r == s
    ensures exists a, b ::
              && 0 <= a <= b <= |s| && r == s[a..b]
              && (forall k :: 0 <= k < a ==> IsSpace(s[k]))
              && (forall k :: b <= k < |s| ==> IsSpace(s[k]))
  {
    var a := LeadingSpaces(s);
    TrailingSpacesOfSuffix(s, a);
    var b := |s| - TrailingSpaces(s[a..]);
    assert a < b ==> s[a..b][0] == s[a] && s[a..b][b - a - 1] == s[b - 1];
    assert s != [] && !IsSpace(s[0]) && !IsSpace(s[|s| - 1]) ==> a == 0 && b == |s|;
    assert 0 <= a <= b <= |s| && (forall k :: 0 <= k < a ==> IsSpace(s[k])) && (forall k :: b <= k < |s| ==> IsSpace(s[k]));
    s[a..b]
  }

  /** The default reject policy of a relay with the given address. */
  function DefaultRejectPolicy(address: string): string
  {
    DefaultRejectHead + address + DefaultRejectTail
  }

  /** hasDefaultExitPolicy: the trimmed reject policy is the default one built from the relay's own address. */
  predicate HasDefaultExitPolicy(d: RouterDescriptor)
    ensures HasDefaultExitPolicy(d) ==> TrimSpace(d.rawReject) != UniversalReject
    ensures HasDefaultExitPolicy(d) ==> |DefaultRejectHead| + |d.address| + |DefaultRejectTail| <= |d.rawReject|
  {
    TrimSpace(d.rawReject) == DefaultRejectPolicy(d.address)
  }

  /** Different addresses give different default policies. */
  lemma DefaultRejectPolicyInjective(a: string, b: string)
    ensures DefaultRejectPolicy(a) == DefaultRejectPolicy(b) ==> a == b
  {
    if DefaultRejectPolicy(a) == DefaultRejectPolicy(b) {
      var h := |DefaultRejectHead|;
      assert |a| == |b|;
      assert DefaultRejectPolicy(a)[h..h + |a|] == a;
      assert DefaultRejectPolicy(b)[h..h + |b|] == b;
    }
  }

  /** HasFamily: the descriptor lists fpr in its family. */
  predicate HasFamily(d: RouterDescriptor, fpr: string)
  {
    fpr in d.family
  }

  /** The policy flag: only a policy that is neither the default nor the universal one can match. */
  predicate SamePolicy(d1: RouterDescriptor, d2: RouterDescriptor)
    ensures SamePolicy(d1, d2) ==> d1.rawReject == d2.rawReject
    ensures HasDefaultExitPolicy(d1) || TrimSpace(d1.rawReject) == UniversalReject ==> !SamePolicy(d1, d2)
    ensures !HasDefaultExitPolicy(d1) && TrimSpace(d1.rawReject) != UniversalReject ==>
      (SamePolicy(d1, d2) <==> d1.rawReject == d2.rawReject)
  {
    if !HasDefaultExitPolicy(d1) && TrimSpace(d1.rawReject) != UniversalReject then
      d1.rawReject == d2.rawReject
    else
      false
  }

  /** Length of the longest common prefix of a and b. */
  function CommonPrefixLength(a: string, b: string): (n: nat)
    ensures n <= |a| && n <= |b|
    ensures a[..n] == b[..n]
    ensures n < |a| && n < |b| ==> a[n] != b[n]
  {
    if |a| == 0 || |b| == 0 || a[0] != b[0] then 0
    else
      var n := 1 + CommonPrefixLength(a[1..], b[1..]);
      assert a[..n] == [a[0]] + a[1..][..n - 1];
      assert b[..n] == [b[0]] + b[1..][..n - 1];
      n
  }

  /** The three properties of CommonPrefixLength determine it. */
  lemma CommonPrefixLengthUnique(a: string, b: string, n: nat)
    requires n <= |a| && n <= |b|
    requires a[..n] == b[..n]
    requires n < |a| && n < |b| ==> a[n] != b[n]
    ensures CommonPrefixLength(a, b) == n
  {
  }

  /** Number of leading hex digits the first 40 digits of two fingerprints share. */
  function FprPrefixLength(f1: string, f2: string): (n: nat)
    requires |f1| >= FprDigits && |f2| >= FprDigits
    ensures n <= FprDigits
    ensures f1[..n] == f2[..n]
    ensures n < FprDigits ==> f1[n] != f2[n]
    ensures n == FprDigits <==> f1[..FprDigits] == f2[..FprDigits]
  {
    var n := CommonPrefixLength(f1[..FprDigits], f2[..FprDigits]);
    assert f1[..FprDigits][..n] == f1[..n] && f2[..FprDigits][..n] == f2[..n];
    n
  }

  /** The vector CalcDescSimilarity computes for (d1, d2), field by field. */
  function SimilarityOf(d1: RouterDescriptor, d2: RouterDescriptor): (s: DescriptorSimilarity)
    requires |d1.fingerprint| >= FprDigits && |d2.fingerprint| >= FprDigits
    ensures s.fingerprint1 == d1.fingerprint && s.fingerprint2 == d2.fingerprint
    ensures s.uptimeDiff as int == Abs(d1.uptime as int - d2.uptime as int)
    ensures s.bandwidthDiff as int == Abs(d1.bandwidthAvg as int - d2.bandwidthAvg as int)
    ensures s.orPortDiff as int == Abs(d1.orPort as int - d2.orPort as int)
    ensures s.sharedFprPrefix as int <= FprDigits
    ensures s.sharedFprPrefix as int < FprDigits ==> d1.fingerprint[s.sharedFprPrefix] != d2.fingerprint[s.sharedFprPrefix]
    ensures d1.fingerprint[..s.sharedFprPrefix] == d2.fingerprint[..s.sharedFprPrefix]
    ensures s.sharedFprPrefix as int == FprDigits <==> d1.fingerprint[..FprDigits] == d2.fingerprint[..FprDigits]
    ensures s.levenshteinDist == Levenshtein.EditDistance(d1.nickname, d2.nickname)
    ensures s.sameFamily <==> d2.fingerprint in d1.family && d1.fingerprint in d2.family
    ensures s.sameAddress <==> d1.address == d2.address
    ensures s.sameContact <==> d1.contact == d2.contact && d1.contact != ""
    ensures s.sameVersion <==> d1.torVersion == d2.torVersion
    ensures s.haveDirPort <==> d1.dirPort != 0 && d2.dirPort != 0
    ensures s.samePolicy ==> d1.rawReject == d2.rawReject
    ensures HasDefaultExitPolicy(d1) || TrimSpace(d1.rawReject) == UniversalReject ==> !s.samePolicy
    ensures !HasDefaultExitPolicy(d1) && TrimSpace(d1.rawReject) != UniversalReject ==>
      (s.samePolicy <==> d1.rawReject == d2.rawReject)
  {
    DescriptorSimilarity(
      d1.fingerprint, d2.fingerprint,
      UInt64Diff(d1.uptime, d2.uptime),
      UInt64Diff(d1.bandwidthAvg, d2.bandwidthAvg),
      UInt16Diff(d1.orPort, d2.orPort),
      FprPrefixLength(d1.fingerprint, d2.fingerprint) as uint32,
      Levenshtein.EditDistance(d1.nickname, d2.nickname),
      HasFamily(d1, d2.fingerprint) && HasFamily(d2, d1.fingerprint),
      d1.address == d2.address,
      d1.contact == d2.contact && d1.contact != "",
      d1.torVersion == d2.torVersion,
      d1.dirPort != 0 && d2.dirPort != 0,
      SamePolicy(d1, d2))
  }

  /** The loop of CalcDescSimilarity that counts the shared leading fingerprint digits. */
  method CountSharedDigits(f1: string, f2: string) returns (shared: uint32)
    requires |f1| >= FprDigits && |f2| >= FprDigits
    ensures shared as int == FprPrefixLength(f1, f2)
  {
    shared := 0;
    var i := 0;
    while i < FprDigits
      invariant 0 <= i <= FprDigits && shared as int == i
      invariant f1[..i] == f2[..i]
    {
      if f1[i] != f2[i] {
        break;
      }
      assert f1[..i + 1] == f1[..i] + [f1[i]];
      assert f2[..i + 1] == f2[..i] + [f2[i]];
      shared := shared + 1;
      i := i + 1;
    }
    assert f1[..FprDigits][..i] == f1[..i];
    assert f2[..FprDigits][..i] == f2[..i];
    CommonPrefixLengthUnique(f1[..FprDigits], f2[..FprDigits], i);
  }

  /** CalcDescSimilarity: builds the vector, counting the shared fingerprint prefix digit by digit. */
  method CalcDescSimilarity(d1: RouterDescriptor, d2: RouterDescriptor) returns (s: DescriptorSimilarity)
    requires |d1.fingerprint| >= FprDigits && |d2.fingerprint| >= FprDigits
    ensures s == SimilarityOf(d1, d2)
  {
    var shared := CountSharedDigits(d1.fingerprint, d2.fingerprint);
    var samePolicy := false;
    if !HasDefaultExitPolicy(d1) && TrimSpace(d1.rawReject) != UniversalReject {
      samePolicy := d1.rawReject == d2.rawReject;
    }
    assert samePolicy == SamePolicy(d1, d2);
    s := DescriptorSimilarity(
      d1.fingerprint, d2.fingerprint,
      UInt64Diff(d1.uptime, d2.uptime),
      UInt64Diff(d1.bandwidthAvg, d2.bandwidthAvg),
      UInt16Diff(d1.orPort, d2.orPort),
      shared,
      Levenshtein.EditDistance(d1.nickname, d2.nickname),
      HasFamily(d1, d2.fingerprint) && HasFamily(d2, d1.fingerprint),
      d1.address == d2.address,
      d1.contact == d2.contact && d1.contact != "",
      d1.torVersion == d2.torVersion,
      d1.dirPort != 0 && d2.dirPort != 0,
      samePolicy);
  }

  /** The shared prefix does not depend on the order of the two fingerprints. */
  lemma FprPrefixLengthSymmetric(f1: string, f2: string)
    requires |f1| >= FprDigits && |f2| >= FprDigits
    ensures FprPrefixLength(f1, f2) == FprPrefixLength(f2, f1)
  {
    var n := FprPrefixLength(f1, f2);
    assert f2[..FprDigits][..n] == f2[..n] && f1[..FprDigits][..n] == f1[..n];
    CommonPrefixLengthUnique(f2[..FprDigits], f1[..FprDigits], n);
  }

  /** Swapping the descriptors swaps the fingerprints and leaves every other field but samePolicy unchanged. */
  lemma SimilaritySymmetric(d1: RouterDescriptor, d2: RouterDescriptor)
    requires |d1.fingerprint| >= FprDigits && |d2.fingerprint| >= FprDigits
    ensures var s, t := SimilarityOf(d1, d2), SimilarityOf(d2, d1);
      && s.fingerprint1 == t.fingerprint2 && s.fingerprint2 == t.fingerprint1
      && s.uptimeDiff == t.uptimeDiff && s.bandwidthDiff == t.bandwidthDiff
      && s.orPortDiff == t.orPortDiff && s.sharedFprPrefix == t.sharedFprPrefix
      && s.levenshteinDist == t.levenshteinDist
      && s.sameFamily == t.sameFamily && s.sameAddress == t.sameAddress
      && s.sameContact == t.sameContact && s.sameVersion == t.sameVersion
      && s.haveDirPort == t.haveDirPort
  {
    FprPrefixLengthSymmetric(d1.fingerprint, d2.fingerprint);
    Levenshtein.EditDistanceSymmetric(d1.nickname, d2.nickname);
  }

  /** For two relays at the same address the policy flag is order-independent too. */
  lemma SamePolicySymmetricAtSameAddress(d1: RouterDescriptor, d2: RouterDescriptor)
    requires d1.address == d2.address
    ensures SamePolicy(d1, d2) == SamePolicy(d2, d1)
  {
  }

  /**
   * The exemption looks only at the first descriptor's address, so the flag
   * depends on the order: when a relay's policy is its own default template
   * and a relay at another address uses the same text, the pair matches in
   * one order and not in the other.
   */
  lemma SamePolicyOrderDependent(d1: RouterDescriptor, d2: RouterDescriptor)
    requires HasDefaultExitPolicy(d1)
    requires d2.rawReject == d1.rawReject && d2.address != d1.address
    ensures !SamePolicy(d1, d2) && SamePolicy(d2, d1)
  {
    DefaultRejectPolicyInjective(d1.address, d2.address);
    assert |TrimSpace(d2.rawReject)| > |UniversalReject|;
  }
}
