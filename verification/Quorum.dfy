/** Guardian quorum: the three hand-written signature loops (apps/web/lib/tamper.ts,
    workflows/cre-vaa-executor/main.ts, apps/relay-cli/src/verify-evidence.ts) and the signing loop
    (packages/wormhole-sdk/src/signatures.ts). */
module Quorum {
  import opened Bytes
  import opened Vaas
  import opened Digests

  const GUARDIAN_SET_SIZE := 19
  const GUARDIAN_QUORUM := 13

  datatype SignatureFault =
    | NoQuorum | UnsupportedVersion | NotAscending | IndexOutOfBounds | RecoverFailed | WrongSigner

  predicate Ascending(ss: seq<Signature>) {
    forall i, j | 0 <= i < j < |ss| :: ss[i].guardianIndex < ss[j].guardianIndex
  }

  predicate RecoversToGuardian(c: Crypto, digest: bytes32, s: Signature) {
    c.recover(digest, s.r, s.s, s.v + 27) == Some(c.guardianAddress(s.guardianIndex))
  }

  predicate SignedByGuardian(c: Crypto, digest: bytes32, s: Signature) {
    0 <= s.guardianIndex < GUARDIAN_SET_SIZE && RecoversToGuardian(c, digest, s)
  }

  predicate ValidSignatures(c: Crypto, digest: bytes32, ss: seq<Signature>) {
    Ascending(ss) && forall i | 0 <= i < |ss| :: SignedByGuardian(c, digest, ss[i])
  }

  predicate HasQuorum(c: Crypto, v: Vaa) {
    |v.signatures| >= GUARDIAN_QUORUM && ValidSignatures(c, SigningDigest(c, v.body), v.signatures)
  }

  lemma Extend(c: Crypto, digest: bytes32, ss: seq<Signature>, k: nat, lastIndex: int)
    requires k < |ss| && ValidSignatures(c, digest, ss[..k])
    requires lastIndex == if k == 0 then -1 else ss[k - 1].guardianIndex
    ensures ValidSignatures(c, digest, ss[..k + 1]) <==>
            lastIndex < ss[k].guardianIndex && SignedByGuardian(c, digest, ss[k])
  {
    var t := ss[..k + 1];
    assert t[k] == ss[k] && forall i | 0 <= i < k :: t[i] == ss[..k][i];
    if k > 0 { assert ss[..k][k - 1] == ss[k - 1]; }
    assert forall i | 0 <= i < k :: ss[..k][i].guardianIndex <= lastIndex;
  }

  lemma Prefix(c: Crypto, digest: bytes32, ss: seq<Signature>, k: nat)
    requires k <= |ss| && !ValidSignatures(c, digest, ss[..k])
    ensures !ValidSignatures(c, digest, ss)
  {
  }

  /** The loop of verifyLikeBase: order, bounds, recovery, address. */
  method CheckLikeBase(c: Crypto, digest: bytes32, ss: seq<Signature>) returns (fault: Option<SignatureFault>)
    ensures fault == None <==> |ss| >= GUARDIAN_QUORUM && ValidSignatures(c, digest, ss)
  {
    if |ss| < GUARDIAN_QUORUM {
      return Some(NoQuorum);
    }
    var lastIndex := -1;
    for k := 0 to |ss|
      invariant ValidSignatures(c, digest, ss[..k])
      invariant lastIndex == if k == 0 then -1 else ss[k - 1].guardianIndex
    {
      var sig := ss[k];
      Extend(c, digest, ss, k, lastIndex);
      if !ValidSignatures(c, digest, ss[..k + 1]) { Prefix(c, digest, ss, k + 1); }
      if sig.guardianIndex <= lastIndex {
        return Some(NotAscending);
      }
      lastIndex := sig.guardianIndex;
      if sig.guardianIndex >= GUARDIAN_SET_SIZE {
        return Some(IndexOutOfBounds);
      }
      var signer := c.recover(digest, sig.r, sig.s, sig.v + 27);
      if signer == None {
        return Some(RecoverFailed);
      }
      if signer.value != c.guardianAddress(sig.guardianIndex) {
        return Some(WrongSigner);
      }
      assert k == 0 || ss[..k][k - 1].guardianIndex >= 0;
    }
    assert ss[..|ss|] == ss;
    fault := None;
  }

  /** Why the executor turns a signature list down from position k on; recovery comes before
      devGuardianAddress refuses an index past 18. */
  function FaultFrom(c: Crypto, digest: bytes32, ss: seq<Signature>, k: nat, lastIndex: int): Option<SignatureFault>
    requires k <= |ss|
    decreases |ss| - k
  {
    if k == |ss| then None
    else if ss[k].guardianIndex <= lastIndex then Some(NotAscending)
    else
      var recovered := c.recover(digest, ss[k].r, ss[k].s, ss[k].v + 27);
      if recovered == None then Some(RecoverFailed)
      else if ss[k].guardianIndex < 0 || ss[k].guardianIndex >= GUARDIAN_SET_SIZE then Some(IndexOutOfBounds)
      else if recovered.value != c.guardianAddress(ss[k].guardianIndex) then Some(WrongSigner)
      else FaultFrom(c, digest, ss, k + 1, ss[k].guardianIndex)
  }

  function ExecutorFault(c: Crypto, v: Vaa): Option<SignatureFault>
  {
    if v.version != 1 then Some(UnsupportedVersion)
    else if |v.signatures| < GUARDIAN_QUORUM then Some(NoQuorum)
    else FaultFrom(c, SigningDigest(c, v.body), v.signatures, 0, -1)
  }

  /** The executor's loop, with its exact fault. */
  method CheckInExecutor(c: Crypto, v: Vaa) returns (fault: Option<SignatureFault>)
    ensures fault == ExecutorFault(c, v)
    ensures fault == None <==> v.version == 1 && HasQuorum(c, v)
  {
    if v.version != 1 {
      return Some(UnsupportedVersion);
    }
    if |v.signatures| < GUARDIAN_QUORUM {
      return Some(NoQuorum);
    }
    var digest, ss := SigningDigest(c, v.body), v.signatures;
    var lastIndex := -1;
    for k := 0 to |ss|
      invariant ValidSignatures(c, digest, ss[..k])
      invariant lastIndex == if k == 0 then -1 else ss[k - 1].guardianIndex
      invariant FaultFrom(c, digest, ss, k, lastIndex) == ExecutorFault(c, v)
    {
      var sig := ss[k];
      Extend(c, digest, ss, k, lastIndex);
      if !ValidSignatures(c, digest, ss[..k + 1]) { Prefix(c, digest, ss, k + 1); }
      if sig.guardianIndex <= lastIndex {
        return Some(NotAscending);
      }
      lastIndex := sig.guardianIndex;
      var recovered := c.recover(digest, sig.r, sig.s, sig.v + 27);
      if recovered == None {
        return Some(RecoverFailed);
      }
      if sig.guardianIndex < 0 || sig.guardianIndex >= GUARDIAN_SET_SIZE {
        return Some(IndexOutOfBounds);
      }
      if recovered.value != c.guardianAddress(sig.guardianIndex) {
        return Some(WrongSigner);
      }
    }
    assert ss[..|ss|] == ss;
    fault := None;
  }

  /** Where the executor's loop stops, and why: at the first signature that does not go on with a larger
      index, does not recover, names no guardian or recovers to another address. */
  lemma {:induction false} FaultAt(c: Crypto, digest: bytes32, ss: seq<Signature>, k: nat, lastIndex: int)
    returns (n: nat)
    requires k <= |ss| && ValidSignatures(c, digest, ss[..k])
    requires lastIndex == if k == 0 then -1 else ss[k - 1].guardianIndex
    ensures k <= n <= |ss| && ValidSignatures(c, digest, ss[..n])
    ensures n == |ss| <==> FaultFrom(c, digest, ss, k, lastIndex) == None
    ensures n < |ss| ==>
              var fault := FaultFrom(c, digest, ss, k, lastIndex).value;
              var ascends := ss[n].guardianIndex > if n == 0 then -1 else ss[n - 1].guardianIndex;
              var recovered := c.recover(digest, ss[n].r, ss[n].s, ss[n].v + 27);
              && fault in {NotAscending, RecoverFailed, IndexOutOfBounds, WrongSigner}
              && (fault == NotAscending <==> !ascends)
              && (fault == RecoverFailed <==> ascends && recovered == None)
              && (fault == IndexOutOfBounds <==> ascends && recovered.Some? && !(0 <= ss[n].guardianIndex <= 18))
              && (fault == WrongSigner ==> recovered.Some? && recovered.value != c.guardianAddress(ss[n].guardianIndex))
    decreases |ss| - k
  {
    n := k;
    if k < |ss| {
      Extend(c, digest, ss, k, lastIndex);
      if ValidSignatures(c, digest, ss[..k + 1]) { n := FaultAt(c, digest, ss, k + 1, ss[k].guardianIndex); }
    }
  }

  lemma ExecutorAccepts(c: Crypto, v: Vaa)
    ensures ExecutorFault(c, v) == None <==> v.version == 1 && HasQuorum(c, v)
    ensures ExecutorFault(c, v).Some? ==>
              && (ExecutorFault(c, v).value == UnsupportedVersion <==> v.version != 1)
              && (ExecutorFault(c, v).value == NoQuorum <==> v.version == 1 && |v.signatures| < 13)
  {
    hide SigningDigest;
    var digest, ss := SigningDigest(c, v.body), v.signatures;
    assert ss[..0] == [] && ss[..|ss|] == ss;
    var n := FaultAt(c, digest, ss, 0, -1);
    if n < |ss| && ValidSignatures(c, digest, ss) { assert SignedByGuardian(c, digest, ss[n]); }
  }

  /** verify-evidence keeps a flag and goes on past a missing quorum; only a thrown error ends it early. */
  method CheckInEvidence(c: Crypto, v: Vaa) returns (ok: Result<bool, SignatureFault>)
    ensures ok == Ok(true) <==> v.version == 1 && HasQuorum(c, v)
  {
    hide SigningDigest;
    var digest, ss := SigningDigest(c, v.body), v.signatures;
    var sigsOk := v.version == 1 && |ss| >= GUARDIAN_QUORUM;
    var last := -1;
    for k := 0 to |ss|
      invariant ValidSignatures(c, digest, ss[..k])
      invariant sigsOk == (v.version == 1 && |ss| >= GUARDIAN_QUORUM)
      invariant last == if k == 0 then -1 else ss[k - 1].guardianIndex
    {
      var sig := ss[k];
      Extend(c, digest, ss, k, last);
      if !ValidSignatures(c, digest, ss[..k + 1]) { Prefix(c, digest, ss, k + 1); }
      if sig.guardianIndex <= last {
        return Ok(false);
      }
      last := sig.guardianIndex;
      var recovered := c.recover(digest, sig.r, sig.s, sig.v + 27);
      if recovered == None {
        return Err(RecoverFailed);
      }
      if sig.guardianIndex < 0 || sig.guardianIndex >= GUARDIAN_SET_SIZE {
        return Err(IndexOutOfBounds);
      }
      if recovered.value != c.guardianAddress(sig.guardianIndex) {
        return Ok(false);
      }
    }
    assert ss[..|ss|] == ss;
    ok := Ok(sigsOk);
  }

  // -------------------------------------------------------------------------
  // What a quorum means
  // -------------------------------------------------------------------------

  ghost function Signers(v: Vaa): set<int> { set s | s in v.signatures :: s.guardianIndex }

  lemma {:induction false} AscendingAreDistinct(ss: seq<Signature>)
    requires Ascending(ss)
    ensures |set s | s in ss :: s.guardianIndex| == |ss|
  {
    if ss != [] {
      var n := |ss| - 1;
      var init := ss[..n];
      AscendingAreDistinct(init);
      var all, some := set s | s in ss :: s.guardianIndex, set s | s in init :: s.guardianIndex;
      assert ss == init + [ss[n]];
      assert all == some + {ss[n].guardianIndex};
      assert ss[n].guardianIndex !in some;
    }
  }

  ghost function Range(n: nat): set<int> { if n == 0 then {} else Range(n - 1) + {n - 1} }

  lemma {:induction false} InRangeSet(x: int, n: nat)
    requires 0 <= x < n
    ensures x in Range(n)
  {
    if x < n - 1 { InRangeSet(x, n - 1); }
  }

  lemma {:induction false} SubsetOfRange(s: set<int>, n: nat)
    requires s <= Range(n)
    ensures |s| <= n
    decreases n
  {
    if n > 0 {
      var rest := s - {n - 1};
      SubsetOfRange(rest, n - 1);
      assert s <= rest + {n - 1};
      assert |s| <= |rest| + 1;
    }
  }

  /** At least 13 different guardians of the 19 signed. */
  lemma QuorumSigners(c: Crypto, v: Vaa)
    requires HasQuorum(c, v)
    ensures |Signers(v)| >= 13 && forall g <- Signers(v) :: 0 <= g < 19
    ensures forall g <- Signers(v) :: exists s <- v.signatures ::
              s.guardianIndex == g && RecoversToGuardian(c, SigningDigest(c, v.body), s)
  {
    AscendingAreDistinct(v.signatures);
    forall g | g in Signers(v)
      ensures 0 <= g < 19 && exists s <- v.signatures ::
                s.guardianIndex == g && RecoversToGuardian(c, SigningDigest(c, v.body), s)
    {
      var s :| s in v.signatures && s.guardianIndex == g;
      assert SignedByGuardian(c, SigningDigest(c, v.body), s);
    }
  }

  /** Any two accepted messages, even conflicting ones, share at least seven signers. */
  lemma QuorumsOverlap(c: Crypto, v: Vaa, w: Vaa)
    requires HasQuorum(c, v) && HasQuorum(c, w)
    ensures |Signers(v) * Signers(w)| >= 7
  {
    var a, b := Signers(v), Signers(w);
    QuorumSigners(c, v);
    QuorumSigners(c, w);
    forall g | g in a + b ensures g in Range(19) { InRangeSet(g, 19); }
    SubsetOfRange(a + b, 19);
    assert |a + b| == |a| + |b| - |a * b|;
  }

  // -------------------------------------------------------------------------
  // Signing
  // -------------------------------------------------------------------------

  function InsertIndex(x: int, s: seq<int>): (r: seq<int>)
    ensures multiset(r) == multiset(s) + multiset{x} && |r| == |s| + 1
  {
    if s == [] || x <= s[0] then [x] + s
    else
      assert s == [s[0]] + s[1..];
      [s[0]] + InsertIndex(x, s[1..])
  }

  /** [...indices].sort((a, b) => a - b) */
  function SortIndices(s: seq<int>): (r: seq<int>)
    ensures multiset(r) == multiset(s) && |r| == |s|
  {
    if s == [] then []
    else
      assert s == [s[0]] + s[1..];
      InsertIndex(s[0], SortIndices(s[1..]))
  }

  predicate Nondecreasing(s: seq<int>) { forall i, j | 0 <= i < j < |s| :: s[i] <= s[j] }

  lemma {:induction false} InsertKeepsOrder(x: int, s: seq<int>)
    requires Nondecreasing(s)
    ensures Nondecreasing(InsertIndex(x, s))
  {
    if s != [] && x > s[0] {
      InsertKeepsOrder(x, s[1..]);
      var r := InsertIndex(x, s[1..]);
      forall j | 0 <= j < |r|
        ensures s[0] <= r[j]
      {
        assert r[j] in multiset(r);
        assert r[j] == x || r[j] in s[1..];
      }
    }
  }

  lemma {:induction false} SortOrders(s: seq<int>)
    ensures Nondecreasing(SortIndices(s))
  {
    if s != [] {
      SortOrders(s[1..]);
      InsertKeepsOrder(s[0], SortIndices(s[1..]));
    }
  }

  lemma {:induction false} AlreadySorted(s: seq<int>)
    requires Nondecreasing(s)
    ensures SortIndices(s) == s
  {
    if s != [] {
      AlreadySorted(s[1..]);
      assert s == [s[0]] + s[1..];
    }
  }

  function SignatureOf(c: Crypto, digest: bytes32, i: int): Signature
  {
    var (r, s, v) := c.sign(digest, i);
    Signature(i, r, s, v - 27)
  }

  predicate KnownIndices(indices: seq<int>) { forall i <- indices :: 0 <= i < GUARDIAN_SET_SIZE }

  datatype SignError = GuardianIndexOutOfRange

  /** signVaaWithDevGuardians: one signature per index, in ascending index order. */
  method SignWithDevGuardians(c: Crypto, body: Body, indices: seq<int>) returns (r: Result<Vaa, SignError>)
    ensures r.Ok? <==> KnownIndices(indices)
    ensures r.Ok? ==> r.value == SignedVaa(c, body, indices)
  {
    var digest := SigningDigest(c, body);
    var sorted := SortIndices(indices);
    var signatures: seq<Signature> := [];
    for k := 0 to |sorted|
      invariant signatures == seq(k, j requires 0 <= j < k => SignatureOf(c, digest, sorted[j]))
      invariant forall j | 0 <= j < k :: 0 <= sorted[j] < GUARDIAN_SET_SIZE
    {
      var gi := sorted[k];
      assert gi in multiset(sorted);
      if gi < 0 || gi >= GUARDIAN_SET_SIZE {
        assert gi in indices;
        return Err(GuardianIndexOutOfRange);
      }
      var (sr, ss, sv) := c.sign(digest, gi);
      signatures := signatures + [Signature(gi, sr, ss, sv - 27)];
    }
    forall i | i in indices
      ensures 0 <= i < GUARDIAN_SET_SIZE
    {
      assert i in multiset(sorted);
      var j :| 0 <= j < |sorted| && sorted[j] == i;
    }
    r := Ok(Vaa(1, 0, signatures, body));
  }

  function SignedVaa(c: Crypto, body: Body, indices: seq<int>): Vaa
  {
    var sorted := SortIndices(indices);
    Vaa(1, 0, seq(|sorted|, j requires 0 <= j < |sorted| => SignatureOf(c, SigningDigest(c, body), sorted[j])), body)
  }

  predicate Distinct(s: seq<int>) { forall i, j | 0 <= i < j < |s| :: s[i] != s[j] }

  lemma DistinctByMultiset(s: seq<int>, t: seq<int>)
    requires multiset(s) == multiset(t) && Distinct(s)
    ensures Distinct(t)
  {
    forall i, j | 0 <= i < j < |t|
      ensures t[i] != t[j]
    {
      OnceInDistinct(s, t[i]);
      TwiceIfEqual(t, i, j);
    }
  }

  lemma TwiceIfEqual(t: seq<int>, i: nat, j: nat)
    requires i < j < |t|
    ensures t[i] == t[j] ==> multiset(t)[t[i]] >= 2
  {
    assert t == t[..i] + [t[i]] + t[i + 1..j] + [t[j]] + t[j + 1..];
  }

  lemma {:induction false} OnceInDistinct(s: seq<int>, x: int)
    requires Distinct(s)
    ensures multiset(s)[x] <= 1
  {
    if s != [] {
      OnceInDistinct(s[1..], x);
      assert s == [s[0]] + s[1..];
      assert s[0] !in s[1..];
    }
  }

  /** Dev-guardian signing is accepted by every quorum loop exactly when at least 13 different known
      guardians signed, whatever order they were named in. */
  lemma SignedIsAccepted(c: Crypto, body: Body, indices: seq<int>)
    requires SignaturesRecover(c) && KnownIndices(indices)
    ensures HasQuorum(c, SignedVaa(c, body, indices)) <==> |indices| >= 13 && Distinct(indices)
  {
    var digest, sorted := SigningDigest(c, body), SortIndices(indices);
    var ss := SignedVaa(c, body, indices).signatures;
    SortOrders(indices);
    forall k | 0 <= k < |ss|
      ensures SignedByGuardian(c, digest, ss[k])
    {
      assert sorted[k] in multiset(sorted);
      assert sorted[k] in indices;
      var (r, s, v) := c.sign(digest, sorted[k]);
    }
    if Distinct(indices) {
      DistinctByMultiset(indices, sorted);
    }
    if Ascending(ss) {
      forall i, j | 0 <= i < j < |sorted| ensures sorted[i] != sorted[j] {
        assert ss[i].guardianIndex < ss[j].guardianIndex;
      }
      DistinctByMultiset(sorted, indices);
    }
  }

  const DEFAULT_INDICES: seq<int> := [0, 1, 2, 4, 5, 7, 8, 10, 11, 13, 15, 16, 18]

  /** Thirteen different guardians are a quorum, and leaving out the last one is not. */
  lemma ThirteenSuffice(c: Crypto, body: Body, d: seq<int>)
    requires SignaturesRecover(c) && |d| == 13 && KnownIndices(d) && Distinct(d)
    ensures HasQuorum(c, SignedVaa(c, body, d)) && !HasQuorum(c, SignedVaa(c, body, d[..12]))
  {
    SignedIsAccepted(c, body, d);
    assert forall i <- d[..12] :: i in d;
    SignedIsAccepted(c, body, d[..12]);
  }

  lemma DefaultIndicesAreDistinct(d: seq<int>)
    requires d == DEFAULT_INDICES
    ensures |d| == 13 && KnownIndices(d) && Distinct(d) && Nondecreasing(d)
  {
  }
}
