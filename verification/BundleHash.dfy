/** Length-prefixed hash framing of the mainnet attestor (apps/mainnet-attestor/src/common.ts). */
module BundleHash {
  import opened Bytes
  import opened Text
  import opened CanonicalJson

  /** What sha256(...segments) feeds to the hash: a four-byte length before every segment. */
  function Frame(segments: seq<bytes>): bytes
  {
    if segments == [] then [] else Be(|segments[0]|, 4) + segments[0] + Frame(segments[1..])
  }

  /** writeUInt32BE accepts the length. */
  predicate Framable(segments: seq<bytes>) { forall s <- segments :: |s| < 0x1_0000_0000 }

  datatype FrameError = LengthOutOfRange

  method HashedBytes(segments: seq<bytes>) returns (r: Result<bytes, FrameError>)
    ensures r == if Framable(segments) then Ok(Frame(segments)) else Err(LengthOutOfRange)
  {
    hide Frame, Be;
    var fed: bytes := [];
    assert segments[0..] == segments;
    for i := 0 to |segments|
      invariant Framable(segments[..i]) && fed + Frame(segments[i..]) == Frame(segments)
    {
      var s := segments[i];
      if |s| >= 0x1_0000_0000 {
        assert s in segments;
        return Err(LengthOutOfRange);
      }
      FrameFrom(segments, i, fed);
      fed := fed + Be(|s|, 4) + s;
    }
    assert segments[..|segments|] == segments;
    FrameEnd(segments, fed);
    r := Ok(fed);
  }

  lemma FrameFrom(segments: seq<bytes>, i: nat, fed: bytes)
    requires i < |segments|
    ensures fed + Frame(segments[i..]) == fed + Be(|segments[i]|, 4) + segments[i] + Frame(segments[i + 1..])
  {
    assert segments[i..][1..] == segments[i + 1..];
  }

  lemma FrameEnd(segments: seq<bytes>, fed: bytes)
    ensures fed + Frame(segments[|segments|..]) == fed
  {
  }

  /** The hashed bytes determine how many segments there were and what each of them was. */
  lemma {:induction false} FrameInjective(a: seq<bytes>, b: seq<bytes>)
    requires Framable(a) && Framable(b) && Frame(a) == Frame(b)
    ensures a == b
  {
    if a != [] && b != [] {
      var x, y := a[0], b[0];
      assert Frame(a)[..4] == Be(|x|, 4) && Frame(b)[..4] == Be(|y|, 4);
      Widths();
      UnsignedRoundTrip(|x|, 4);
      UnsignedRoundTrip(|y|, 4);
      assert |x| == |y|;
      var f := Frame(a);
      assert f[4..4 + |x|] == x && f[4..4 + |y|] == y;
      assert f[4 + |x|..] == Frame(a[1..]) && f[4 + |y|..] == Frame(b[1..]);
      FrameInjective(a[1..], b[1..]);
      assert a == [x] + a[1..] && b == [y] + b[1..];
    }
  }

  datatype Bundle = Bundle(rawResponse: string, strategy: Json, rootPda: string, finalRecord: Json)

  /** The four segments of bundleHash, in order. */
  function Segments(b: Bundle): seq<bytes>
  {
    [Utf8(b.rawResponse), Utf8(CanonicalMainnet(b.strategy)), Utf8(b.rootPda), Utf8(CanonicalMainnet(b.finalRecord))]
  }

  function Prefixed(s: bytes): bytes { Be(|s|, 4) + s }

  /** THE HASHED BYTES: response, strategy, root and record, each behind its length in four bytes. */
  lemma HashedSegments(b: Bundle)
    requires Valid(b.strategy) && Valid(b.finalRecord)
    ensures Frame(Segments(b)) ==
            Prefixed(Utf8(b.rawResponse)) +
            (Prefixed(Utf8(Canonical(b.strategy))) +
             (Prefixed(Utf8(b.rootPda)) + Prefixed(Utf8(Canonical(b.finalRecord)))))
  {
    hide Frame, Prefixed, Utf8, Canonical, CanonicalMainnet, Valid;
    CopiesAgree(b.strategy);
    CopiesAgree(b.finalRecord);
    FourFramed(Utf8(b.rawResponse), Utf8(Canonical(b.strategy)), Utf8(b.rootPda), Utf8(Canonical(b.finalRecord)));
  }

  lemma FrameFirst(segments: seq<bytes>)
    ensures Frame([]) == []
    ensures segments != [] ==> Frame(segments) == Prefixed(segments[0]) + Frame(segments[1..])
  {
    hide Be;
  }

  lemma FourFramed(r: bytes, s: bytes, p: bytes, f: bytes)
    ensures Frame([r, s, p, f]) == Prefixed(r) + (Prefixed(s) + (Prefixed(p) + Prefixed(f)))
  {
    hide Frame, Prefixed;
    assert [r, s, p, f][1..] == [s, p, f] && [s, p, f][1..] == [p, f] && [p, f][1..] == [f] && [f][1..] == [];
    FrameFirst([r, s, p, f]);
    FrameFirst([s, p, f]);
    FrameFirst([p, f]);
    FrameFirst([f]);
  }

  /** Two bundles are hashed from the same bytes exactly when the raw responses and roots are equal and
      the strategies and final records are equal up to key order. */
  lemma BundlePreimageDetermines(a: Bundle, b: Bundle)
    requires Valid(a.strategy) && Valid(a.finalRecord) && Valid(b.strategy) && Valid(b.finalRecord)
    requires Framable(Segments(a)) && Framable(Segments(b))
    ensures Frame(Segments(a)) == Frame(Segments(b)) <==>
            && a.rawResponse == b.rawResponse && a.rootPda == b.rootPda
            && Same(a.strategy, b.strategy) && Same(a.finalRecord, b.finalRecord)
  {
    CopiesAgree(a.strategy);
    CopiesAgree(b.strategy);
    CopiesAgree(a.finalRecord);
    CopiesAgree(b.finalRecord);
    CanonicalIffSame(a.strategy, b.strategy);
    CanonicalIffSame(a.finalRecord, b.finalRecord);
    if Frame(Segments(a)) == Frame(Segments(b)) {
      FrameInjective(Segments(a), Segments(b));
      assert forall i | 0 <= i < 4 :: Segments(a)[i] == Segments(b)[i];
      Utf8Injective(a.rawResponse, b.rawResponse);
      Utf8Injective(CanonicalMainnet(a.strategy), CanonicalMainnet(b.strategy));
      Utf8Injective(a.rootPda, b.rootPda);
      Utf8Injective(CanonicalMainnet(a.finalRecord), CanonicalMainnet(b.finalRecord));
    }
  }
}
