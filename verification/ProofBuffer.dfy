/** Staged proof upload: chunking and staging (apps/proof-uploader/src/chunk-proof.ts), the file-backed
    buffer (apps/proof-uploader/src/proof-buffer-adapter.ts) and the on-chain buffer it stands for
    (programs/proofline-adapter/.../instructions/proof_buffer.rs). */
module ProofBuffer {
  import opened Bytes
  import CanonicalJson
  import Text

  // -------------------------------------------------------------------------
  // Hex
  // -------------------------------------------------------------------------

  const HEX_DIGITS := "0123456789abcdef"

  function HexDigit(n: int): char requires 0 <= n < 16 { HEX_DIGITS[n] }

  function DigitValue(c: char): int
  {
    if '0' <= c <= '9' then c as int - '0' as int
    else if 'a' <= c <= 'f' then c as int - 'a' as int + 10
    else if 'A' <= c <= 'F' then c as int - 'A' as int + 10
    else 0
  }

  /** bytesToHex */
  function Hex(b: bytes): (s: string)
    ensures |s| == 2 * |b|
  {
    if b == [] then [] else [HexDigit(b[0] / 16), HexDigit(b[0] % 16)] + Hex(b[1..])
  }

  function FromDigits(s: string): bytes
  {
    if |s| < 2 then [] else [(16 * DigitValue(s[0]) + DigitValue(s[1])) % 256] + FromDigits(s[2..])
  }

  /** hexToBytes: an optional 0x, then two digits a byte. */
  function FromHex(s: string): bytes { if |s| >= 2 && s[..2] == "0x" then FromDigits(s[2..]) else FromDigits(s) }

  lemma DigitRoundTrip(n: int)
    requires 0 <= n < 16
    ensures DigitValue(HexDigit(n)) == n && HexDigit(n) != 'x' && HexDigit(n) == "0123456789abcdef"[n]
    ensures DigitValue("0123456789ABCDEF"[n]) == n
  {
  }

  lemma ByteRoundTrip(x: byte)
    ensures (16 * DigitValue(HexDigit(x / 16)) + DigitValue(HexDigit(x % 16))) % 256 == x
  {
    hide HexDigit, DigitValue;
    DigitRoundTrip(x / 16);
    DigitRoundTrip(x % 16);
  }

  lemma {:induction false} DigitsRoundTrip(b: bytes)
    ensures FromDigits(Hex(b)) == b
  {
    hide HexDigit, DigitValue;
    if b != [] {
      ByteRoundTrip(b[0]);
      assert Hex(b)[2..] == Hex(b[1..]);
      DigitsRoundTrip(b[1..]);
      assert b == [b[0]] + b[1..];
    }
  }

  /** Stored chunks read back byte for byte; none of them looks like it has a 0x prefix. */
  lemma HexRoundTrip(b: bytes)
    ensures FromHex(Hex(b)) == b && FromHex("0x" + Hex(b)) == b
  {
    DigitsRoundTrip(b);
    assert ("0x" + Hex(b))[..2] == "0x" && ("0x" + Hex(b))[2..] == Hex(b);
    if b != [] {
      DigitRoundTrip(b[0] % 16);
      assert Hex(b)[..2][1] == HexDigit(b[0] % 16);
    }
  }

  // -------------------------------------------------------------------------
  // Chunks
  // -------------------------------------------------------------------------

  function Concat(chunks: seq<bytes>): bytes { if chunks == [] then [] else chunks[0] + Concat(chunks[1..]) }

  function Decoded(chunksHex: seq<string>): seq<bytes>
  { seq(|chunksHex|, i requires 0 <= i < |chunksHex| => FromHex(chunksHex[i])) }

  /** The bytes of a buffer. */
  function Uploaded(chunksHex: seq<string>): bytes { Concat(Decoded(chunksHex)) }

  function TotalLength(parts: seq<bytes>): nat { if parts == [] then 0 else |parts[0]| + TotalLength(parts[1..]) }

  lemma {:induction false} ConcatLength(parts: seq<bytes>)
    ensures |Concat(parts)| == TotalLength(parts)
  {
    if parts != [] { ConcatLength(parts[1..]); }
  }

  lemma {:induction false} ConcatAppend(a: seq<bytes>, b: seq<bytes>)
    ensures Concat(a + b) == Concat(a) + Concat(b)
  {
    if a == [] {
      assert a + b == b;
    } else {
      assert (a + b)[1..] == a[1..] + b;
      ConcatAppend(a[1..], b);
    }
  }

  lemma ConcatOne(a: seq<bytes>, x: bytes)
    ensures Concat(a + [x]) == Concat(a) + x
  {
    ConcatAppend(a, [x]);
    assert [x][1..] == [];
  }

  lemma UploadedOne(chunksHex: seq<string>, chunk: bytes)
    ensures Uploaded(chunksHex + [Hex(chunk)]) == Uploaded(chunksHex) + chunk
  {
    HexRoundTrip(chunk);
    assert Decoded(chunksHex + [Hex(chunk)]) == Decoded(chunksHex) + [chunk];
    ConcatOne(Decoded(chunksHex), chunk);
  }

  /** concatChunks: decode every chunk, size the result, copy each part to its offset. */
  method ConcatChunks(chunksHex: seq<string>) returns (out: array<byte>)
    ensures out[..] == Uploaded(chunksHex)
  {
    var parts: seq<bytes> := [];
    var total := 0;
    for i := 0 to |chunksHex|
      invariant parts == Decoded(chunksHex)[..i] && total == |Concat(parts)|
    {
      var part := FromHex(chunksHex[i]);
      ConcatOne(parts, part);
      parts := parts + [part];
      total := total + |part|;
    }
    assert parts == Decoded(chunksHex);
    out := new byte[total](i => 0);
    var off := 0;
    assert parts[..0] == [];
    for i := 0 to |parts|
      invariant off + |Concat(parts[i..])| == total == out.Length
      invariant off == |Concat(parts[..i])| && out[..off] == Concat(parts[..i])
    {
      assert parts[i..][0] == parts[i] && parts[i..][1..] == parts[i + 1..];
      assert parts[..i + 1] == parts[..i] + [parts[i]];
      ConcatOne(parts[..i], parts[i]);
      Put(out, off, parts[i]);
      off := off + |parts[i]|;
    }
    assert parts[..|parts|] == parts && parts[|parts|..] == [];
  }

  function Chunks(b: bytes, size: nat): seq<bytes>
    requires size > 0
    decreases |b|
  {
    if |b| == 0 then [] else if |b| <= size then [b] else [b[..size]] + Chunks(b[size..], size)
  }

  /** Chunks are full except perhaps the last, never empty, and join to the bytes they came from. */
  lemma {:induction false} ChunksJoin(b: bytes, size: nat)
    requires size > 0
    ensures Concat(Chunks(b, size)) == b
    ensures forall i | 0 <= i < |Chunks(b, size)| ::
              0 < |Chunks(b, size)[i]| <= size && (i < |Chunks(b, size)| - 1 ==> |Chunks(b, size)[i]| == size)
    decreases |b|
  {
    if |b| > size {
      ChunksJoin(b[size..], size);
      assert b == b[..size] + b[size..];
    } else if |b| > 0 {
      assert [b][1..] == [];
    }
  }

  function Min(x: int, y: int): int { if x < y then x else y }

  method ChunkBytes(b: bytes, chunkSize: int) returns (r: Result<seq<bytes>, string>)
    ensures r.Ok? <==> chunkSize > 0
    ensures r.Ok? ==> r.value == Chunks(b, chunkSize)
  {
    if chunkSize <= 0 { return Err("chunkSize must be positive"); }
    var chunks: seq<bytes> := [];
    var off := 0;
    while off < |b|
      invariant 0 <= off
      invariant chunks + Chunks(b[Min(off, |b|)..], chunkSize) == Chunks(b, chunkSize)
    {
      var end := Min(off + chunkSize, |b|);
      assert b[off..][..end - off] == b[off..end] && b[off..][end - off..] == b[end..];
      assert end == |b| ==> b[off..] == b[off..end] && b[end..] == [];
      assert Chunks(b[off..], chunkSize) == [b[off..end]] + Chunks(b[end..], chunkSize);
      assert Min(off + chunkSize, |b|) == end;
      chunks := chunks + [b[off..end]];
      off := off + chunkSize;
    }
    r := Ok(chunks);
  }

  // -------------------------------------------------------------------------
  // The file-backed buffer
  // -------------------------------------------------------------------------

  datatype Account = Account(
    address: string, authority: string, chunks: seq<string>, byteLength: nat, sealed: bool, sealedHash: Option<bytes32>)

  datatype BufferError = DoesNotExist | CannotAppendSealed | AlreadySealed | SealHashMismatch | BadChunkSize

  predicate FileNameChar(c: char) {
    'a' <= c <= 'z' || 'A' <= c <= 'Z' || '0' <= c <= '9' || c == ':' || c == '_' || c == '-'
  }

  /** path(address): every other character becomes an underscore. */
  function PathOf(address: string): (p: string)
    ensures |p| == |address|
  {
    if address == "" then "" else [if FileNameChar(address[0]) then address[0] else '_'] + PathOf(address[1..])
  }

  type Files = map<string, Account>

  function Saved(files: Files, a: Account): Files { files[PathOf(a.address) := a] }

  function Load(files: Files, address: string): Result<Account, BufferError>
  {
    if PathOf(address) in files then Ok(files[PathOf(address)]) else Err(DoesNotExist)
  }

  function AfterInit(files: Files, address: string, authority: string): Files
  {
    if PathOf(address) in files then files else Saved(files, Account(address, authority, [], 0, false, None))
  }

  function TryAppend(files: Files, address: string, chunk: bytes): Result<Files, BufferError>
  {
    var a :- Load(files, address);
    if a.sealed then Err(CannotAppendSealed)
    else Ok(Saved(files, a.(chunks := a.chunks + [Hex(chunk)], byteLength := a.byteLength + |chunk|)))
  }

  function TrySeal(keccak: bytes -> bytes32, files: Files, address: string,
                   expected: bytes32): Result<Files, BufferError>
  {
    var a :- Load(files, address);
    if a.sealed then Err(AlreadySealed)
    else if keccak(Uploaded(a.chunks)) != expected then Err(SealHashMismatch)
    else Ok(Saved(files, a.(sealed := true, sealedHash := Some(expected))))
  }

  function TryClose(files: Files, address: string): Result<Files, BufferError>
  {
    var a :- Load(files, address);
    Ok(files - {PathOf(a.address)})
  }

  /** A file is named after the address, character by character. */
  lemma {:induction false} PathSays(address: string, k: nat)
    requires k < |address|
    ensures var c := address[k];
            PathOf(address)[k] ==
            if 'a' <= c <= 'z' || 'A' <= c <= 'Z' || '0' <= c <= '9' || c in ":_-" then c else '_'
  {
    if k > 0 {
      PathSays(address[1..], k - 1);
    }
  }

  /** An absent buffer refuses everything, a sealed one refuses appends and a second seal, and one that is
      not sealed takes every chunk and is sealed exactly by the hash of its bytes. */
  lemma BufferAnswers(keccak: bytes -> bytes32, files: Files, address: string, chunk: bytes, expected: bytes32)
    ensures var append, sealed, closed := TryAppend(files, address, chunk), TrySeal(keccak, files, address, expected),
                                          TryClose(files, address);
            && (PathOf(address) !in files ==>
                  append == Err(DoesNotExist) && sealed == Err(DoesNotExist) && closed == Err(DoesNotExist))
            && (PathOf(address) in files && files[PathOf(address)].sealed ==>
                  append == Err(CannotAppendSealed) && sealed == Err(AlreadySealed) && closed.Ok?)
            && (PathOf(address) in files && !files[PathOf(address)].sealed ==>
                  && append.Ok? && closed.Ok?
                  && (sealed.Ok? <==> keccak(Uploaded(files[PathOf(address)].chunks)) == expected)
                  && (sealed.Err? ==> sealed.error == SealHashMismatch))
  {
  }

  class FileBackedAdapter {
    const keccak: bytes -> bytes32
    /** the address derived from a seed */
    const addressOf: string -> string
    var files: Files

    constructor (keccak: bytes -> bytes32, addressOf: string -> string)
      ensures this.keccak == keccak && this.addressOf == addressOf && files == map[]
    {
      this.keccak, this.addressOf, files := keccak, addressOf, map[];
    }

    method InitializeProofBuffer(seed: string, authority: string) returns (address: string)
      modifies this
      ensures address == addressOf(seed) && files == AfterInit(old(files), address, authority)
    {
      address := addressOf(seed);
      if PathOf(address) !in files {
        Save(Account(address, authority, [], 0, false, None));
      }
    }

    method Save(a: Account)
      modifies this
      ensures files == Saved(old(files), a)
    {
      files := files[PathOf(a.address) := a];
    }

    method AppendProofChunk(address: string, chunk: bytes) returns (r: Result<(), BufferError>)
      modifies this
      ensures match TryAppend(old(files), address, chunk)
              case Ok(next) => r == Ok(()) && files == next
              case Err(e) => r == Err(e) && files == old(files)
    {
      if PathOf(address) !in files { return Err(DoesNotExist); }
      var account := files[PathOf(address)];
      if account.sealed { return Err(CannotAppendSealed); }
      account := account.(chunks := account.chunks + [Hex(chunk)]);
      account := account.(byteLength := account.byteLength + |chunk|);
      Save(account);
      r := Ok(());
    }

    method SealProof(address: string, expected: bytes32) returns (r: Result<(), BufferError>)
      modifies this
      ensures match TrySeal(keccak, old(files), address, expected)
              case Ok(next) => r == Ok(()) && files == next
              case Err(e) => r == Err(e) && files == old(files)
    {
      if PathOf(address) !in files { return Err(DoesNotExist); }
      var account := files[PathOf(address)];
      if account.sealed { return Err(AlreadySealed); }
      var uploaded := ConcatChunks(account.chunks);
      var actual := keccak(uploaded[..]);
      if actual != expected { return Err(SealHashMismatch); }
      account := account.(sealed := true, sealedHash := Some(actual));
      Save(account);
      r := Ok(());
    }

    method CloseProofBuffer(address: string) returns (r: Result<(), BufferError>)
      modifies this
      ensures match TryClose(old(files), address)
              case Ok(next) => r == Ok(()) && files == next
              case Err(e) => r == Err(e) && files == old(files)
    {
      if PathOf(address) !in files { return Err(DoesNotExist); }
      var account := files[PathOf(address)];
      Save(account);
      files := files - {PathOf(account.address)};
      r := Ok(());
    }
  }

  // -------------------------------------------------------------------------
  // Every reachable store
  // -------------------------------------------------------------------------

  datatype Op =
    | Init(address: string, authority: string) | Append(address: string, chunk: bytes)
    | Seal(address: string, expected: bytes32) | Close(address: string)

  function TryOp(keccak: bytes -> bytes32, files: Files, op: Op): Result<Files, BufferError>
  {
    match op
    case Init(address, authority) => Ok(AfterInit(files, address, authority))
    case Append(address, chunk) => TryAppend(files, address, chunk)
    case Seal(address, expected) => TrySeal(keccak, files, address, expected)
    case Close(address) => TryClose(files, address)
  }

  function AfterOp(keccak: bytes -> bytes32, files: Files, op: Op): Files
  {
    match TryOp(keccak, files, op) case Ok(next) => next case Err(_) => files
  }

  function AfterOps(keccak: bytes -> bytes32, files: Files, ops: seq<Op>): Files
    decreases |ops|
  {
    if ops == [] then files else AfterOp(keccak, AfterOps(keccak, files, ops[..|ops| - 1]), ops[|ops| - 1])
  }

  /** A stored account: filed under its own address, its length that of its bytes, and its seal the
      hash of its bytes. */
  predicate AccountInv(keccak: bytes -> bytes32, path: string, a: Account) {
    && PathOf(a.address) == path
    && a.byteLength == |Uploaded(a.chunks)|
    && a.sealedHash == (if a.sealed then Some(keccak(Uploaded(a.chunks))) else None)
  }

  predicate StoreInv(keccak: bytes -> bytes32, files: Files) {
    forall p | p in files :: AccountInv(keccak, p, files[p])
  }

  /** No operation but closing it changes a sealed buffer. */
  lemma OpKeeps(keccak: bytes -> bytes32, files: Files, op: Op, path: string)
    requires StoreInv(keccak, files)
    ensures StoreInv(keccak, AfterOp(keccak, files, op))
    ensures path in files && files[path].sealed && !(op.Close? && PathOf(op.address) == path) ==>
              path in AfterOp(keccak, files, op) && AfterOp(keccak, files, op)[path] == files[path]
  {
    hide Uploaded, Hex;
    if op.Append? && PathOf(op.address) in files {
      UploadedOne(files[PathOf(op.address)].chunks, op.chunk);
    }
    if op.Init? { NothingUploaded(); }
  }

  lemma NothingUploaded()
    ensures Uploaded([]) == []
  {
  }

  lemma {:induction false} OpsKeep(keccak: bytes -> bytes32, files: Files, ops: seq<Op>, path: string)
    requires StoreInv(keccak, files)
    ensures StoreInv(keccak, AfterOps(keccak, files, ops))
    ensures path in files && files[path].sealed && (forall op <- ops :: !(op.Close? && PathOf(op.address) == path)) ==>
              path in AfterOps(keccak, files, ops) && AfterOps(keccak, files, ops)[path] == files[path]
    decreases |ops|
  {
    hide StoreInv, AfterOp;
    if ops != [] {
      var init := ops[..|ops| - 1];
      assert forall op <- init :: op in ops;
      OpsKeep(keccak, files, init, path);
      OpKeeps(keccak, AfterOps(keccak, files, init), ops[|ops| - 1], path);
    }
  }

  // -------------------------------------------------------------------------
  // Staging a bundle
  // -------------------------------------------------------------------------

  /** Appends in order until one throws. */
  function AppendAll(files: Files, address: string, chunks: seq<bytes>): (Files, Option<BufferError>)
    decreases |chunks|
  {
    if chunks == [] then (files, None)
    else
      var (before, failed) := AppendAll(files, address, chunks[..|chunks| - 1]);
      if failed.Some? then (before, failed)
      else
        match TryAppend(before, address, chunks[|chunks| - 1])
        case Ok(next) => (next, None)
        case Err(e) => (before, Some(e))
  }

  /** The bytes a bundle is staged as, and what its hash is taken of. */
  function CanonicalBytes(bundle: CanonicalJson.Json): bytes { Text.Utf8(CanonicalJson.Canonical(bundle)) }

  /** stageProofBundle: canonicalize, open or find the buffer, then upload chunk after chunk; whatever was
      uploaded before an error stays. */
  method StageProofBundle(adapter: FileBackedAdapter, bundle: CanonicalJson.Json, seed: string, authority: string,
                          chunkSize: int)
    returns (address: string, chunkCount: nat, byteLength: nat, expectedHash: bytes32, error: Option<BufferError>)
    modifies adapter
    ensures address == adapter.addressOf(seed) && byteLength == |CanonicalBytes(bundle)|
    ensures expectedHash == adapter.keccak(CanonicalBytes(bundle))
    ensures chunkSize > 0 ==>
      (adapter.files, error) ==
      AppendAll(AfterInit(old(adapter.files), address, authority), address, Chunks(CanonicalBytes(bundle), chunkSize))
    ensures chunkSize > 0 && error == None ==> chunkCount == |Chunks(CanonicalBytes(bundle), chunkSize)|
    ensures chunkSize > 0 && error.Some? ==>
      var chunks := Chunks(CanonicalBytes(bundle), chunkSize);
      && chunkCount < |chunks|
      && AppendAll(AfterInit(old(adapter.files), address, authority), address, chunks[..chunkCount]).1 == None
      && AppendAll(AfterInit(old(adapter.files), address, authority), address, chunks[..chunkCount + 1]).1 == error
    ensures chunkSize <= 0 ==>
              error == Some(BadChunkSize) && adapter.files == AfterInit(old(adapter.files), address, authority)
  {
    hide CanonicalBytes, Chunks, AppendAll, AfterInit;
    var canonical := CanonicalBytes(bundle);
    byteLength, expectedHash, chunkCount := |canonical|, adapter.keccak(canonical), 0;
    address := adapter.InitializeProofBuffer(seed, authority);
    var chunked := ChunkBytes(canonical, chunkSize);
    if chunked.Err? { error := Some(BadChunkSize); return; }
    chunkCount, error := UploadChunks(adapter, address, chunked.value);
  }

  /** The loop: chunk after chunk until one fails. */
  method UploadChunks(adapter: FileBackedAdapter, address: string, chunks: seq<bytes>)
    returns (chunkCount: nat, error: Option<BufferError>)
    modifies adapter
    ensures (adapter.files, error) == AppendAll(old(adapter.files), address, chunks)
    ensures error == None ==> chunkCount == |chunks|
    ensures error.Some? ==>
      && chunkCount < |chunks| && AppendAll(old(adapter.files), address, chunks[..chunkCount]).1 == None
      && AppendAll(old(adapter.files), address, chunks[..chunkCount + 1]).1 == error
  {
    hide TryAppend;
    chunkCount, error := 0, None;
    for i := 0 to |chunks|
      invariant chunkCount == i
      invariant AppendAll(old(adapter.files), address, chunks[..i]) == (adapter.files, None)
    {
      AppendNext(old(adapter.files), address, chunks, i);
      var res := adapter.AppendProofChunk(address, chunks[i]);
      if res.Err? {
        StopsThere(old(adapter.files), address, chunks, i + 1);
        return chunkCount, Some(res.error);
      }
      chunkCount := chunkCount + 1;
    }
    assert chunks[..|chunks|] == chunks;
  }

  lemma AppendNext(files: Files, address: string, chunks: seq<bytes>, i: nat)
    requires i < |chunks| && AppendAll(files, address, chunks[..i]).1 == None
    ensures var before := AppendAll(files, address, chunks[..i]).0;
            AppendAll(files, address, chunks[..i + 1]) ==
            match TryAppend(before, address, chunks[i]) case Ok(next) => (next, None) case Err(e) => (before, Some(e))
  {
    hide TryAppend;
    assert chunks[..i + 1][..i] == chunks[..i];
  }

  lemma {:induction false} StopsThere(files: Files, address: string, chunks: seq<bytes>, n: nat)
    requires n <= |chunks| && AppendAll(files, address, chunks[..n]).1.Some?
    ensures AppendAll(files, address, chunks) == AppendAll(files, address, chunks[..n])
    decreases |chunks|
  {
    if n < |chunks| {
      var init := chunks[..|chunks| - 1];
      assert init[..n] == chunks[..n];
      StopsThere(files, address, init, n);
    } else {
      assert chunks[..n] == chunks;
    }
  }

  lemma {:induction false} AppendsTo(files: Files, address: string, chunks: seq<bytes>)
    requires PathOf(address) in files && !files[PathOf(address)].sealed
    requires PathOf(files[PathOf(address)].address) == PathOf(address)
    ensures AppendAll(files, address, chunks).1 == None
    ensures var p, next := PathOf(address), AppendAll(files, address, chunks).0;
            && p in next && !next[p].sealed && next[p].address == files[p].address
            && Uploaded(next[p].chunks) == Uploaded(files[p].chunks) + Concat(chunks)
    decreases |chunks|
  {
    hide Uploaded, Hex;
    if chunks != [] {
      var n := |chunks| - 1;
      AppendsTo(files, address, chunks[..n]);
      var before := AppendAll(files, address, chunks[..n]).0;
      UploadedOne(before[PathOf(address)].chunks, chunks[n]);
      ConcatOne(chunks[..n], chunks[n]);
      assert chunks == chunks[..n] + [chunks[n]];
    }
  }

  lemma {:induction false} SealedRefuses(files: Files, address: string, chunks: seq<bytes>)
    requires PathOf(address) in files && files[PathOf(address)].sealed
    ensures AppendAll(files, address, chunks) == (files, if chunks == [] then None else Some(CannotAppendSealed))
    decreases |chunks|
  {
    if chunks != [] {
      SealedRefuses(files, address, chunks[..|chunks| - 1]);
    }
  }

  function StageThenSeal(keccak: bytes -> bytes32, files: Files, address: string, authority: string, canonical: bytes,
                         size: nat):
    Result<Files, BufferError>
    requires size > 0
  {
    var (staged, failed) := AppendAll(AfterInit(files, address, authority), address, Chunks(canonical, size));
    if failed.Some? then Err(failed.value) else TrySeal(keccak, staged, address, keccak(canonical))
  }

  /** What the buffer at an address already holds. */
  function Prior(files: Files, address: string): bytes
  {
    if PathOf(address) in files then Uploaded(files[PathOf(address)].chunks) else []
  }

  /** Staging a bundle and sealing it with its own hash succeeds exactly when the buffer is not sealed
      yet and what it held before does not change the hash: on a fresh buffer always, for every bundle
      and chunk size. Then the buffer holds what it held before, followed by the canonical bytes. */
  lemma StagingSealsIff(keccak: bytes -> bytes32, files: Files, address: string, authority: string, canonical: bytes,
                        size: nat)
    requires size > 0 && StoreInv(keccak, files)
    ensures var r := StageThenSeal(keccak, files, address, authority, canonical, size);
            && (r.Ok? <==> && (PathOf(address) in files ==> !files[PathOf(address)].sealed)
                           && keccak(Prior(files, address) + canonical) == keccak(canonical))
            && (r.Ok? ==> && PathOf(address) in r.value && r.value[PathOf(address)].sealed
                          && Uploaded(r.value[PathOf(address)].chunks) == Prior(files, address) + canonical
                          && r.value[PathOf(address)].sealedHash == Some(keccak(canonical)))
  {
    hide Uploaded, Chunks;
    var start := AfterInit(files, address, authority);
    var chunks := Chunks(canonical, size);
    NothingUploaded();
    ChunksJoin(canonical, size);
    if PathOf(address) in files && files[PathOf(address)].sealed {
      SealedRefuses(start, address, chunks);
    } else {
      AppendsTo(start, address, chunks);
    }
  }

  lemma FreshStagingSeals(keccak: bytes -> bytes32, files: Files, address: string, authority: string, canonical: bytes,
                          size: nat)
    requires size > 0 && StoreInv(keccak, files) && PathOf(address) !in files
    ensures var r := StageThenSeal(keccak, files, address, authority, canonical, size);
            r.Ok? && PathOf(address) in r.value && Uploaded(r.value[PathOf(address)].chunks) == canonical
  {
    hide Uploaded, StageThenSeal;
    StagingSealsIff(keccak, files, address, authority, canonical, size);
    assert [] + canonical == canonical;
  }

  // -------------------------------------------------------------------------
  // The on-chain buffer
  // -------------------------------------------------------------------------

  datatype ChainError = CapacityOutOfRange | BufferSealed | EmptyChunk | BufferCapacityExceeded | EmptyProof
                      | UploaderMismatch | AlreadyInUse | NoAccount

  datatype ChainBuffer = ChainBuffer(uploader: bytes32, capacity: nat, sealed: bool, expectedHash: bytes32, data: bytes)

  function TryAppendOnChain(b: ChainBuffer, uploader: bytes32, chunk: bytes): Result<ChainBuffer, ChainError>
  {
    if uploader != b.uploader then Err(UploaderMismatch)
    else if b.sealed then Err(BufferSealed)
    else if chunk == [] then Err(EmptyChunk)
    else if |b.data| + |chunk| > b.capacity then Err(BufferCapacityExceeded)
    else Ok(b.(data := b.data + chunk))
  }

  function TrySealOnChain(b: ChainBuffer, uploader: bytes32, expected: bytes32): Result<ChainBuffer, ChainError>
  {
    if uploader != b.uploader then Err(UploaderMismatch)
    else if b.sealed then Err(BufferSealed)
    else if b.data == [] then Err(EmptyProof)
    else Ok(b.(expectedHash := expected, sealed := true))
  }

  class ProofBufferAccount {
    const uploader: bytes32
    const capacity: nat
    var sealed: bool
    var expectedHash: bytes32
    var data: bytes

    ghost function View(): ChainBuffer reads this { ChainBuffer(uploader, capacity, sealed, expectedHash, data) }

    constructor (uploader: bytes32, capacity: nat)
      ensures View() == ChainBuffer(uploader, capacity, false, seq(32, i => 0), [])
    {
      this.uploader, this.capacity := uploader, capacity;
      sealed, expectedHash, data := false, seq(32, i => 0), [];
    }

    method AppendProofChunk(signer: bytes32, chunk: bytes) returns (r: Result<(), ChainError>)
      modifies this
      ensures match TryAppendOnChain(old(View()), signer, chunk)
              case Ok(next) => r == Ok(()) && View() == next
              case Err(e) => r == Err(e) && View() == old(View())
    {
      if signer != uploader { return Err(UploaderMismatch); }
      if sealed { return Err(BufferSealed); }
      if chunk == [] { return Err(EmptyChunk); }
      if |data| + |chunk| > capacity { return Err(BufferCapacityExceeded); }
      data := data + chunk;
      r := Ok(());
    }

    method SealProof(signer: bytes32, expected: bytes32) returns (r: Result<(), ChainError>)
      modifies this
      ensures match TrySealOnChain(old(View()), signer, expected)
              case Ok(next) => r == Ok(()) && View() == next
              case Err(e) => r == Err(e) && View() == old(View())
    {
      if signer != uploader { return Err(UploaderMismatch); }
      if sealed { return Err(BufferSealed); }
      if data == [] { return Err(EmptyProof); }
      expectedHash := expected;
      sealed := true;
      r := Ok(());
    }
  }

  const MAX_CAPACITY := 10_000

  /** A capacity outside 1..MAX_CAPACITY creates no account. */
  method InitializeProofBuffer(uploader: bytes32, capacity: nat) returns (r: Result<ProofBufferAccount, ChainError>)
    ensures r.Ok? <==> 0 < capacity <= MAX_CAPACITY
    ensures r.Ok? ==> fresh(r.value) && r.value.View() == ChainBuffer(uploader, capacity, false, seq(32, i => 0), [])
    ensures r.Err? ==> r.error == CapacityOutOfRange
  {
    if !(capacity > 0 && capacity <= MAX_CAPACITY) { return Err(CapacityOutOfRange); }
    var account := new ProofBufferAccount(uploader, capacity);
    r := Ok(account);
  }

  /** The account at one address: its seeds name the uploader, who alone can sign for it. */
  datatype ChainOp =
    | ChainInit(capacity: nat) | ChainAppend(signer: bytes32, chunk: bytes)
    | ChainSeal(signer: bytes32, expected: bytes32) | ChainClose(signer: bytes32)

  function NoHash(): bytes32 { seq(32, i => 0) }

  function TryChainOp(uploader: bytes32, account: Option<ChainBuffer>,
                      op: ChainOp): Result<Option<ChainBuffer>, ChainError>
  {
    match op
    case ChainInit(capacity) =>
      if account.Some? then Err(AlreadyInUse)
      else if !(0 < capacity <= MAX_CAPACITY) then Err(CapacityOutOfRange)
      else Ok(Some(ChainBuffer(uploader, capacity, false, NoHash(), [])))
    case ChainAppend(signer, chunk) =>
      if account == None then Err(NoAccount)
      else (match TryAppendOnChain(account.value, signer, chunk) case Ok(b) => Ok(Some(b)) case Err(e) => Err(e))
    case ChainSeal(signer, expected) =>
      if account == None then Err(NoAccount)
      else (match TrySealOnChain(account.value, signer, expected) case Ok(b) => Ok(Some(b)) case Err(e) => Err(e))
    case ChainClose(signer) =>
      if account == None then Err(NoAccount)
      else if signer != account.value.uploader then Err(UploaderMismatch)
      else Ok(None)
  }

  /** An instruction goes through exactly when the address is free and the capacity in bounds, or the
      account is there, its uploader signs, and: it is open and the chunk is not empty and fits, it is open
      and not empty, or it is closed. */
  lemma ChainTakesIff(uploader: bytes32, account: Option<ChainBuffer>, op: ChainOp)
    ensures TryChainOp(uploader, account, op).Ok? <==>
            match op
            case ChainInit(capacity) => account == None && 0 < capacity <= 10_000
            case ChainAppend(signer, chunk) =>
              && account.Some? && signer == account.value.uploader && !account.value.sealed
              && 0 < |chunk| <= account.value.capacity - |account.value.data|
            case ChainSeal(signer, _) =>
              account.Some? && signer == account.value.uploader && !account.value.sealed && |account.value.data| > 0
            case ChainClose(signer) => account.Some? && signer == account.value.uploader
    ensures account == None && !op.ChainInit? ==> TryChainOp(uploader, account, op) == Err(NoAccount)
    ensures account.Some? && op.ChainInit? ==> TryChainOp(uploader, account, op) == Err(AlreadyInUse)
    ensures forall signer, chunk | op == ChainAppend(signer, chunk) && TryChainOp(uploader, account, op).Err? ::
              TryChainOp(uploader, account, op).error ==
              if account == None then NoAccount else if signer != account.value.uploader then UploaderMismatch
              else if account.value.sealed then BufferSealed else if |chunk| == 0 then EmptyChunk
              else BufferCapacityExceeded
    ensures forall signer, expected | op == ChainSeal(signer, expected) && TryChainOp(uploader, account, op).Err? ::
              TryChainOp(uploader, account, op).error ==
              if account == None then NoAccount else if signer != account.value.uploader then UploaderMismatch
              else if account.value.sealed then BufferSealed else EmptyProof
  {
  }

  function AfterChainOp(uploader: bytes32, account: Option<ChainBuffer>, op: ChainOp): Option<ChainBuffer>
  {
    match TryChainOp(uploader, account, op) case Ok(next) => next case Err(_) => account
  }

  function AfterChainOps(uploader: bytes32, account: Option<ChainBuffer>, ops: seq<ChainOp>): Option<ChainBuffer>
    decreases |ops|
  {
    if ops == [] then account
    else AfterChainOp(uploader, AfterChainOps(uploader, account, ops[..|ops| - 1]), ops[|ops| - 1])
  }

  predicate ChainInv(uploader: bytes32, account: Option<ChainBuffer>) {
    account.Some? ==>
      var b := account.value;
      b.uploader == uploader && |b.data| <= b.capacity <= MAX_CAPACITY && (b.sealed ==> b.data != [])
  }

  lemma ChainOpKeeps(uploader: bytes32, account: Option<ChainBuffer>, op: ChainOp)
    requires ChainInv(uploader, account)
    ensures ChainInv(uploader, AfterChainOp(uploader, account, op))
    ensures account.Some? && op != ChainClose(uploader) ==>
              var next := AfterChainOp(uploader, account, op);
              && next.Some? && account.value.data <= next.value.data && next.value.capacity == account.value.capacity
              && (account.value.sealed ==> next == account)
  {
  }

  /** On chain, over initializations, appends, seals and closings in any order: the data never passes its
      capacity, and until the uploader closes the account it only grows and a sealed one never changes. */
  lemma {:induction false} ChainOpsKeep(uploader: bytes32, account: Option<ChainBuffer>, ops: seq<ChainOp>)
    requires ChainInv(uploader, account)
    ensures ChainInv(uploader, AfterChainOps(uploader, account, ops))
    ensures account.Some? && ChainClose(uploader) !in ops ==>
              var next := AfterChainOps(uploader, account, ops);
              && next.Some? && account.value.data <= next.value.data && next.value.capacity == account.value.capacity
              && (account.value.sealed ==> next == account)
    decreases |ops|
  {
    hide AfterChainOp, ChainInv;
    if ops == [] {
    } else {
      var init := ops[..|ops| - 1];
      ChainOpsKeep(uploader, account, init);
      ChainOpKeeps(uploader, AfterChainOps(uploader, account, init), ops[|ops| - 1]);
      if ChainClose(uploader) !in ops {
        assert ops == init + [ops[|ops| - 1]];
        assert ChainClose(uploader) !in init && ops[|ops| - 1] != ChainClose(uploader);
      }
    }
  }

  /** Sealing is not for ever, though: closed and opened again at the same seeds, the address of any sealed
      buffer takes chunks again, and any hash. */
  lemma SealedThenReused(uploader: bytes32, b: ChainBuffer, capacity: nat, chunk: bytes, expected: bytes32)
    requires ChainInv(uploader, Some(b)) && b.sealed && 0 < |chunk| <= capacity <= MAX_CAPACITY
    ensures AfterChainOps(uploader, Some(b),
                          [ChainClose(uploader), ChainInit(capacity), ChainAppend(uploader, chunk),
                           ChainSeal(uploader, expected)])
            == Some(ChainBuffer(uploader, capacity, true, expected, chunk))
  {
    var close, open, append := ChainClose(uploader), ChainInit(capacity), ChainAppend(uploader, chunk);
    var ops := [close, open, append, ChainSeal(uploader, expected)];
    assert ops[..3] == [close, open, append] && ops[..3][..2] == [close, open] && ops[..3][..2][..1] == [close];
    assert [close][..0] == [];
    assert AfterChainOps(uploader, Some(b), [close]) == None;
    assert AfterChainOps(uploader, Some(b), [close, open]) ==
           Some(ChainBuffer(uploader, capacity, false, NoHash(), []));
    assert [] + chunk == chunk;
    assert AfterChainOps(uploader, Some(b), [close, open, append]) ==
           Some(ChainBuffer(uploader, capacity, false, NoHash(), chunk));
  }

  /** The two seals disagree both ways: on chain any hash seals any data but the empty one, in the file
      exactly the hash of the bytes does. */
  lemma SealsDiffer(keccak: bytes -> bytes32, files: Files, address: string, b: ChainBuffer, expected: bytes32)
    requires PathOf(address) in files && !files[PathOf(address)].sealed && !b.sealed
    requires b.data == Uploaded(files[PathOf(address)].chunks)
    ensures TrySealOnChain(b, b.uploader, expected).Ok? <==> b.data != []
    ensures TrySeal(keccak, files, address, expected).Ok? <==> expected == keccak(b.data)
  {
  }
}
