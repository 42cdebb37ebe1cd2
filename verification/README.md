# Proofline: two-lane finality, verified

Proofline settles a football result twice. A fast lane (Level 3) re-derives the outcome from a
serialized Solana transaction that several RPC providers simulate, and reports it to a receiver on
Base. A proof lane (Level 4) publishes the outcome as a Wormhole message signed by 13 of 19 guardians.
Each lane derives an attestation id by itself; a registry on Base declares dual finality when the two
ids are equal.

This project models that protocol in Dafny and proves its central promises: the ids agree, every codec
they rest on is exact, the Solana adapter never rewrites what it verified or published, the three
workflows stay safe under crashes anywhere between two writes, and the control room never shows what
did not happen.

## Layout

- `Bytes`, `Text`: big-endian integers, UTF-8, decimal numerals, splitting.
- `Vaas`, `Payload`, `SolanaTx`, `Base58`, `CanonicalJson`, `JsonText`, `BundleHash`, `Memo`: the wire
  formats and canonical encodings, each as a printer and a parser with exact round trips.
- `Digests`, `Quorum`, `Tamper`, `Lanes`, `Deliveries`: hashes as parameters, the signature loops, the copy
  of Base's checks, how each lane derives its id, and what it delivers, byte by byte.
- `VerifyOutcome`, `Adapter`: the Solana adapter as a state machine and as handlers over accounts they
  update in place.
- `BaseContracts`, `DualFinality`: registry, receivers and market, and what they end up with when both
  lanes deliver.
- `Workflows`, `Ticks`, `WorkflowRuns`, `WorkflowSafety`: the three workflows as lists of durable actions,
  what each tick comes to, and any interleaving of ticks, crashes, replicas that lag behind and foreign
  transactions.
- `Restarts`, `Submissions`, `Announcements`, `Staging`: what a workflow can still reach after a crash
  between a transaction (or an upload) and the file that should remember it.
- `Progress`, `Runners`, `Rehearsal`, `LiveRuns`: every tick ends; the ticks as written, proved to perform
  exactly those actions; the crash-free runs, simulated and live, and the windows on their way.
- `Reducer`, `EventStream`, `Manifest`, `Relay`, `ProofBuffer`: event reduction and replay, store and
  fan-out, manifest validation, output capture, staged upload.

`dafny verify dfyconfig.toml` checks everything.

## Conventions

A `0x` string of fixed width is represented by the bytes it spells. Keccak, sha256, signing, recovery,
Borsh, PDA derivation and the TxLINE verdict are parameters; a law about them (these two inputs do not
collide, a guardian's own signature recovers to its address) is a hypothesis of the statement that needs
it. Exceptions and reverts are `Result` values. Where a number is written to a field the model wraps it
as the source's writer does, so out-of-range values are part of every codec statement.

Where the code and its comments differ the model follows the code:

- `base58ToHex32` prepends "00" to text already padded to 64 digits, so it rejects every string with a
  leading 1, although its comment says leading zeros are accounted for.
- The tamper lab says it mirrors the receiver check for check, but it remembers whole messages where the
  contract remembers signed bodies, sequences and outcomes (`BaseContracts.MirrorAgreesIff` and the
  misses after it).
- `seal_proof` says a sealed buffer refuses appends for ever; closing it and initializing the same seeds
  again opens it (`ProofBuffer.SealedThenReused`).
- `initialize_proof_buffer` rejects an existing account, the file-backed adapter silently reuses it, so
  staging is stated for what the buffer already holds (`ProofBuffer.StagingSealsIff`).

These promises turned out to need a condition, and are proved with it, exactly:

- Base and the executor agree on the id only if the fetched VAA comes from the handoff's emitter
  (`Lanes.BaseAgreesIff`; the network source does not see to it, `Lanes.NetworkEmitterDiffers`).
- A crash between an accepted transaction and its state file is safe but not harmless: "reported" and
  "submitted" are reached afterwards exactly if the tick that sent is still running
  (`Restarts.ReportedReachableIff`, `Submissions.SubmittedReachableIff`), and dual finality is announced
  only if that tick can still see it (`Announcements.AnnouncedReachableIff`), unless a stale gas estimate
  lets a second transaction through (`Restarts.StaleSendReports`, `Submissions.StaleSubmit`). These states
  occur (`LiveRuns.ReportWindow`, `LiveRuns.SubmitWindow`).
- An interrupted upload can be staged only while the buffer is not sealed and what it holds does not change
  the hash, or by the very tick that sealed it (`Staging.StagedReachableIff`).
- A live announcement carries the agreed id exactly when the replica behind the second registry read has
  the record (`WorkflowSafety.LiveAnnouncements`; `LiveRuns.ZeroWindow` is a run in which it does not).
- Sequence-number deduplication is sound within one run only (`EventStream.SecondSessionShownIff`).
- The fast lane's receiver follows the registry only up to its first report
  (`BaseContracts.ReceiverAgreesIff`).

## Model

| member | source | states |
|---|---|---|
| Lanes.ThreeDerivationsAgree | workflows/cre-level3-attestor/main.ts:279-373 | Whenever both lanes deliver from one fixture and handoff, three derivations give one attestation id: Level 3's from decoded transaction bytes, Level 4's from the builder's output, and Base's from the decoded VAA and payload |
| Lanes.LanesAgree | workflows/cre-vaa-executor/main.ts:294-351 | The two lanes' ids agree for every VAA source, also one that answers from the network |
| Lanes.BaseAgreesIff | apps/web/lib/tamper.ts:271-287 | Base arrives at the executor's id exactly when the VAA's own emitter is the handoff's emitter (the two preimages not colliding); the network source never compares them |
| Lanes.FileSourceEmitter | workflows/cre-vaa-executor/main.ts:395-410 | The dev-guardian file source hands back only a VAA of the handoff's emitter, so the exact condition of BaseAgreesIff holds there |
| Lanes.NetworkEmitterDiffers | workflows/cre-vaa-executor/main.ts:395-436 | The other side of that condition is reachable: for every message and every other emitter the network source can answer with a VAA under 13 dev-guardian signatures that the executor accepts, and Base derives another id from it (the two preimages not colliding) |
| Lanes.CheckedTxAccepts | workflows/cre-level3-attestor/main.ts:288-308 | The anti-spoofing assertions accept the built transaction exactly when both keys are valid base58 accounts, the handoff names the daily root of the proof's day and the predicate is printable; they return exactly what was built |
| Lanes.Level4Delivers | workflows/cre-vaa-executor/main.ts:395-436 | With the dev guardians the executor's local checks never reject what its own signer wrote: Level 4 delivers exactly when the message could be built and the Wormhole sequence fits 64 bits |
| Lanes.Level3DeliversIff | workflows/cre-level3-attestor/main.ts:343-419 | What Level 3 demands beyond Level 4, exactly: quorum, a decimal fixture id, non-negative int32 scores, a non-empty emitter key and its own conformance vector |
| Lanes.BothLanesDeliverIff | workflows/cre-vaa-executor/main.ts:243-436 | With the dev guardians both lanes deliver exactly when the handoff is the fixture's own, the three keys are valid accounts, every number fits its field, and a recorded vector that names this fixture and score sequence, if there is one, equals the derived one field by field: the agreement of the ids is about all of these inputs |
| Digests.IdentityPreimageInjective | packages/protocol/src/attestation-id.ts:19-39 | The packed identity preimage determines emitter, fixture, sequence and both hashes, field by field |
| Digests.InstructionPreimageInjective | packages/protocol/src/hashing.ts:11-22 | The packed instruction preimage determines program key, daily root and instruction data |
| Deliveries.AttestationIdIs | packages/protocol/src/attestation-id.ts:15-39 | An id exists exactly when both numbers fit int64, and is the hash of 144 bytes: the hashed domain string, the emitter, fixture and sequence of eight bytes each, the instruction hash, the bundle hash |
| Deliveries.InstructionHashIs | packages/protocol/src/hashing.ts:11-22 | The validation instruction's hash is that of program key, daily root and the predicate's words, in this order |
| Deliveries.DigestOfBytes | packages/wormhole-sdk/src/vaa-decoder.ts:61-64 | The signed digest is the twice hashed rest of the message behind its signatures, byte for byte as it was sent |
| Deliveries.FinalRecordIs | packages/config/src/cre-runtime.ts:233-240 | The record both lanes take is the first one with the final marker: action game_finalised, status 100, period 100 |
| Deliveries.DayOf | packages/config/src/cre-runtime.ts:174-176 | The day looked up is the number of whole days since the epoch, truncated towards zero before it |
| Deliveries.RootOfDay | packages/config/src/cre-runtime.ts:186-194 | The day's root is the recorded entry under that day in decimal; an absent or empty one is an error |
| Deliveries.DecimalText | packages/config/src/cre-runtime.ts:356-366 | A number in the predicate, the day or the bundle is written in decimal: a minus sign if negative, then its digits without a leading zero |
| Deliveries.BundleText | packages/config/src/cre-runtime.ts:248-266 | The evidence bundle as it is hashed, character for character: final record, proof, root account and strategy, and the record's nine members, keys ascending |
| Deliveries.Level3Says | workflows/cre-level3-attestor/main.ts:310-419 | What a delivered Level 3 report says: the fixture's number, the final record's scores, 1 exactly if the first is greater, 2 exactly if they are equal, 3 exactly if it is less, the bundle's hash, and the id hashed from the emitter, the numbers, the simulated instruction's hash and the bundle's |
| Deliveries.Level4Says | workflows/cre-vaa-executor/main.ts:243-436 | What a delivered Level 4 message carries, from any VAA source: the final record's outcome with the winner as a reader decodes it (1, 2 or 3 as above), destination chain 10004 unless the fixture names one, the two accounts, both hashes, and the id hashed from the handoff's emitter and the same values |
| Deliveries.FileSourceSays | workflows/cre-vaa-executor/main.ts:366-405 | The file source's message has version 1, guardian set 0, the thirteen default signatures in order, the record's time in whole seconds, nonce 0, chain 1, the handoff's emitter and sequence and consistency level 1 |
| Vaas.RoundTrip | packages/wormhole-sdk/src/vaa-decoder.ts:48-125 | Decoding an encoded VAA gives it back exactly when it is a version 1 message with at most 255 signatures and every field in range |
| Vaas.EncodingOfDecode | packages/wormhole-sdk/src/vaa-decoder.ts:66-125 | Encoding what any accepted byte string decodes to gives back that byte string |
| Vaas.DecodeAccepts | packages/wormhole-sdk/src/vaa-decoder.ts:87-95 | Acceptance is exactly length at least 6, version byte 1 and length at least 6 + 66 n + 51, and each of the three has its own error |
| Vaas.FieldsAt | packages/wormhole-sdk/src/vaa-decoder.ts:48-125 | Where every field of an accepted message stands: version, guardian set and count in the first six bytes, each signature's index, r, s and v in its 66, and the body's seven fields behind them |
| Vaas.DecodeEncoding | packages/wormhole-sdk/src/vaa-decoder.ts:48-125 | Out-of-range fields wrap to their width when written, and nothing else changes |
| Vaas.EncodeVaa | packages/wormhole-sdk/src/vaa-decoder.ts:66-83 | The buffer filled at a moving offset is header, signatures in order, body |
| Vaas.DecodeVaa | packages/wormhole-sdk/src/vaa-decoder.ts:87-125 | The reading loop returns the decoded message or the exact error |
| Payload.RoundTrip | packages/protocol/src/payload.ts:67-120 | Decoding an encoded outcome gives it back exactly when every field fits its declared width and the result code is 1, 2 or 3 |
| Payload.LayoutOfDecode | programs/proofline-adapter/programs/proofline-adapter/src/wormhole/payload.rs:93-166 | Encoding what any accepted 176 bytes decode to gives back those bytes, and what they decode to is in range |
| Payload.DecodeAccepts | packages/protocol/src/payload.ts:92-102 | Acceptance in terms of bytes 0 to 5, 11 and the length alone |
| Payload.EncodeTs | packages/protocol/src/payload.ts:67-88 | The TypeScript encoder's in-place writes produce the documented byte table, or fail on a hash that is not 32 bytes |
| Payload.EncodeRust | programs/proofline-adapter/programs/proofline-adapter/src/wormhole/payload.rs:95-115 | The Rust encoder's in-place writes produce the same byte table as the TypeScript one |
| Payload.DecodeTs | packages/protocol/src/payload.ts:92-120 | The TypeScript decoder's guards and reads agree with the Rust decoder's expression on every input, errors included |
| Payload.TamperScoreByte | apps/web/lib/tamper.ts:103-108 | Overwriting payload byte 43 changes only the low byte of participant1Score |
| Tamper.ScoreByteTamper | apps/web/lib/tamper.ts:103-108 | Overwriting byte 6 + 66 n + 51 + 43 of any VAA with an outcome keeps header, signatures and the other body fields and changes the decoded outcome only in the low byte of participant1Score |
| Tamper.TamperedScoreRejected | apps/web/lib/tamper.ts:96-110 | A message with a quorum no longer has one after that byte changed, if the digests do not collide and some signature binds its digest |
| SolanaTx.DecodeBuilt | packages/config/src/cre-runtime.ts:400-475 | Decoding a built transaction returns exactly the program key, daily root and instruction data that went in |
| SolanaTx.TxTable | packages/config/src/cre-runtime.ts:400-427 | Where everything stands in a built transaction: one empty signature, the header of one signer and two read-only accounts, payer, daily root and program, an empty blockhash, one instruction on the third account with the second, and the data behind its length |
| SolanaTx.BuildTransaction | packages/config/src/cre-runtime.ts:400-427 | The pushed and framed message is the specified byte layout |
| SolanaTx.DecodeTransaction | packages/config/src/cre-runtime.ts:434-475 | The decoder with its moving offset, 32-bit operators and clamped slices computes the specified parse on every byte string |
| SolanaTx.ShortVecRoundTrip | packages/config/src/cre-runtime.ts:320-333 | A length below 2^31 written at any offset of any stream is read back with the position after it |
| SolanaTx.WriteShortVec | packages/config/src/cre-runtime.ts:320-333 | The shortvec loop writes base-128 groups, low group first |
| SolanaTx.PredicateRoundTrip | packages/config/src/cre-runtime.ts:356-378 | The predicate text parses back to fixture, scores and period exactly for a decimal fixture id and non-negative numbers, and does not parse at all otherwise |
| SolanaTx.MarkDropped | packages/config/src/cre-runtime.ts:368-385 | A byte-order mark in front of the instruction data is not read, and data with a byte outside ASCII behind it does not parse |
| CanonicalJson.CanonicalIffSame | packages/protocol/src/hashing.ts:34-41 | Two JSON values print the same exactly when they are equal up to the order of object keys at every depth; what that order is says JsonText.ObjectText |
| CanonicalJson.KeyOrderIgnored | packages/protocol/src/hashing.ts:36-40 | Reordering object keys anywhere does not change the text |
| CanonicalJson.Injective | packages/protocol/src/hashing.ts:34-41 | Values that print the same are the same up to key order |
| CanonicalJson.CopiesAgree | apps/mainnet-attestor/src/common.ts:337-346 | The second copy, with its own branch order and comparator, prints every JSON value like the first, so ObjectText holds of it too |
| CanonicalJson.EscapeSeparable | packages/protocol/src/hashing.ts:35-40 | An escaped string followed by its closing quote determines the string and what follows |
| CanonicalJson.SortedUnique | packages/protocol/src/hashing.ts:37-39 | Entries with distinct keys have one sorted arrangement, whatever sort finds it |
| JsonText.ObjectText | packages/protocol/src/hashing.ts:34-41 | Every valid object prints as its members, separated by commas in braces, in an arrangement of its entries whose keys strictly ascend: at the first position where two keys differ the smaller UTF-16 unit comes first, and a proper prefix before its extension |
| JsonText.OtherText | packages/protocol/src/hashing.ts:34-36 | What every other value prints as: null, the booleans, a number's own token, a string in quotes, an array's elements in order |
| JsonText.StringReadsBack | packages/protocol/src/hashing.ts:35 | A reader of RFC 8259 strings gives every printed string back and stops behind its closing quote, and each character is written in its shortest form |
| BundleHash.FrameInjective | apps/mainnet-attestor/src/common.ts:62-72 | Length-prefixed framing determines the list of segments |
| BundleHash.HashedBytes | apps/mainnet-attestor/src/common.ts:62-72 | The update loop feeds exactly the frame, or fails on a segment of 2^32 bytes or more |
| BundleHash.HashedSegments | apps/mainnet-attestor/src/common.ts:348-368 | The bytes hashed for a bundle: raw response, canonical strategy, daily root and canonical record, in this order, each behind its length in four bytes |
| BundleHash.BundlePreimageDetermines | apps/mainnet-attestor/src/common.ts:337-368 | Two bundles have the same preimage exactly when raw response and root are equal and strategy and record are equal up to key order |
| Base58.Base58ToHex32 | packages/protocol/src/hashing.ts:44-62 | Accepts exactly the alphabet strings without a leading 1 and with value below 2^256, and returns the 64 digits of the 32-byte big-endian value |
| Base58.WhyRefused | packages/protocol/src/hashing.ts:44-62 | A string that is not a key is refused for a character outside the alphabet, or else as too long |
| Base58.ToBytes32Injective | packages/protocol/src/hashing.ts:44-62 | No two accepted strings name the same 32 bytes |
| Base58.EveryValueHasAKey | packages/protocol/src/hashing.ts:45-51 | Every value is written by some string without a leading 1 |
| Memo.MemoRoundTrip | apps/mainnet-attestor/src/memo.ts:55-83 | Whenever the builder returns, decoding gives back every field exactly, under its own key, and nothing else |
| Memo.MemoText | apps/mainnet-attestor/src/memo.ts:55-73 | What a built memo says: the header and then nine or ten parts, each with its key and its value, in this order |
| Memo.BuildsIff | apps/mainnet-attestor/src/memo.ts:52-73 | A memo is built exactly when every field is well formed by itself and the whole is at most 566 bytes, for arbitrary field strings |
| Memo.MatchesIff | apps/mainnet-attestor/src/memo.ts:52-70 | No field value can shift the others: the grammar accepts the joined text exactly when each value fits its own pattern |
| Memo.MatchesLanguage | apps/mainnet-attestor/src/memo.ts:52-53 | Splitting at the separator and checking the parts accepts exactly the language of the anchored expression: the literals with nine or ten texts, each of its own pattern, in between |
| Memo.DecodeMemo | apps/mainnet-attestor/src/memo.ts:75-83 | The decoding loop accepts exactly what the grammar does and returns the entries after the header |
| Quorum.CheckLikeBase | apps/web/lib/tamper.ts:193-222 | Accepts exactly the lists of at least 13 strictly ascending, in-bounds, correctly recovering signatures |
| Quorum.CheckInExecutor | workflows/cre-vaa-executor/main.ts:414-428 | Accepts exactly the same lists, for version 1, and otherwise reports the exact first fault |
| Quorum.CheckInEvidence | apps/relay-cli/src/verify-evidence.ts:149-169 | Accepts exactly the same lists, for version 1; a missing quorum alone does not stop its loop |
| Quorum.QuorumSigners | apps/web/lib/tamper.ts:193-222 | An accepted VAA carries valid signatures of at least 13 distinct guardians in 0..18 |
| Quorum.QuorumsOverlap | apps/web/lib/tamper.ts:193-222 | Any two accepted VAAs share at least 7 signers |
| Quorum.SignWithDevGuardians | packages/wormhole-sdk/src/signatures.ts:11-28 | The sorted signing loop produces one signature per index, in ascending order, or fails on an unknown index |
| Quorum.SignedIsAccepted | packages/wormhole-sdk/src/signatures.ts:11-28 | Signing with known indices in any order is accepted exactly when there are at least 13 and no two are equal |
| Quorum.ThirteenSuffice | packages/wormhole-sdk/src/signatures.ts:11-33 | Signing with any 13 distinct known indices is accepted |
| Tamper.VerifyLikeBase | apps/web/lib/tamper.ts:172-288 | The seven rows are passes, then the first check that does not hold, then skipped rows; accepted exactly when all hold, with the id derived from the decoded message |
| Tamper.RowsSay | apps/web/lib/tamper.ts:172-190 | Row i of a verdict passes if every check up to it holds, fails if it is the first that does not, and is skipped otherwise |
| VerifyOutcome.DeriveOutcome | programs/proofline-adapter/programs/proofline-adapter/src/instructions/verify_outcome.rs:72-143 | The scan with two optional cells decides as counting keys does, with the same scores and the same first error |
| VerifyOutcome.DeriveIff | programs/proofline-adapter/programs/proofline-adapter/src/instructions/verify_outcome.rs:53-143 | Succeeds exactly when ts is min_timestamp, the input serializes, and keys 1 and 2 each have exactly one leaf, of period 100, index at most 255, bound by an exact-equality predicate at its own index; the scores are those leaves' values |
| VerifyOutcome.RefusalIs | programs/proofline-adapter/programs/proofline-adapter/src/instructions/verify_outcome.rs:72-143 | Why a derivation is refused, on the leaves, the first of: another timestamp, a score key twice, key 1 missing, key 2 missing, different periods, a period other than 100, an index above 255, no exact-equality predicate, an input that does not serialize |
| VerifyOutcome.OneLeafIff | programs/proofline-adapter/programs/proofline-adapter/src/instructions/verify_outcome.rs:80-110 | A leaf is the only one with its key exactly when the key counts once and the leaf is the first found |
| Adapter.VerificationIff | programs/proofline-adapter/programs/proofline-adapter/src/instructions/verify_outcome.rs:192-232 | Verification succeeds exactly when configuration and account name the mainnet program, the account is executable, the outcome is derived, the root is that of its time and the instruction serializes, and the call returned the one byte 1 from the mainnet program; a failed call, no data, another program, the byte 0 and anything else are refused, each for its own reason |
| Adapter.VerifySays | programs/proofline-adapter/programs/proofline-adapter/src/instructions/verify_outcome.rs:145-190 | verify_outcome adds an outcome, unpublished and attested, and nothing else: exactly when configured, the outcome is not there yet, the call is in order and TxLINE's mainnet program said true |
| Adapter.OnReportSays | programs/proofline-adapter/programs/proofline-adapter/src/instructions/on_report.rs:24-92 | on_report does the same for the forwarder alone; a payload that does not parse is addressed by zero seeds and refused |
| Adapter.PublishSays | programs/proofline-adapter/programs/proofline-adapter/src/instructions/publish_outcome.rs:111-139 | publish_outcome posts, in every sound state, exactly when configured and called with the configured core for an outcome there and not published, while the bridge accepts and sequences are left: the facts under the tracker's sequence, nonce 0 and level 1, the stamp, the tracker one further, and nothing else |
| Adapter.InlineSays | programs/proofline-adapter/programs/proofline-adapter/src/instructions/publish_outcome.rs:201-245 | The inline instruction refuses an outcome already there and another core before anything is verified, then answers as verify_outcome and the bridge do, with the effect of both |
| Adapter.RunKeeps | programs/proofline-adapter/programs/proofline-adapter/src/instructions/publish_outcome.rs:38-245 | Over every run of the five instructions: outcomes are filed under their own seeds, of period 100 and validation version 2, with the result 1, 2 or 3 their scores make, every message is some outcome's, no two outcomes share a sequence, and no configuration, verified fact, stamp or message is ever rewritten |
| Adapter.PublishedForever | programs/proofline-adapter/programs/proofline-adapter/src/instructions/publish_outcome.rs:111-139 | A published outcome never changes again, in every later state the message at its sequence, of nonce 0 and consistency level 1, decodes to exactly its facts, and no other outcome has that sequence |
| Adapter.VerifiedForever | programs/proofline-adapter/programs/proofline-adapter/src/instructions/verify_outcome.rs:234-265 | Over every run from the empty state: an outcome's facts are those that one verify, on_report or inline call of the run verified when the outcome did not exist yet - a call in order that TxLINE's mainnet program answered with the one byte 1, the values of its two score leaves, their winner and what it hashed - and they are the same in every later state |
| Adapter.MessageOrigin | programs/proofline-adapter/programs/proofline-adapter/src/instructions/publish_outcome.rs:111-245 | Every message ever posted decodes to facts attested so by some call of the run, with no flags and score sequence 0 |
| Adapter.InlineIsVerifyThenPublish | programs/proofline-adapter/programs/proofline-adapter/src/instructions/publish_outcome.rs:201-245 | The inline path succeeds exactly when verification and then publication do, and leaves the same state |
| Adapter.SeedsInjective | programs/proofline-adapter/programs/proofline-adapter/src/instructions/verify_outcome.rs:40-48 | Account seeds determine fixture and proof timestamp |
| Adapter.FactsFit | programs/proofline-adapter/programs/proofline-adapter/src/instructions/publish_outcome.rs:38-56 | Every stored outcome fits the payload's field widths, so publishing loses nothing |
| Adapter.AssignedSequence | programs/proofline-adapter/programs/proofline-adapter/src/wormhole/emitter.rs:45-58 | The sequence read back after a post is the tracker's value before it |
| Adapter.Accounts.InitializeConfig | programs/proofline-adapter/programs/proofline-adapter/src/instructions/proof_buffer.rs:38-56 | Creates the configuration once, for the mainnet program only; a failure leaves the accounts as they were |
| Adapter.Accounts.VerifyOutcome | programs/proofline-adapter/programs/proofline-adapter/src/instructions/verify_outcome.rs:175-190 | The handler's in-place writes are the verification step (what it does says VerifySays), or nothing on failure |
| Adapter.Accounts.OnReport | programs/proofline-adapter/programs/proofline-adapter/src/instructions/on_report.rs:24-92 | The report entrypoint derives its seeds from the report bytes and is the same verification core (OnReportSays) |
| Adapter.Accounts.PublishOutcome | programs/proofline-adapter/programs/proofline-adapter/src/instructions/publish_outcome.rs:111-139 | Posts the built payload and stamps the outcome once (PublishSays), or changes nothing |
| Adapter.Accounts.VerifyAndPublishInline | programs/proofline-adapter/programs/proofline-adapter/src/instructions/publish_outcome.rs:201-245 | Records, posts and stamps in one instruction (InlineIsVerifyThenPublish), or changes nothing |
| Adapter.Accounts.PostMessage | programs/proofline-adapter/programs/proofline-adapter/src/wormhole/emitter.rs:87-155 | Posts at the tracker's sequence, advances it and returns the sequence posted at |
| Adapter.PostMessageData | programs/proofline-adapter/programs/proofline-adapter/src/wormhole/emitter.rs:60-68 | The bridge reads nonce, payload and consistency level back from the data built, if nonce and length fit 32 bits; each piece stands at its documented offset in any case |
| Adapter.PostDataDetermines | programs/proofline-adapter/programs/proofline-adapter/src/wormhole/emitter.rs:60-68 | Equal instruction data means equal nonce, payload and consistency level |
| Reducer.DualIsAnnounced | packages/event-model/src/state-machine.ts:94-175 | On every event run the room is DualFinalized exactly when dual finality was announced, has an id exactly then, and shows the id announced last |
| Reducer.FinalityOnlyRises | packages/event-model/src/state-machine.ts:142-160 | Finality never falls back, never changes lane and never leaves DualFinalized; which lane it shows says FinalityIsFirst |
| Reducer.FinalityIsFirst | packages/event-model/src/state-machine.ts:142-160 | Over every stream without an announced dual finality: CREAttested exactly when the first of LEVEL3_BASE_FINALIZED and BASE_VAA_VERIFIED in it is the former, WormholeVerified exactly when it is the latter, Unknown exactly when neither occurs |
| Reducer.RoomShows | packages/event-model/src/state-machine.ts:94-175 | Over every stream the room shows, field by field, what the last event of each kind carried, nothing for a kind that never came, the number of heartbeats and the last event's number and time |
| Reducer.RpcTable | packages/event-model/src/state-machine.ts:136-141 | The RPC table holds exactly each provider's last result, once |
| Reducer.ChecklistInOrderIff | packages/event-model/src/state-machine.ts:85-134 | On failure-free runs the six steps read done*, at most one active, pending* after every event exactly when no milestone goes back, and then show the last completed stage |
| Reducer.FailureMarks | packages/event-model/src/state-machine.ts:165-172 | A failure marks the first active step failed, if there is one, completes the steps before it that have not failed, and leaves the others |
| Reducer.TwoActiveSteps | packages/event-model/src/state-machine.ts:103-134 | Out of order, two steps are active at once: the guarantee is false for arbitrary streams |
| Reducer.ReplayTo | packages/event-model/src/state-machine.ts:177-184 | The replay loop is the fold of the events before the first one past the position |
| Reducer.ReplayFurther | packages/event-model/src/state-machine.ts:177-184 | Replaying to a position and folding what lies between equals replaying further |
| Reducer.SettledImpliesDual | packages/event-model/src/state-machine.ts:157-164 | In a stream that settles after dual finality, a settled room is DualFinalized |
| Reducer.ShownIffAnnounced | packages/event-model/src/state-machine.ts:161-172 | A room shows a settlement, and a failure, exactly when one was announced |
| Reducer.LaneShownIff | packages/event-model/src/state-machine.ts:108-172 | Over every stream a lane is shown failed exactly when the last event that concerns it is a failure whose stage starts with its name, done exactly when that event is its own finality, under way exactly when it is the proof, and idle when no event concerns it |
| Reducer.Level4FailsOnlyByName | packages/event-model/src/state-machine.ts:165-172 | A stream in which no failure names a level4 stage never shows the Level 4 lane failed |
| WorkflowRuns.EveryStreamSettlesAfterDual | workflows/cre-vaa-executor/main.ts:148-182 | For every interleaving of ticks, crashes and foreign transactions, no stream announces a settlement before dual finality |
| WorkflowRuns.EveryRoomIsConsistent | workflows/cre-vaa-executor/main.ts:500-531 | So in every run the reduced state has settled implies DualFinalized, and an id exactly when DualFinalized |
| WorkflowRuns.TickIsOrdinary | workflows/cre-vaa-executor/main.ts:207-561 | No tick of any workflow starts out with a finality or a settlement to announce, or a failure under another name than its own |
| WorkflowRuns.EveryFailureHasItsStage | workflows/cre-level3-attestor/main.ts:244-419 | In every run every failure, announced or still to be announced, names source-dispatch, level3-attestor or vaa-executor |
| WorkflowRuns.Level4NeverShownFailed | packages/event-model/src/state-machine.ts:165-172 | So no run ever shows the Level 4 lane failed, whatever the executor reports |
| WorkflowSafety.AtMostOneReport | workflows/cre-level3-attestor/main.ts:426-483 | Over every run with crashes between sending and saving and with reverts nobody notices: every report mined is the derived one, the receiver accepts at most one and shows exactly it, a live attestor is marked reported only after one was mined, and only after one was accepted if every send is estimated on the current state |
| WorkflowSafety.SendsDerivedOnly | workflows/cre-level3-attestor/main.ts:426-436 | In every reachable state every report still to be sent is the derived one |
| WorkflowSafety.SecondReverts | contracts/base/src/CRELevel3Receiver.sol:64-85 | A report that was taken reverts with AlreadyConsumed when it is sent again |
| Restarts.ReportedReachableIff | workflows/cre-level3-attestor/main.ts:430-481 | From any state of any run in which Base takes the report no more and the state file does not say reported: some continuation with prompt sends says it exactly if the running tick sent already and still holds its save. After a crash in between no later tick ever does |
| Restarts.AcceptedBeforeSaved | workflows/cre-level3-attestor/main.ts:430-481 | Whenever the lane can deliver, a run reaches that window, and a crash there leaves no save |
| Restarts.StaleSendReports | workflows/cre-level3-attestor/main.ts:435-436 | Promptness is needed: from every state after an accepted report, a replica behind it lets a second one be mined and revert, and the attestor, which never reads a receipt's status, says reported after all |
| Submissions.SubmittedReachableIff | workflows/cre-vaa-executor/main.ts:475-561 | The executor's side, whatever VAA sources its ticks read from: once Base refuses every message it can accept for the fixture and submitted is not saved, some continuation with prompt sends saves it exactly if the running tick sent already and still holds its save; otherwise none saves it or announces dual finality live, despite the resume branch |
| Submissions.TakenIsDenied | contracts/base/src/WormholeOutcomeReceiver.sol:127-168 | Once Base took one message the executor can accept for this fixture, it refuses every other one from then on, whatever signatures, sequence or emitter a source answers with |
| Announcements.AnnouncedReachableIff | workflows/cre-vaa-executor/main.ts:148-182 | Under the same conditions some continuation with prompt sends announces dual finality live exactly if the running tick sent already, still holds its save, and either has the announcement next, or has not seen dual finality yet and some continuation makes the registry's row of the fixture final |
| Announcements.FinalByRow | contracts/base/src/FinalityRegistry.sol:90-146 | By the row as it is: a DualFinalized one meets that condition, a frozen one never does |
| Announcements.FinalOnceReported | contracts/base/src/FinalityRegistry.sol:128-145 | One that holds the proof lane's record alone meets it as long as the receiver would take the derived report of the same id and the attestor has not said reported |
| Submissions.AcceptedBeforeSubmitted | workflows/cre-vaa-executor/main.ts:475-561 | Whenever the lane can deliver, from whichever source, a run reaches the state after its own accepted message, and a crash there leaves no save |
| Submissions.SubmittedByAnother | contracts/base/src/WormholeOutcomeReceiver.sol:92-96 | Anyone who delivers the public message first has the same effect without a crash |
| Submissions.StaleSubmit | workflows/cre-vaa-executor/main.ts:480-484 | Promptness is needed here too: while some replica shows a state that takes the message, a second send is mined, reverts unnoticed, and the tick goes on to submitted |
| BaseContracts.MessageRefusedLater | contracts/base/src/WormholeOutcomeReceiver.sol:105-169 | A message the contract refuses, for whatever reason, it refuses in every later state |
| BaseContracts.SamePayloadRefused | contracts/base/src/WormholeOutcomeReceiver.sol:127-168 | Two messages with one payload are one outcome: once one was taken the other is refused in every later state, under any signatures, sequence and digest |
| BaseContracts.ReportRefusedLater | contracts/base/src/CRELevel3Receiver.sol:64-85 | A report the receiver refuses, for whatever reason, it refuses in every later state |
| WorkflowSafety.EveryStreamIsTruthful | workflows/cre-vaa-executor/main.ts:148-182 | Every announced dual finality is the registry's own verdict with the proof lane's id, or no id where the replica of the second read was behind (live), or names the id in level3-report.json (simulated); every live settlement happened on chain |
| WorkflowSafety.LiveAnnouncements | workflows/cre-vaa-executor/main.ts:160-165 | Every live dual finality in the stream of every run was announced by one of its moves, when the registry held one id from both lanes, and carries that id exactly when the replica behind that move's second read already had the proof lane's record (or the id is zero) |
| Submissions.ZeroIdAnnounced | workflows/cre-vaa-executor/main.ts:148-165 | A run that announces the zero id: the executor's own message makes the fixture final, the poll sees it, the second read asks a replica one transaction behind |
| WorkflowSafety.NextKeepsSafety | workflows/cre-level3-attestor/main.ts:219-484 | Every move keeps the protocol invariant and loses no handoff, report, accepted attestation or verdict |
| WorkflowSafety.AttestList | workflows/cre-level3-attestor/main.ts:320-342 | Once the handoff is there, the lane derives a report and enough providers agree, the tick asks every provider in order and then delivers that report; how many agree says Workflows.AgreedCountIs |
| Workflows.AgreedCountIs | workflows/cre-level3-attestor/main.ts:312-324 | The count compared with the quorum is the number of providers that agreed |
| Ticks.AttestorTickSays | workflows/cre-level3-attestor/main.ts:219-484 | An attestor tick that finds a handoff delivers exactly when the lane derives a report and at least a quorum of the providers agree, and reports a failure, always the same one, exactly when fixture path or final record is missing, the day has another root, or, the transaction being in order, too few agree, the bundle differs, there is no emitter or the recorded vector is missed |
| Ticks.QuorumDecides | workflows/cre-level3-attestor/main.ts:324-353 | Once the transaction checks pass, nothing is sent, written or saved unless the number of agreeing providers is at least the quorum, and the tick fails if it is not |
| Ticks.AttestorTickPerforms | workflows/cre-level3-attestor/main.ts:312-483 | A delivering tick is: heartbeat, one event per provider with its answer, the report if live, the report file, the event, the saved id, in this order |
| Ticks.ExecutorTickSays | workflows/cre-vaa-executor/main.ts:243-436 | An executor tick that finds a handoff submits exactly when its lane delivers from the tick's source, and reports a failure exactly in the cases the code names; otherwise it waits or throws |
| Ticks.ExecutorTickPerforms | workflows/cre-vaa-executor/main.ts:303-561 | A delivering tick is: heartbeat, the three events of the proof, then the message, its events and six polls if live, or the simulated events and the comparison with Level 3, and submitted last |
| Ticks.DispatchTickSays | workflows/cre-source-dispatch/main.ts:107-222 | A dispatch tick notes the final record once, and once the proof is ready stages exactly when the day's root is the fixture's and the chunk size positive, ending with buffer, chunks, seal, handoff and staged in this order, and fails exactly when the root is another one |
| Ticks.IdleTicksSay | workflows/cre-vaa-executor/main.ts:207-250 | A workflow whose work is done, or that finds no handoff, only beats; a submitted live executor that saw neither dual finality nor a settlement polls six times more |
| Runners.Workspace.DispatchTick | workflows/cre-source-dispatch/main.ts:107-222 | The tick as written performs exactly the protocol's actions in order: observe, wait, upload chunk by chunk, seal, hand over, save |
| Runners.Workspace.UploadAndSeal | workflows/cre-source-dispatch/main.ts:168-172 | The upload through the file-backed adapter and its seal perform the appends and the seal of the protocol, and go through exactly when staging does on that store |
| Runners.Workspace.AttestorTick | workflows/cre-level3-attestor/main.ts:219-484 | The tick as written performs exactly the protocol's actions in order; what they come to says Ticks.AttestorTickSays |
| Runners.Workspace.AskProviders | workflows/cre-level3-attestor/main.ts:312-342 | The provider loop emits one result per provider and returns the number of providers that agreed |
| Runners.Workspace.DeliverReport | workflows/cre-level3-attestor/main.ts:426-483 | Send, report file, event, state file, in that order; only a refused gas estimate ends the tick at the send, a mined revert does not |
| Runners.Workspace.ExecutorTick | workflows/cre-vaa-executor/main.ts:207-561 | The tick as written, with resume, local checks, delivery and reconciliation, performs exactly the protocol's actions in order |
| Runners.Workspace.FinalizeOnBase | workflows/cre-vaa-executor/main.ts:148-182 | The bounded poll, over whatever states the replicas show, performs the poll, announce and settle actions: it announces dual finality and settles at most once, or returns without either |
| Runners.Workspace.ReconcileLocally | workflows/cre-vaa-executor/main.ts:513-531 | An equal Level 3 id announces dual finality and settlement, a different one fails the tick before anything is saved, an absent one does neither |
| Runners.Workspace.RunWorkflow | packages/config/src/cre-runtime.ts:128-139 | The heartbeat loop performs ticks 1 to max and stops at the first that is done or throws |
| LiveRuns.TickIsRun | packages/config/src/cre-runtime.ts:128-139 | A tick performed to its end is a run of the protocol's moves, so a crash is a prefix of it; prompt where the replicas are current |
| LiveRuns.CronIsRun | packages/config/src/cre-runtime.ts:128-139 | So is a whole heartbeat loop, whatever it does |
| LiveRuns.LiveRunCompletes | apps/relay-cli/src/relay-fixture.ts:113-121 | A crash-free live run with current replicas, fresh contracts that registered the handoff's emitter, an open market of the fixture, ticks enough and a provider quorum ends DualFinalized on chain under one id and one outcome, with the market settled to the winner of the final record's scores (1, 2 or 3), both state files saying so and the room showing all six steps, that id, the settlement and no failure |
| LiveRuns.RehearsalIsRun | apps/relay-cli/src/relay-fixture.ts:113-121 | Dispatch, attestor and executor run one after the other are one run of the protocol from its beginning |
| LiveRuns.ReportWindow | workflows/cre-level3-attestor/main.ts:430-481 | Wherever the lanes can go live, a prompt run from the beginning ends with the report accepted, reported not saved, and no save left |
| LiveRuns.SubmitWindow | workflows/cre-vaa-executor/main.ts:475-561 | Another one ends with every message refused, submitted not saved, and no save left |
| LiveRuns.ZeroWindow | workflows/cre-vaa-executor/main.ts:148-165 | A third one announces dual finality with the zero id after both lanes delivered |
| Rehearsal.SimulatedRunCompletes | apps/relay-cli/src/relay-fixture.ts:113-121 | A crash-free simulated run from an empty store with a positive chunk size, ticks enough, provider quorum and settlement configured, whichever source the VAA comes from, ends with all six steps done, DualFinalized with the id both lanes derive, settled and without failure |
| Rehearsal.DispatchRun | workflows/cre-source-dispatch/main.ts:107-222 | Where the store takes the bundle, with one tick more than the proof takes, the dispatch run stages, hands over and completes steps 1 and 2 |
| Rehearsal.StagesFresh | apps/proof-uploader/src/chunk-proof.ts:49-74 | An empty store always takes the bundle |
| Staging.StagedReachableIff | workflows/cre-source-dispatch/main.ts:107-222 | In any state of any run, in the middle of a tick too, a dispatch that is not staged ever will be, in some continuation, exactly if the final record and its daily root are right, the chunk size is positive, and: once the buffer is sealed, the running tick sealed it and still holds its save; before that, what it holds and the running tick still appends hashes like the bundle, or what it holds, followed by what this attempt and further ones leave when cut off and by the canonical bytes, does |
| Staging.StagedReachableIffEmpty | workflows/cre-source-dispatch/main.ts:168-222 | Before the seal, where none of the strings further attempts lead to collides with the bundle: exactly if the buffer holds nothing, or the running tick is about to complete the bundle's own bytes |
| Staging.SealedBeforeStaged | workflows/cre-source-dispatch/main.ts:172-222 | A crash right after the seal is reachable: the buffer is sealed, staged is not saved, and by the above never will be |
| Staging.CrashAfter | apps/proof-uploader/src/chunk-proof.ts:60-64 | A crash after any number of chunks is reachable and leaves exactly those chunks behind |
| BaseContracts.StatusOfRun | contracts/base/src/FinalityRegistry.sol:90-146 | On every stream of reports the registry's status is read off the stream: DualFinalized if the lanes met before anything disagreed, Conflict if something disagreed first, else the lane heard so far |
| BaseContracts.AnswerOfRun | contracts/base/src/FinalityRegistry.sol:90-146 | One more report after any stream is refused as invalid, as final once the lanes met, as frozen once anything disagreed, as a duplicate if its lane was heard with that id, and otherwise taken |
| BaseContracts.OrderIrrelevant | contracts/base/src/FinalityRegistry.sol:90-146 | Reports that all name one id settle the same way in every order and multiplicity |
| BaseContracts.LanesCommute | contracts/base/src/FinalityRegistry.sol:128-145 | One report per lane: the whole row, not just its status, is the same in either order |
| BaseContracts.OrderMatters | contracts/base/src/FinalityRegistry.sol:106-114 | With two ids in one lane the order decides between dual finality and a frozen fixture |
| BaseContracts.RunKeeps | contracts/base/src/FinalityRegistry.sol:90-146 | Over every run of transactions no record, final verdict, consumed id, message or settlement is lost, the receivers hold what the registry holds, and a settled market holds the proof lane's result |
| BaseContracts.ReceiverOverwrites | contracts/base/src/CRELevel3Receiver.sol:72-84 | After a second report with another id the fast lane's receiver shows the second while the registry keeps the first, frozen |
| BaseContracts.ReportKept | contracts/base/src/CRELevel3Receiver.sol:64-85 | Only the forwarder may report, and each id once; a report taken uses its id up, is stored as the fixture's, and the fixture's row keeps the lane's first record; nothing else changes |
| BaseContracts.SettleSays | contracts/base/src/DemoPredictionMarket.sol:94-106 | The market settles once, on a DualFinalized row, to the proof lane's result |
| BaseContracts.ReceiverAgreesIff | contracts/base/src/CRELevel3Receiver.sol:64-85 | Where receiver and registry show the same, an accepted report keeps it so exactly when the registry had no fast-lane record of the fixture yet, and changes nothing about other fixtures |
| BaseContracts.FinalityRegistry.Report | contracts/base/src/FinalityRegistry.sol:90-146 | The mappings change by exactly one reconciliation step of one fixture, or not at all |
| BaseContracts.CRELevel3Receiver.OnReport | contracts/base/src/CRELevel3Receiver.sol:64-85 | Consumes the id, stores the attestation and reports it, or reverts leaving receiver and registry as they were |
| BaseContracts.WormholeOutcomeReceiver.SubmitVaa | contracts/base/src/WormholeOutcomeReceiver.sol:105-169 | Performs the checks in order, marks, stores and reports, or reverts leaving receiver and registry as they were |
| BaseContracts.MirrorMatches | apps/web/lib/tamper.ts:168-269 | Up to replay protection the tamper lab decides as the receiver does |
| BaseContracts.MirrorAgreesIff | apps/web/lib/tamper.ts:168-288 | Tamper lab and contract decide alike exactly when one of the first five checks fails, or the lab knows these very bytes just when the contract knows the signed body or the sequence, or holds the fixture frozen, final or already with this id |
| BaseContracts.MissesResigned | apps/web/lib/tamper.ts:271-275 | The same body under other signatures: refused on chain as VaaAlreadyConsumed, passes in the lab |
| BaseContracts.MissesReusedSequence | contracts/base/src/WormholeOutcomeReceiver.sol:127-131 | Another body with the same sequence: refused on chain, passes in the lab |
| BaseContracts.MissesDuplicate | contracts/base/src/WormholeOutcomeReceiver.sol:139-151 | A new message with the stored id for the same fixture: refused on chain, passes in the lab |
| BaseContracts.MissesVerdict | contracts/base/src/FinalityRegistry.sol:90-104 | A new message for a frozen or final fixture: refused on chain, passes in the lab |
| BaseContracts.RefusesFresh | apps/web/lib/tamper.ts:155-164 | The other way: a lab told that a message was consumed refuses what a fresh deployment accepts |
| DualFinality.LanesFinalize | contracts/base/src/FinalityRegistry.sol:128-145 | The two lanes' messages, from any VAA source that answers with one addressed to the contract, delivered in either order to contracts that have not seen them, leave the same state, DualFinalized under the fixture's number with one id and one outcome in both records: the final record's scores and their winner (1, 2 or 3) |
| DualFinality.MessageKept | contracts/base/src/WormholeOutcomeReceiver.sol:105-169 | What the contract keeps of any message it takes: quorum, chain 1, registered emitter and own destination were in order, its sequence and twice hashed body are used up, and a fixture's first message is stored with its scores, result and bundle hash under the id hashed from its emitter and payload; nothing else changes but the registry |
| DualFinality.FileSourceAddressed | contracts/base/src/WormholeOutcomeReceiver.sol:105-125 | The dev-guardian file source's message is: quorum, Solana chain, registered emitter and destination are in order whenever the contract registered the handoff's emitter and is on the fixture's destination chain |
| ProofBuffer.StagingSealsIff | apps/proof-uploader/src/chunk-proof.ts:49-74 | Staging a bundle and sealing with its hash succeeds exactly when the buffer is not sealed and what it already held does not change the hash; then it holds its earlier bytes followed by the canonical ones |
| ProofBuffer.FreshStagingSeals | apps/proof-uploader/src/chunk-proof.ts:49-74 | On a fresh buffer it always succeeds, for every bundle and positive chunk size, and the chunks concatenate to the canonical bytes |
| ProofBuffer.OpsKeep | apps/proof-uploader/src/proof-buffer-adapter.ts:104-156 | In every reachable store byteLength is the length of the uploaded bytes and a seal is their hash; nothing but closing changes a sealed buffer |
| ProofBuffer.ChunkBytes | apps/proof-uploader/src/chunk-proof.ts:23-30 | The slicing loop yields the chunks of the given size, or fails for a size that is not positive |
| ProofBuffer.ChunksJoin | apps/proof-uploader/src/chunk-proof.ts:23-30 | Chunks are full except perhaps the last, never empty, and join to the input |
| ProofBuffer.ConcatChunks | apps/proof-uploader/src/proof-buffer-adapter.ts:57-66 | Decoding every hex chunk and copying it to its offset gives the uploaded bytes in order |
| ProofBuffer.HexRoundTrip | apps/proof-uploader/src/proof-buffer-adapter.ts:68-77 | Stored hex reads back byte for byte; no stored chunk is mistaken for one with a 0x prefix |
| ProofBuffer.PathSays | apps/proof-uploader/src/proof-buffer-adapter.ts:82-84 | A buffer's file is named after its address, with an underscore for every character but letters, digits, colon, underscore and hyphen |
| ProofBuffer.FileBackedAdapter.AppendProofChunk | apps/proof-uploader/src/proof-buffer-adapter.ts:121-131 | Appends one chunk to the stored account unless it is absent or sealed |
| ProofBuffer.FileBackedAdapter.SealProof | apps/proof-uploader/src/proof-buffer-adapter.ts:133-148 | Seals once, and only with the hash of the uploaded bytes |
| ProofBuffer.StageProofBundle | apps/proof-uploader/src/chunk-proof.ts:49-74 | Canonicalizes the bundle, opens or finds the buffer and appends chunk after chunk until one fails; the hash it returns is that of the canonical bytes |
| ProofBuffer.ChainOpsKeep | programs/proofline-adapter/programs/proofline-adapter/src/instructions/proof_buffer.rs:74-150 | On chain, over initializations, appends, seals and closings in any order: the data never passes its capacity, and until the uploader closes the account it only grows and a sealed one never changes |
| ProofBuffer.SealedThenReused | programs/proofline-adapter/programs/proofline-adapter/src/instructions/proof_buffer.rs:118-150 | Sealing is not for ever: closed and initialized again, the same address takes other chunks and any hash |
| ProofBuffer.SealsDiffer | programs/proofline-adapter/programs/proofline-adapter/src/instructions/proof_buffer.rs:122-129 | On chain any hash seals any non-empty data, in the file exactly the hash of the bytes does: neither refines the other |
| EventStream.PageFollowsStore | apps/web/lib/run-engine.tsx:113-116 | For every interleaving of record, delivery, disconnect and reconnect the page's list is a prefix of the store's events, all of them once delivered, and its reduced state is the store's replay at that position |
| EventStream.OfflineStays | apps/web/lib/run-engine.tsx:105-125 | A page that lost its connection shows what it showed until it connects again, whatever is recorded meanwhile |
| EventStream.EventStore.Record | apps/coordinator/src/event-store/store.ts:39-51 | Numbers the event with its position, appends it and sends it to every attached response, which all stay in step with the store |
| EventStream.EventStore.Finalize | apps/coordinator/src/event-store/store.ts:58-70 | Within a run only an empty run id, an empty run or a clock going back can stop finalization |
| EventStream.SseHub.Send | apps/coordinator/src/sse/broadcast.ts:19-21 | Writes the event once to every attached response |
| EventStream.SseHub.Attach | apps/coordinator/src/sse/broadcast.ts:7-17 | Writes the whole backlog in order before the response joins the fan-out |
| EventStream.LivePage.OnMessage | apps/web/lib/run-engine.tsx:113-116 | Appends an event unless its number is already in the list |
| EventStream.SecondSessionShownIff | apps/web/lib/run-engine.tsx:110-116 | Over every session of two runs: a page kept open that showed all of the first shows all of the second, once delivered, exactly when the first run's events are a prefix of the second's |
| EventStream.SecondRunHidden | apps/web/lib/run-engine.tsx:113-116 | A session of two one-event runs in which the second run never appears |
| Manifest.ValidateManifest | packages/event-model/src/run-manifest.ts:73-86 | No errors exactly for a non-empty run id and events, strictly increasing sequence numbers from 0 up and nondecreasing times; every fault is reported and only faults |
| Relay.RunWorkflow | apps/relay-cli/src/relay-fixture.ts:70-85 | However the output is cut into chunks, the events are those of the lines of the whole text; an unterminated last line is not read |
| Relay.TextJoins | apps/relay-cli/src/relay-fixture.ts:70-71 | The whole text is the chunks joined in order |
| Relay.EventsAre | apps/relay-cli/src/relay-fixture.ts:70-85 | The events of some lines are what those that are not blank and parse say when trimmed, in their order |
| Relay.TrimSays | apps/relay-cli/src/relay-fixture.ts:73-76 | Trimming cuts white space off both ends and nothing else |
| Relay.Relayed | apps/relay-cli/src/relay-fixture.ts:113-128 | The merged, renumbered stream always passes the manifest's sequence check |
| Relay.RelayedIsValid | apps/relay-cli/src/relay-fixture.ts:123-128 | It passes the whole check exactly when the run id and the stream are not empty and no time goes back |
| Relay.WrittenReadsBack | apps/relay-cli/src/capture-run.ts:160-165 | capture-run reads the events back from the file the relay writes, and from the one the store appends, for no events and any number |

## Left out

- Lanes.ThreeDerivationsAgree: the predicate text is taken to be shorter than 2^31 bytes, because JavaScript strings are; numbers above 2^53, which JavaScript rounds, are modelled as exact integers.
- WorkflowSafety.AtMostOneReport: one process per workflow at a time, one fixture, one market, and the forwarder's key used by the attestor only. A replica shows some earlier state of Base as a whole; reorganized blocks are not modelled, nor is a wait for a receipt that fails after the transaction was mined.
- Submissions.SubmittedReachableIff: a configured market is the fixture's (also in Announcements.AnnouncedReachableIff).
- Staging.StagedReachableIff: the store's operations are atomic, as their writes to a temporary file and renames make them.
- Runners.Workspace.DispatchTick: files nothing reads back (verify-command.json, vaa-decoded.json, level4-report.json) and the temporary files of atomic writes are not part of the world.
- Runners.Workspace.RunWorkflow: an absent maxTicks, which loops for ever, is represented by every finite bound.
- Adapter.RunKeeps: the account bump, rent, fee transfer and signer checks of the runtime are not modelled; the bridge is assumed to refuse a post whose next sequence does not fit 64 bits.
- Adapter.FactsFit: the adapter writes score sequence 0 into its payload, so the identity it publishes is not the lanes'; the lanes' messages are built by the executor.
- BaseContracts.RunKeeps: constructors, ownership changes and reporter wiring; the market's escrow and claim; block times in records. The ABI encoding of a report is represented by its fields.
- BaseContracts.MirrorAgreesIff: the guardian set of the deployed core is taken to be the dev guardians' addresses.
- ProofBuffer.ChainOpsKeep: rent, the buffer seed as a number and the account's bump are left out; the uploader's signature is its key.
- CanonicalJson.CanonicalIffSame: JSON values only, with numbers as their printed tokens; undefined inside arrays, lone surrogates and objects with toJSON are outside it.
- Relay.RunWorkflow: chunks of characters; a multi-byte character cut between two buffers, which the source decodes to replacement characters, is not represented.
- Memo.BuildsIff: sequence and timestamp are integers below 10^21, which print without an exponent.
- Quorum.CheckInExecutor: the two ways of passing a signature to the recovery function (an object and a packed string) are taken to be the same function.
- Network access, RPC clients, TxLINE ingestion, process spawning, HTTP plumbing, secrets and clocks: inputs or absent.
- Provider answers: whether stable outputs agree is an input; extracting them from a response is field access.
- Failure texts: the wording of RUN_FAILED reasons, hashes of transactions and simulated identifiers are inputs of a tick.
- User interface, deploy scripts, evidence capture, the mainnet watcher and readback: no protocol state.
