# KDX in Dafny

A model of the core of KDX, a client/server community system (chat, news, files), and
proofs of what it is for:

- threshold secret sharing over GF(2^8) with Merkle commitments (`GF256`, `Poly`, `Merkle`, `Shamir`);
- the packet header, stream codec, fragmentation and reassembly on both ends (`Wire`, `Fragments`, `Link`);
- the client's connection actor with its one queue of owed answers, Ping barriers and transfer
  engine (`Actor`, `ActorRuns`, `ActorTransfers`, `ActorObject`), what becomes of commands and of
  uploads (`Commands`, `Uploads`), the geometry and contents of transfers and what an honest server's
  download comes to (`Chunks`, `Download`, `HonestDownloads`), every client run as a run of the
  download it carries (`ActorDownloads`), the partial file that downloads of one file share
  (`Partials`), and the whole protocol as a system of client, server and two FIFO streams
  (`Correlation`);
- the server's dispatch loop with its three upload slots (`UploadSlots`), shown to be the server
  that the protocol runs assume (`ServerContract`), and the race between logins and administration
  (`LoginRace`);
- fast forms that must agree with simple ones: the pruned posting limiter (`PostLimiter`), the
  compiled address rules (`IpRules`), the batching history writer (`History`), the resume sidecar
  (`Text`, `Sidecar`), SCRAM messages, proofs and stored credentials (`Scram`, `CredentialText`).

`dafny verify dfyconfig.toml` checks everything.

## How to read it

Where the program is an object or a loop that updates state, there is a class or a method, tied
by its `ensures` to a function on values; the properties are lemmas about that function. SHA-256,
HMAC, Argon2id and the header checksum are function parameters, so every statement holds for any
function in their place. Random coefficients, clocks, the file system's answers and the scheduler's
choices are inputs; runs are arbitrary sequences of such inputs.

Five results are about the code not doing quite what its text says:

- A late `TransferEnd`. The client takes a `TransferEnd` that arrives while a request awaits its
  accept for the answer to that request, unless the id is among the transfers it remembers giving
  up. `Correlation.LateEndBreaksCorrelationIff` shows that this is exactly when the queue falls out
  of step, and `Correlation.ForgottenTransferBreaksCorrelation` gives a run in which the client
  itself causes it: a download whose partial file cannot be opened (`actor.rs:2557-2563`) ends
  without an abort, because `accepted` is still false, so its id is never remembered; the server's
  later end consumes the waiter of the next request, whose real answer is then a protocol violation.
- A download that is reported as failed and published. Ending a transfer drops the handle of its
  Publish job without stopping it (`actor.rs:1875-1881`), and the job renames the partial without
  looking at the cancel flag (`transfer.rs:524-529`). So the caller can be told an error, or that the
  connection is gone, while the verified file reaches the destination.
  `ActorDownloads.DownloadSuccessIsVerified` says exactly when; `ActorDownloads.CancelledButPublished`
  is such a run.
- A partial renamed under the next download. The same detached job names the partial by its path,
  which the next download of that file to that place reopens, or truncates if the file changed
  (`transfer.rs:183-199`, `actor.rs:2546-2554`). `Partials.CarefulStartsPublishOnlyVerified` shows that
  only verified files are published as long as no download of the file starts while an earlier
  one's job is out; `Partials.DetachedMovePublishesUnverified` is a run that breaks that rule and
  puts bytes at the destination that no download verified.
- Oversized messages. The actor's documentation (`actor.rs:32-35`, `2840-2843`) says the server drops
  the connection over one; the server's `reassemble` skips it and answers with one `Error`
  (`connection.rs:2679-2735`). The model follows the code.
- Stored credentials. `StoredCredential::encode` prints any salt, but `decode` accepts only 1 to 64
  bytes of it; `CredentialText.CredentialRoundTrip` states the exact condition.

## Model

| member | source | states |
|---|---|---|
| GF256.GfMul | crates/kdx-crypto/src/shamir.rs:294-303 | the masked, branch-free loop computes the reference product modulo 0x11b |
| GF256.GfPow | crates/kdx-crypto/src/shamir.rs:305-315 | square-and-multiply is the power |
| GF256.GfInv | crates/kdx-crypto/src/shamir.rs:318-321 | the result is the multiplicative inverse, and zero for zero |
| GF256.MulComm | crates/kdx-crypto/src/shamir.rs:294-303 | multiplication is commutative |
| GF256.MulAssoc | crates/kdx-crypto/src/shamir.rs:294-303 | multiplication is associative |
| GF256.MulXor | crates/kdx-crypto/src/shamir.rs:294-303 | multiplication distributes over exclusive or, on both sides |
| GF256.Power255 | crates/kdx-crypto/src/shamir.rs:305-321 | a^255 is one for every nonzero a |
| GF256.InverseIsInverse | crates/kdx-crypto/src/shamir.rs:318-321 | a times a^254 is one for every nonzero a |
| GF256.NoZeroDivisors | crates/kdx-crypto/src/shamir.rs:294-303 | a product is zero only if a factor is |
| GF256.KnownProduct | crates/kdx-crypto/src/shamir.rs:294-303 | the field is the one of FIPS 197: {57} times {13} is {fe} |
| Poly.FactorTheorem | crates/kdx-crypto/src/shamir.rs:162-191 | dividing by (x - r) leaves exactly the value at r |
| Poly.RootCount | crates/kdx-crypto/src/shamir.rs:162-191 | a polynomial with as many distinct roots as coefficients is zero |
| Poly.AgreementIsEquality | crates/kdx-crypto/src/shamir.rs:162-191 | polynomials of n coefficients that agree at n distinct points are equal |
| Poly.LagrangeAtZero | crates/kdx-crypto/src/shamir.rs:162-191 | the Lagrange-weighted sum of a polynomial's values is its value at zero |
| Poly.InterpolationUnique | crates/kdx-crypto/src/shamir.rs:162-191 | through given points goes exactly one polynomial of that many coefficients |
| Shamir.EvalColumn | crates/kdx-crypto/src/shamir.rs:102-107 | the running-powers loop evaluates the polynomial with the secret byte as constant term |
| Shamir.Split | crates/kdx-crypto/src/shamir.rs:74-123 | which parameters are refused; otherwise every share is the polynomials' values at its index, and the commitments are of these shares |
| Shamir.LagrangeWeight | crates/kdx-crypto/src/shamir.rs:172-185 | the numerator/denominator loop computes the Lagrange weight at zero |
| Shamir.Combine | crates/kdx-crypto/src/shamir.rs:130-193 | in terms of the shares alone: success exactly for a threshold of at least 2, every index in 1..=250, at least t distinct indices and equal lengths among the first shares of the t lowest indices; which error otherwise; on success the value at zero of the polynomials through those shares |
| Shamir.CombinedMeans | crates/kdx-crypto/src/shamir.rs:130-193 | the same of the function the loop is proved equal to, so that it holds for any list of shares, dealt or forged |
| Shamir.Reconstruction | crates/kdx-crypto/src/shamir.rs:130-193 | dealt shares in any order, with duplicates and extras, give back the secret if and only if they hold at least t distinct indices |
| Shamir.SecrecyPerByte | crates/kdx-crypto/src/shamir.rs:96-111 | for t - 1 distinct points and any bytes seen there, each secret byte is explained by exactly one coefficient vector |
| Shamir.PerfectSecrecy | crates/kdx-crypto/src/shamir.rs:3-9 | the same for whole secrets and t - 1 holders: they see given data if and only if the coefficients are the one explanation |
| Shamir.VerifiedSharesReconstruct | crates/kdx-crypto/src/shamir.rs:130-278 | shares that verify against the root, with t distinct indices, reconstruct the secret, or the extractor turns one of them into a collision |
| Merkle.NewCommitments | crates/kdx-crypto/src/shamir.rs:231-246 | the array filled in place is a heap-shaped tree over the share digests, zero-padded to a power of two |
| Merkle.Proof | crates/kdx-crypto/src/shamir.rs:260-278 | nothing for index 0 or beyond the shares; otherwise the siblings from leaf to root |
| Merkle.VerifyShare | crates/kdx-crypto/src/shamir.rs:202-226 | accepts exactly an in-range index, a path of exactly the tree's depth, and a climb that ends at the root |
| Merkle.CommittedShareVerifies | crates/kdx-crypto/src/shamir.rs:231-278 | every committed share verifies with the proof handed out for it |
| Merkle.VerifiedShareIsCommitted | crates/kdx-crypto/src/shamir.rs:202-226 | a share that verifies at index i is committed share i, or an explicit extractor yields two distinct inputs with one digest |
| Merkle.LeavesAreNotNodes | crates/kdx-crypto/src/shamir.rs:231-257 | leaves and nodes are never hashed over the same input, and padding leaves are zero |
| Wire.HeaderRoundTrip | crates/kdx-protocol/src/header.rs:33-82 | decoding an encoded header gives it back, whatever follows |
| Wire.HeaderCanonical | crates/kdx-protocol/src/header.rs:51-82 | an accepted header re-encodes to exactly the bytes read |
| Wire.HeaderLayout | crates/kdx-protocol/src/header.rs:33-49 | the twenty bytes one by one: magic, version, type, and every number big-endian, the checksum over the first eighteen |
| Wire.HeaderErrors | crates/kdx-protocol/src/header.rs:51-82 | which of the six checks a refused header fails first, and that it is accepted exactly if it fails none |
| Wire.TypeCodes | crates/kdx-protocol/src/packet_type.rs:229-328 | exactly these packet codes are known |
| Wire.OversizedFrameIsRefused | crates/kdx-protocol/src/codec.rs:46-73 | a header over the cap fails the stream; otherwise a frame comes out exactly when its payload is there |
| Wire.KdxCodec.Decode | crates/kdx-protocol/src/codec.rs:46-73 | one call: what is returned, what is consumed and what is parked |
| Wire.KdxCodec.Encode | crates/kdx-protocol/src/codec.rs:79-99 | appends header and payload, or refuses an oversized or mismatched frame and writes nothing |
| Wire.KdxCodec.OnRead | crates/kdx-protocol/src/codec.rs:46-73 | decoding until the codec asks for more; terminates by a measure that counts the parked header |
| Wire.ReceivePrefix | crates/kdx-protocol/src/codec.rs:46-73 | whatever way the bytes of valid frames are cut, what has arrived decodes without failure to a prefix of them |
| Wire.StreamRoundTrip | crates/kdx-protocol/src/codec.rs:46-99 | once all bytes have arrived, exactly those frames and an empty buffer |
| Wire.AcceptedFrameIsCanonical | crates/kdx-protocol/src/codec.rs:46-73 | on arbitrary bytes, an accepted frame re-encodes to exactly the bytes consumed |
| Wire.DrainIsCanonical | crates/kdx-protocol/src/codec.rs:46-73 | on arbitrary bytes, whether the drain ends well or fails, the frames accepted re-encode to a prefix of them: nothing invented, reordered or skipped |
| Fragments.Fragment | crates/kdx-protocol/src/fragment.rs:22-66 | the loop yields the specified group, numbered consecutively modulo 2^32, and hands back the next number |
| Fragments.PiecesConcat | crates/kdx-protocol/src/fragment.rs:22-66 | the pieces concatenate to the payload and each fits a frame |
| Fragments.Reassembler.PushFrame | crates/kdx-protocol/src/fragment.rs:93-147 | the new state and result for every frame, errors included |
| Fragments.Reassembler.Abort | crates/kdx-protocol/src/fragment.rs:156-159 | no group stays open |
| Fragments.ServerInbound.OnFrame | crates/kdx-server-core/src/connection.rs:2683-2735 | the server's reassembly with its skip mode, every frame and error included |
| Fragments.OnlyTheNextFragment | crates/kdx-server-core/src/connection.rs:2683-2735 | while a group is open or skipped, exactly its own next fragment is taken; anything else ends the connection with the right reason |
| Fragments.NextFragmentExtends | crates/kdx-protocol/src/fragment.rs:93-147 | what that fragment does: extends, completes, or exceeds the cap and is skipped or refused |
| Fragments.ConsistentRun | crates/kdx-server-core/src/connection.rs:2683-2735 | for arbitrary frames: skip mode and an open group are never both active, and a buffer never exceeds its cap |
| Fragments.RunMessage | crates/kdx-server-core/src/connection.rs:2683-2735 | one message, in any grouping: its exact payload if within its cap, else exactly one refusal, and idle again |
| Fragments.StreamRefinesSpec | crates/kdx-server-core/src/connection.rs:2679-2735 | a stream of messages from any sequence number (wrap-around included) yields exactly one specified outcome for each, in order |
| Link.Sender.Send | crates/kdx-client-core/src/actor.rs:2844-2869 | a request over its cap is refused and uses no sequence number; anything else is written as its fragments |
| Link.DeliveredInOrder | crates/kdx-client-core/src/actor.rs:2844-2869 | everything `send` accepts reaches the server's dispatch whole, once and in order, however the bytes are cut; a prefix of it while bytes are in flight |
| Chunks.ChooseChunkSize | crates/kdx-client-core/src/transfer.rs:84-90 | the doubling loop's result, and that files up to the size limit then split into at most the target count |
| Chunks.AcceptedGeometry | crates/kdx-client-core/src/transfer.rs:95-125 | an accept that passes every check has a valid geometry |
| Chunks.PassesIff | crates/kdx-client-core/src/transfer.rs:95-125 | an accept passes exactly if chunk size, count, size and bitmap are all within their bounds |
| Chunks.ChunkSizeIsSmallest | crates/kdx-client-core/src/transfer.rs:84-90 | the smallest of the four sizes that keeps the count at or under the target |
| Chunks.ChunkRange | crates/kdx-client-core/src/transfer.rs:52-75 | each chunk is nonempty, in bounds, at most a chunk size long, and ends where the next begins |
| Chunks.ChunksTile | crates/kdx-client-core/src/transfer.rs:52-75 | every byte position of the file lies in exactly one chunk |
| Download.ProgressGrows | crates/kdx-client-core/src/actor.rs:1973-2024 | over any events of a download (and, by ActorDownloads.RunFollows, in any client run): the set of held chunks only grows, geometry and digest stay fixed, and at most two requests are sent |
| Download.OnlyVerifiedIsPublished | crates/kdx-client-core/src/actor.rs:2580-2724 | whatever the server sends: a file is at the destination exactly if the Publish job's move went through; that job is started only with every chunk held; the file has `size` bytes with the announced digest; success is reported only if it is there |
| Download.PublishedWithoutSuccessIff | crates/kdx-client-core/src/actor.rs:1875-1881 | a failed download has its file at the destination exactly if it was ended otherwise than by its Publish job's report, once that job was started, and the job's move went through |
| Download.CompletePartialIsTheFile | crates/kdx-client-core/src/actor.rs:1973-2024 | if accepted chunks are slices of one file (any order, repeats, one or two rounds, resumed or not), a complete partial, and whatever is published, is that file |
| Download.StoreHolds | crates/kdx-client-core/src/actor.rs:1990-2011 | writing a chunk at its offset keeps every byte already held and adds exactly its own |
| HonestDownloads.HonestDownloadSucceeds | crates/kdx-client-core/src/actor.rs:2469-2724 | if the server sends the file it announced, every chunk not resumed arriving in any order and any number of times, the download succeeds with one request and the destination is that file |
| HonestDownloads.SecondRoundSucceeds | crates/kdx-client-core/src/actor.rs:2580-2634 | if the first round leaves chunks out and the second brings them, likewise, with two requests |
| HonestDownloads.FirstAccept | crates/kdx-client-core/src/actor.rs:2469-2540 | a first accept is taken exactly if it fits the request, and resumes exactly the chunks that matching resume state claims |
| HonestDownloads.NextAccept | crates/kdx-client-core/src/actor.rs:2469-2512 | a second one exactly if it is still the same file; what is held stays held |
| HonestDownloads.DataIsStoredIff | crates/kdx-client-core/src/actor.rs:1973-2011 | a chunk is stored exactly if it is of this transfer, in range, whole and has its announced hash |
| HonestDownloads.EndOfRound | crates/kdx-client-core/src/actor.rs:2607-2646 | verified if all chunks are held; asked for again only after the first round; given up after the second |
| ActorDownloads.FetchTurn | crates/kdx-client-core/src/actor.rs:615-694 | any turn of the client keeps the current download in step: equal job and matching phase, or over, successfully exactly if earned; a request is written only if the download counts it |
| ActorDownloads.RunFollows | crates/kdx-client-core/src/actor.rs:1947-2724 | the turns of any client run that concern one fetch generation, with the move of its Publish job coming at any time, are a run of the download, which was left behind exactly if a turn ended it while that job was out |
| ActorDownloads.DownloadSuccessIsVerified | crates/kdx-client-core/src/actor.rs:2580-2724 | in every client run from its start, disconnect included: a caller told success has the file at the destination; a file at the destination had every chunk held and has the announced size and digest; it is there without its caller being told exactly if the transfer ended while its Publish job was out and that job's move went through; at most two requests are written |
| ActorDownloads.CancelledButPublished | crates/kdx-client-core/src/transfer.rs:516-540 | a run from the client's start in which the download is cancelled while its Publish job is out: the caller is told an error and the file is at the destination |
| ActorDownloads.DownloadDeliversTheFile | crates/kdx-client-core/src/actor.rs:1973-2724 | in such a run, if the accepted chunks are slices of one file, whatever is at the destination is that file, and after success it is there |
| Partials.TurnGoes | crates/kdx-client-core/src/actor.rs:2580-2724 | any turn of the client leaves a download that is being verified its job until that reports, and then goes on only to the move, for a digest equal to the announced one |
| Partials.StepKeeps | crates/kdx-client-core/src/actor.rs:1875-1917 | turns of the client and detached jobs keep: at most one job out on a shared partial, the current download's own if there is one, and a move that is out finds exactly the verified bytes |
| Partials.CarefulStartsPublishOnlyVerified | crates/kdx-client-core/src/transfer.rs:183-199 | over any run with any number of downloads of one file to one place, given up or not: if none starts while an earlier one's job is out, what is at the destination has the size and digest announced to the download that put it there |
| Partials.DetachedMovePublishesUnverified | crates/kdx-client-core/src/transfer.rs:516-540 | a run without that rule: the job of a cancelled download moves the partial the next one has truncated and written, and the destination has neither download's digest |
| ActorObject.Client.PushPending | crates/kdx-client-core/src/actor.rs:1299-1304 | the entry is queued, and the connection marked dead if the queue was full |
| ActorObject.Client.SendBarrier | crates/kdx-client-core/src/actor.rs:1396-1403 | the next token's Ping is written and its barrier queued |
| ActorObject.Client.SendQuiet | crates/kdx-client-core/src/actor.rs:1385-1393 | the command is written before its barrier's Ping |
| ActorObject.Client.TakeReply | crates/kdx-client-core/src/actor.rs:1407-1421 | takes the head exactly if it waits for this type, and otherwise leaves the queue alone |
| ActorObject.Client.OnPong | crates/kdx-client-core/src/actor.rs:1423-1453 | retires the head barrier, acknowledges its chunk and answers its caller; anything else at the head is a violation |
| ActorObject.Client.OnError | crates/kdx-client-core/src/actor.rs:1455-1497 | fails the head request, or marks the head barrier once and ends the upload its chunk belongs to |
| ActorObject.Client.SendAbort | crates/kdx-client-core/src/actor.rs:1850-1870 | remembers the id in the bounded list and tells the server unless closing |
| ActorObject.Client.FailTransfer | crates/kdx-client-core/src/actor.rs:1875-1929 | ends the transfer and its background job, aborts on the server if it holds it, and answers the caller |
| ActorObject.Client.OnTransferAccept | crates/kdx-client-core/src/actor.rs:1947-1971 | an accept for a transfer no longer waiting is aborted; otherwise it starts the upload or download |
| ActorObject.Client.OnUploadAccept | crates/kdx-client-core/src/actor.rs:2190-2227 | a bad geometry ends the transfer with an abort; a good one starts with an empty window |
| ActorObject.Client.OnDownloadAccept | crates/kdx-client-core/src/actor.rs:2469-2576 | the changed-file, bad-geometry, cannot-open and started branches, with their aborts |
| ActorObject.Client.OnTransferData | crates/kdx-client-core/src/actor.rs:1973-2024 | stale data is ignored, malformed or mismatching data ends the transfer, a stored chunk is marked |
| ActorObject.Client.OnTransferEnd | crates/kdx-client-core/src/actor.rs:2026-2070 | the end of an abandoned, awaited, running or other transfer |
| ActorObject.Client.Forget | crates/kdx-client-core/src/actor.rs:2028-2032 | finds and removes the first matching id |
| ActorObject.Client.SendNextChunk | crates/kdx-client-core/src/actor.rs:2247-2298 | skips what the server has, then sends one chunk and its barrier |
| ActorObject.Client.UploadChunkAcked | crates/kdx-client-core/src/actor.rs:2300-2317 | shrinks the window and marks the chunk, for the current generation only |
| ActorObject.Client.OnBlockingDone | crates/kdx-client-core/src/actor.rs:1931-1945 | request after preparation, publish if the reported digest is the announced one, success after the move, failure otherwise |
| ActorObject.Client.StartUpload | crates/kdx-client-core/src/actor.rs:2107-2148 | refused while a transfer is active; otherwise a new generation with its preparation job |
| ActorObject.Client.StartDownload | crates/kdx-client-core/src/actor.rs:2357-2467 | refused while a transfer is active; otherwise a new generation with its request |
| ActorObject.Client.CanSend | crates/kdx-client-core/src/actor.rs:2229-2242 | something is left to send and a whole chunk fits the window, or the window is empty |
| ActorObject.Client.Close | crates/kdx-client-core/src/actor.rs:703-725 | everyone queued is answered in order, then the transfer's caller, without another write |
| ActorObject.Client.Run | crates/kdx-client-core/src/actor.rs:615-725 | the loop over any inputs ends in the torn-down state of the run: nothing queued, no transfer, and from a fresh start every caller answered exactly once |
| ActorRuns.Run | crates/kdx-client-core/src/actor.rs:615-694 | in every state a pending background job belongs to the current transfer, in the stage that started it |
| ActorRuns.TurnQueue | crates/kdx-client-core/src/actor.rs:1299-1497 | each turn settles at most the head of the queue and queues at most one entry, together with its message |
| ActorRuns.QueueBounded | crates/kdx-client-core/src/actor.rs:1299-1304 | for any inputs the queue never exceeds MAX_PENDING + 1, and MAX_PENDING while alive |
| ActorRuns.EveryCallerAnsweredOnce | crates/kdx-client-core/src/actor.rs:703-725 | for any inputs, once the connection has ended every command's caller has been answered exactly once and nobody else has |
| ActorRuns.AnswersGrow | crates/kdx-client-core/src/actor.rs:1299-1497 | no turn takes an answer back |
| ActorTransfers.UploadWindowAndCoverage | crates/kdx-client-core/src/actor.rs:2190-2317 | in every live state: the window is the summed length of the queued chunk barriers of the current generation and at most 4 MiB; what was sent is exactly the missing chunks before `next`; what is queued is its unacknowledged tail; `done` is `skip` plus what is acknowledged |
| ActorTransfers.FrontierMoves | crates/kdx-client-core/src/actor.rs:2300-2317 | the saturating subtraction is exact and the acknowledged frontier moves past the chunk |
| ActorTransfers.ChunkLedger | crates/kdx-client-core/src/actor.rs:2247-2298 | a turn of the sender ends the transfer, finds the connection dead, or keeps the ledger with `next` strictly larger |
| ActorTransfers.MissingIsComplement | crates/kdx-client-core/src/actor.rs:2247-2262 | the plan holds exactly the chunks outside `skip`, with their own lengths |
| ActorTransfers.MissingIncreases | crates/kdx-client-core/src/actor.rs:2247-2262 | in strictly increasing order, so each once |
| ActorTransfers.RefusalEndsUpload | crates/kdx-client-core/src/actor.rs:1478-1489 | an Error charged to a chunk of the current upload ends it |
| ActorTransfers.StaleAnswerIsInert | crates/kdx-client-core/src/actor.rs:1836-1971 | a late accept, Error or Pong of an ended transfer changes neither the current transfer nor its background job (what an ended transfer's own job still does to the files is the subject of `Partials`) |
| ActorTransfers.EndedStaysEnded | crates/kdx-client-core/src/actor.rs:1831-1838 | over any run, an ended generation is never current again |
| ActorTransfers.SuccessIsEarned | crates/kdx-client-core/src/actor.rs:1875-1929 | for any input a transfer goes on, or ends with its caller answered; the answer is success exactly for a verified end of a running upload or the move of a checked download |
| ActorTransfers.WorkIsEarned | crates/kdx-client-core/src/actor.rs:2580-2690 | hashing starts only at the end of a download holding every chunk, publishing only when the digest reported is the announced one |
| Uploads.UploadStarts | crates/kdx-client-core/src/actor.rs:2107-2148 | refused while busy or invalid; otherwise a new generation whose file is being prepared |
| Uploads.PreparedUploadIsAskedFor | crates/kdx-client-core/src/actor.rs:2150-2188 | the prepared upload is requested with its size and chunk size |
| Uploads.AcceptedUploadSkipsWhatTheServerHas | crates/kdx-client-core/src/actor.rs:2190-2227 | after an acceptable accept: chunk i is skipped exactly if the server's bit i is set, for every i below the count, and sending starts at the first chunk with an empty window |
| Uploads.UploadSendsExactlyWhatIsMissing | crates/kdx-client-core/src/actor.rs:2247-2298 | over any run from the client's start: once nothing is left to send, what was sent is exactly the chunks whose bit the accept left clear, each whole and once, in increasing order |
| Uploads.FreshUploadSendsEveryByte | crates/kdx-client-core/src/actor.rs:2247-2298 | with no bit set, the chunks sent cover every byte of the file |
| Uploads.SenderSends | crates/kdx-client-core/src/actor.rs:2247-2298 | a sender's turn with a readable file sends the next missing chunk whole with its barrier, or finds nothing missing |
| Uploads.SenderIsNeverStuck | crates/kdx-client-core/src/actor.rs:2229-2242 | in every reachable live state: with chunks left and nothing of the upload on its way it may send, and it sends only if one more chunk fits the window |
| Uploads.UploadEndsIff | crates/kdx-client-core/src/actor.rs:1875-1929 | in every turn, whatever the server sends: exactly which inputs end an upload; otherwise the same upload goes on for the same caller |
| Correlation.EveryAnswerReachesItsCommand | crates/kdx-client-core/src/actor.rs:8-35 | in every run: the queue matches, entry by entry, the answers in flight followed by the requests in flight; each answer read is the head's, each Pong's token is the head's, nothing is a violation, and the client's conclusions are the server's decisions in order |
| Correlation.VerdictReachesCaller | crates/kdx-client-core/src/actor.rs:1407-1497 | the next answer carries the server's next decision, which is about the head, and whoever waits there is told exactly it |
| Correlation.EveryCallerHearsTheServersDecision | crates/kdx-client-core/src/actor.rs:8-35 | over whole runs, what the server decided about a request, or about a command whose caller waits for its barrier, is what that caller was told |
| Commands.CommandLeavesItsEntry | crates/kdx-client-core/src/actor.rs:1306-1403 | a request leaves an entry waiting for exactly its reply type; a waiting command's caller is held by its barrier and told nothing yet; any other is told at once that it was written |
| Commands.UnwrittenCommandIsRefused | crates/kdx-client-core/src/actor.rs:1359-1383 | a command too large or unwritable leaves no entry, and its caller is told at once |
| Commands.WaitingCallersHearOnlyTheServer | crates/kdx-client-core/src/actor.rs:772-783 | over every run of client and server: the caller of a request or waiting command is told once, success only if the server decided for that very command and refusal only if against; until then its entry is in the queue |
| Commands.DownloadIsAskedFor | crates/kdx-client-core/src/actor.rs:2357-2467 | refused while busy or invalid; otherwise a new generation with its request in the queue |
| Commands.GivingUpTellsTheServer | crates/kdx-client-core/src/actor.rs:1875-1929 | ending a transfer answers its caller, and tells the server exactly if it holds the transfer and the connection is open |
| Commands.LatestAreRemembered | crates/kdx-client-core/src/actor.rs:1850-1857 | the sixteen latest ids given up are remembered, in order |
| Commands.AwaitedDownloadAccept | crates/kdx-client-core/src/actor.rs:2469-2576 | runs; or cannot be opened, and the server is not told; or is refused, and it is told once |
| Commands.RefusedUploadAccept | crates/kdx-client-core/src/actor.rs:2190-2213 | an accept that does not fit ends the upload with one abort |
| Commands.LateAcceptIsAborted | crates/kdx-client-core/src/actor.rs:1947-1971 | an accept of something given up is aborted and its id remembered |
| Commands.LateEndIsForgotten | crates/kdx-client-core/src/actor.rs:2026-2033 | an end of something given up removes one remembered id and does nothing else |
| Commands.CancelEndsTheTransfer | crates/kdx-client-core/src/actor.rs:991-1003 | the caller of the transfer is told first, then the cancel itself |
| Correlation.RunsStayCorrelated | crates/kdx-client-core/src/actor.rs:8-35 | the correspondence between queue, line and decisions is kept by every step of client and server |
| Correlation.LateEndBreaksCorrelationIff | crates/kdx-client-core/src/actor.rs:2026-2051 | a late TransferEnd keeps the queue in step if and only if it is not taken for the head's answer |
| Correlation.ForgottenTransferBreaksCorrelation | crates/kdx-client-core/src/actor.rs:2557-2563 | a concrete run in which a transfer ended without an abort makes the client reject the answer to its next request |
| UploadSlots.Dispatcher.Handle | crates/kdx-server-core/src/connection.rs:1467-1602 | one frame: upload start, data and end against the three slots, and the answers of everything else |
| UploadSlots.Dispatcher.SettleChunk | crates/kdx-server-core/src/connection.rs:762-800 | a settled chunk goes back to the upload, on to finishing, or ends the attempt |
| UploadSlots.Dispatcher.Serve | crates/kdx-server-core/src/connection.rs:655-817 | the whole connection for any events, including what its end drops; from a fresh start, answers in order and every accepted upload concluded exactly once |
| UploadSlots.UploadsConcludedOnce | crates/kdx-server-core/src/connection.rs:655-817 | in every run at most one slot is occupied, every frame has all its answers (a chunk's Error included) before the next is read, and every accepted upload is concluded exactly once |
| UploadSlots.CompleteUploadIsEnded | crates/kdx-server-core/src/connection.rs:756-816 | over every run, once an attempt's last chunk is stored: no later frame releases it or is taken as its chunk, and while the connection lives its end is written, or is what the next finish writes |
| UploadSlots.NextChunkIsTaken | crates/kdx-server-core/src/connection.rs:756-785 | after a chunk that was not the last, or was bad and answered so, whatever comes between: the next chunk of that upload is taken without an Error |
| UploadSlots.ConclusionsHaveReasons | crates/kdx-server-core/src/connection.rs:756-816 | over every run: an attempt is ended only after a complete accept, its last chunk or a storage failure, released only by the client's TransferEnd for it, and dropped only with the connection |
| UploadSlots.LateFramesAreIgnored | crates/kdx-server-core/src/connection.rs:1509-1602 | late chunks and ends of an attempt being finished or just ended get no answer |
| UploadSlots.EachFrameGetsItsAnswer | crates/kdx-server-core/src/connection.rs:1467-1602 | what each frame is answered and what becomes of the slots |
| UploadSlots.ConnectionEndsIff | crates/kdx-server-core/src/connection.rs:655-817 | exactly which events end the connection |
| ServerContract.FitsIffSayable | crates/kdx-client-core/src/actor.rs:15-27 | the answers the dispatcher may give a frame are exactly those the protocol's server may give the message in it |
| ServerContract.EntryIsServerStep | crates/kdx-server-core/src/connection.rs:655-817 | from any state of the system that is where the log is, the next entry of an orderly log is one legal step of the protocol's server, or none: it sends the client that answer to that message and leaves the client alone |
| ServerContract.LogIsServerRun | crates/kdx-server-core/src/connection.rs:655-817 | an orderly log whose entries come between any legal steps of the client is, with them, a legal run of the protocol |
| ServerContract.DispatcherKeepsContract | crates/kdx-client-core/src/actor.rs:8-13 | however the log of a dispatcher, for any events, and the steps of a client interleave from the start of the connection, the whole is a run the correlation theorems are about, and the queue stays in step |
| LoginRace.NoStaleSession | crates/kdx-server-core/src/connection.rs:534-586 | in every interleaving a session past its recheck agrees with the stored rights, credential, bans and address rules, or is killed, or will be reached by a change already written; whoever changes a password carries the new one, and only the author of the latest change of the address rules is exempt, from that change |
| LoginRace.QuietServerHasNoStaleSession | crates/kdx-server-core/src/connection.rs:597-643 | once every written change has been delivered, agreement is all that is left, but for the address of whoever made the latest rule change |
| LoginRace.RecheckSafe | crates/kdx-server-core/src/connection.rs:534-586 | each of the four reads, on its own, establishes its part of that promise; an unreadable database ends the session |
| LoginRace.CompareSafe | crates/kdx-server-core/src/auth/policy.rs:441-454 | re-reading each account under the mutation lock, and kicking afterwards only those that differ or cannot be read, misses nobody |
| LoginRace.PasswordSafe | crates/kdx-server-core/src/connection.rs:2552-2592 | storing the new credential before signing out the others leaves every other session covered, and the acting one agreeing until someone changes it again |
| LoginRace.SweepSafe | crates/kdx-server-core/src/ip_rules.rs:253-270 | list, judge and disconnect as separate steps still reach every denied session that joined before the list |
| LoginRace.RecheckExact | crates/kdx-server-core/src/connection.rs:542-586 | after each read the session is still there exactly if the database was readable and what that read compares agrees; nothing and nobody else changes |
| LoginRace.HonestLoginServes | crates/kdx-server-core/src/connection.rs:597-640 | in every interleaving: a joined session that agrees with what is stored passes each of its reads, and after four it serves |
| LoginRace.FreshLoginServes | crates/kdx-server-core/src/connection.rs:597-640 | from the proof of the password on, with nobody else about, and nothing else is changed |
| LoginRace.NobodyKickedWithoutCause | crates/kdx-server-core/src/connection.rs:534-541 | over every run: a session is marked killed only if some step gave cause: rights really changed or unreadable, a reset or another session's password change, a ban, or a denied address found by a sweep not its own |
| LoginRace.KilledOnlyIfStruck | crates/kdx-server-core/src/connection.rs:605-621 | over every run: only if a kick or sweep that hits it was delivered while it had joined |
| LoginRace.KilledIffStruck | crates/kdx-server-core/src/connection.rs:605-621 | a session is marked in exactly the step that delivers a kick or sweep hitting it, and stays marked |
| LoginRace.OthersEndNoSession | crates/kdx-server-core/src/connection.rs:597-640 | a session ends only by its own read or its own leaving |
| LoginRace.AccountsAreStored | crates/kdx-server-core/src/connection.rs:534-541 | what each administrative step leaves in the accounts, and that no other step writes to them |
| PostLimiter.Limiter.Allow | crates/kdx-server-core/src/news.rs:179-198 | one call: the new table, pruned when large, and the verdict |
| PostLimiter.PruningIsInvisible | crates/kdx-server-core/src/news.rs:179-198 | for every sequence of calls in time order, the pruned table answers as one that is never pruned |
| PostLimiter.WindowBound | crates/kdx-server-core/src/news.rs:107-112 | whatever came before, an author gets at most POST_BURST + T / POST_REFILL posts in any window of length T |
| PostLimiter.AllowedIffWindowsPermit | crates/kdx-server-core/src/news.rs:179-198 | for every sequence of calls: a post is allowed exactly if, with it, its author keeps to five posts and one for every ten seconds in every window up to now |
| IpRules.CompiledMeansCovers | crates/kdx-server-core/src/ip_rules.rs:30-41 | comparing canonical forms decides exactly what the rule covers |
| IpRules.MappedAlike | crates/kdx-server-core/src/ip_rules.rs:13-16 | an IPv4 address and its IPv4-mapped form match alike under every rule; for an IPv6 rule of prefix 96 or longer, exactly if it holds the mapped address |
| IpRules.ShortPrefixesAreIPv6Only | crates/kdx-server-core/src/ip_rules.rs:30-41 | an IPv6 prefix shorter than 96 matches exactly the unmapped IPv6 addresses it holds |
| IpRules.CanonicalCoversTheSame | crates/kdx-server-core/src/ip_rules.rs:217-221 | storing the canonical form changes nothing about what a rule covers |
| IpRules.ListSorted | crates/kdx-storage/src/ip_rules.rs:65-74 | the list is ordered by position, then creation time |
| IpRules.Manager.Reload | crates/kdx-server-core/src/ip_rules.rs:150-167 | the cache becomes the compiled list, or stays as it was if storage fails or any row does not parse |
| IpRules.Manager.MatchIp | crates/kdx-server-core/src/ip_rules.rs:172-186 | the verdict is the first match over the rows last loaded, by what each rule covers |
| IpRules.FirstMatchIsFirst | crates/kdx-server-core/src/ip_rules.rs:172-186 | the verdict is that of the first rule covering the address, and Allowed if none does |
| IpRules.OthersStay | crates/kdx-server-core/src/ip_rules.rs:237-242 | deleting a rule takes exactly the rows with its id |
| IpRules.Manager.Create | crates/kdx-server-core/src/ip_rules.rs:208-235 | an unparsable network or a failed write changes nothing; otherwise the row is stored; exactly when it succeeds, and that the cache then reflects all rows |
| IpRules.Manager.Delete | crates/kdx-server-core/src/ip_rules.rs:237-242 | a missing rule or a failed delete changes nothing; otherwise it is gone; exactly when it succeeds, and that the cache then reflects the rest |
| History.Coalesce | crates/kdx-server-core/src/history.rs:258-282 | one row for each first occurrence, in order, with the exact number of occurrences (rendered as History.RenderedRow says) |
| History.FirstsInOrder | crates/kdx-server-core/src/history.rs:258-282 | the rows stand in the order of first occurrence, each with that first event |
| History.CoalesceConserves | crates/kdx-server-core/src/history.rs:258-282 | for every key the rows account for exactly as many events as there were |
| History.TruncateUtf8 | crates/kdx-server-core/src/limits.rs:59-68 | the loop cuts at the last character boundary within the limit |
| History.RepeatCountFits | crates/kdx-server-core/src/history.rs:285-292 | the repeat count never pushes a detail over its limit: a prefix of it cut at a character, a blank, and the whole suffix |
| History.SuffixInjective | crates/kdx-server-core/src/history.rs:285-292 | the suffix determines the count |
| History.RenderedRow | crates/kdx-server-core/src/history.rs:270-281 | the stored detail keeps to the limit, unchanged for a single event and otherwise ending in its count |
| History.Writer.Record | crates/kdx-server-core/src/history.rs:189-209 | queued with actor and detail cut to their limits if there is room, otherwise counted as dropped |
| History.ClippedAsLittleAsPossible | crates/kdx-server-core/src/history.rs:189-209 | texts are cut only where too long, at a character, and as little as possible |
| History.RefusedOnlyWhenFull | crates/kdx-server-core/src/history.rs:189-209 | an event is refused exactly if the queue is full, and then counted |
| History.DropsAreReported | crates/kdx-server-core/src/history.rs:315-333 | every refusal counted so far is in the report the next successful write adds, and the counter restarts |
| History.Writer.WriteBatch | crates/kdx-server-core/src/history.rs:315-333 | the coalesced batch and the report of dropped events are written together |
| History.EveryEventIsAccountedFor | crates/kdx-server-core/src/history.rs:304-345 | while writes succeed every detached event is queued, in the batch at hand, written with its multiplicity or refused, and every refusal is counted or reported, exactly once |
| Scram.MessageWithLabel | crates/kdx-crypto/src/scram.rs:113-124 | the appended bytes are the label and every field in order |
| Scram.BuildChangeMessage | crates/kdx-crypto/src/scram.rs:141-151 | the same with the whole new credential appended |
| Scram.AuthMessageInjective | crates/kdx-crypto/src/scram.rs:105-125 | login messages are equal exactly if all their fields are (lengths below 2^32) |
| Scram.ChangeMessageInjective | crates/kdx-crypto/src/scram.rs:139-152 | so are change messages, the new credential included |
| Scram.LoginIsNotChange | crates/kdx-crypto/src/scram.rs:105-152 | no login message equals a change message, whatever the fields |
| Scram.Prove | crates/kdx-crypto/src/scram.rs:208-226 | the bounds are checked first; then the masked client key and the expected server signature |
| Scram.Verify | crates/kdx-crypto/src/scram.rs:368-380 | accepts if the unmasked key hashes to the stored key, and answers with the server signature |
| Scram.HonestProofVerifies | crates/kdx-crypto/src/scram.rs:208-226 | for every password and message within bounds, the server accepts the proof and answers as the client expects; outside bounds there is no proof |
| Scram.AcceptedIffKeyKnown | crates/kdx-crypto/src/scram.rs:368-380 | the accepted proofs are exactly those that mask some preimage of the stored key with this message's signature |
| Scram.ProofIsForOneMessage | crates/kdx-crypto/src/scram.rs:368-380 | a proof accepted for two messages shows two messages with one signature or two keys with the stored hash |
| Scram.ProofAsDefined | crates/kdx-crypto/src/scram.rs:208-226 | the proof is the client key under the signature of the message, and the expected answer the server key's own, as RFC 5802 defines them |
| Scram.BoundsExactly | crates/kdx-crypto/src/scram.rs:389-397 | which parameters and credentials are acceptable |
| Scram.XorIsBitwise | crates/kdx-crypto/src/scram.rs:208-226 | masking is exclusive or, bit by bit |
| Scram.HonestLogin | crates/kdx-crypto/src/scram.rs:320-335 | a whole login, each end building the message from its own copy of the fields |
| Scram.HonestChange | crates/kdx-crypto/src/scram.rs:344-363 | a whole password change to an acceptable credential |
| CredentialText.ReadParams | crates/kdx-crypto/src/scram.rs:429-449 | the assignment loop: any order, each of the three at most once, nothing else |
| CredentialText.CredentialRoundTrip | crates/kdx-crypto/src/scram.rs:407-466 | a stored credential is read back exactly if its salt has 1 to 64 bytes, and not at all otherwise |
| CredentialText.RepeatIsRefused | crates/kdx-crypto/src/scram.rs:429-449 | no parameter may be given twice, wherever the two stand |
| CredentialText.AcceptedRecord | crates/kdx-crypto/src/scram.rs:420-466 | what an accepted record consists of |
| Text.Base64RoundTrip | crates/kdx-client-core/src/transfer.rs:263-277 | base64 with padding decodes to what was encoded |
| Text.DecimalRoundTrip | crates/kdx-client-core/src/transfer.rs:297-298 | a printed number parses back, within its width |
| Sidecar.IdRoundTrip | crates/kdx-client-core/src/transfer.rs:271-296 | a hyphenated id parses back |
| Sidecar.ReadFields | crates/kdx-client-core/src/transfer.rs:283-289 | the field loop: every line a pair, no key twice |
| Sidecar.SidecarRoundTrip | crates/kdx-client-core/src/transfer.rs:263-322 | every consistent sidecar is read back exactly, an inconsistent one not at all |
| Sidecar.AcceptedSidecarIsUsable | crates/kdx-client-core/src/transfer.rs:281-322 | whatever text is on disk, what is accepted is within the geometry bounds and has one bitmap bit for each chunk |
| Sidecar.CollectedIff | crates/kdx-client-core/src/transfer.rs:281-289 | lines are read exactly if each is a pair and no key comes twice, and then each gives one field |
| Sidecar.AcceptedTextIsComplete | crates/kdx-client-core/src/transfer.rs:281-322 | only nine distinct pairs of version 3, with valid UTF-8 texts and consistent geometry, are read |

## Left out

- Correlation.EveryAnswerReachesItsCommand: assumes that no TransferEnd is taken for the answer at the head of the queue, which is the exact condition; the two lemmas on late ends say what happens without it.
- Correlation.EveryAnswerReachesItsCommand: covers the time after login; the login exchange itself, which uses no queue, is not part of this model.
- Download.CompletePartialIsTheFile: is about chunks the client accepted; that a chunk is the file's slice is the assumption, since the chunk hash comes from the same server.
- ActorDownloads.DownloadSuccessIsVerified: takes it from the hash job that the digest it reports is that of the partial's first `size` bytes (`transfer.rs:451-480`), and from the Publish job whether its move went through; the partial is this download's alone (`Partials` is about sharing it).
- Partials.CarefulStartsPublishOnlyVerified: the move is one step, the rename; the copy made where a rename is refused, which hashes again what it copies and removes a destination it could not finish, is not modelled. The jobs are those of one client; a second connection of the same user to the same partial is not part of this model.
- PostLimiter.WindowBound: uses exact real arithmetic; floating-point rounding of the source is not modelled.
- IpRules.ListSorted: rows equal in position and creation time are listed in the order they were stored, which the database does not promise.
- LoginRace.RecheckExact: a login without a credential stamp, or from a peer without a network address, skips the read concerned; both kinds are not part of this model.
- LoginRace.NoStaleSession: a ban that lapses with time is the same step as one that is lifted; server shutdown is not modelled.
- UploadSlots.UploadsConcludedOnce: handlers other than the upload's are reduced to the answer they give; downloads and rate limits appear only where they decide an answer.
- ActorObject.Client.SendQuiet: a write that fails takes nothing of the message with it; the source may have written part of it, on a connection that is dead either way.
- ActorObject.Client.OnError: events for the user interface, progress reports and the sidecar writes beside a transfer are not part of the state.
- Sidecar.SidecarRoundTrip: paths are byte strings as on Unix, and which bytes are valid UTF-8 is a parameter.
- Private-chat invitations, room membership and the other per-packet handlers of client and server.
- The reply window of newsgroup listings and other listing code, which only adds easy members.
- Retention of the history table, and the wording of the row that reports dropped events.
- TLS, sockets, timers and task scheduling: replaced by arbitrary orders of steps.
- Payload decoding errors of individual message types, which end the connection.
- Constant-time comparison and the clearing of secrets from memory.
- Legacy password hashes and decoy salts.
- Local file name cleaning, certificate pinning, the user interface and build scripts.
