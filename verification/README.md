# Verification of filerail

A Dafny model of filerail, the client and server that copy a file or folder as one encrypted zip archive over TCP and
resume interrupted transfers from checkpoints, with proofs of what the protocol promises. `dafny verify dfyconfig.toml`
checks the whole project.

## How it is built

One definition, `Protocol.Next`, says what each of the four programs (client session, server session, sender and
receiver of the archive) does at each of its control points, with the same branches, codes and constants as the C code.
`Protocol.World` puts two processes, two FIFO channels and the receiver's disk together; an action is a step of one
process or its end at any point, including in the middle of a write, of the removal of an old resource or of an
extraction. `History` chains any number of such sessions, each abandoned anywhere, on one disk, together with sessions
in which this host is the sender and builds its zip file there. The main results hold in every state so reached.

The disk is the set of regular files, by name. A path is what a program was given; `Env.file` says which file it names,
so that two paths can name one file. A session writes its partial file, its checkpoint and a temporary checkpoint, and
removes and extracts files below the name of its resource (`History.Touches`).

| file | part of filerail |
|---|---|
| `Bytes`, `MsgPack`, `Codec`, `Serializer` | octets, the MessagePack formats, the six messages, `serializer.h` and `deserializer.h` |
| `Cipher`, `Crypto` | the packet pipeline and `crypto.h` |
| `Transport`, `Socket` | framing and the partial send and recv loops of `socket.h` |
| `Disk` | checkpoint names and records, file operations |
| `Protocol` | the transition system of a session |
| `Invariant`, `Preservation` | the inductive invariant and its proof |
| `History`, `SharedPaths`, `Session`, `Recovery`, `Resume`, `Waste`, `Rising`, `Concurrent` | crash consistency and its exact conditions; deadlock, codes, agreement, verdict; convergence and resumption; who may decline a resume; bounded waste; recorded offsets; concurrent service |
| `Walk` | explicit runs, for what can happen |
| `Delivery` | the byte streams implement the channels of the session |
| `Host`, `Handlers` | the C functions as imperative code, proved to follow the session model |
| `Trees`, `Zip` | recursive removal, zipping and extraction of `utils.h` |
| `Copy` | what a successful session leaves on the receiver's disk, down to the leaves of the zipped tree |

The imperative code runs on a `Hosts.Process`. What the model leaves open (a user's decision, a test of a file, stray
memory) is given by `Hosts.Answers`; with the answers fixed the model has one run, and every handler is proved to be on
it: when it returns normally, at the point its contract names, with the messages, files and events the contract states;
and when it gives up, in a call that has failed (`Halted`). `reliable` says that no call fails that can succeed. A
process that is reliable gives up only where it is `Stuck`: no message of the kind it reads comes next, the connection
takes no more, a file is not there, or a checkpoint may not be read.

## Assumptions

- A crash is the end of a process. What was flushed survives; an interrupted write leaves a prefix of what was being
  written; `rename` is atomic. Reads are short only at the end of a file. `fflush` and `fclose`, whose results the code
  ignores (filerail/socket.h:453, 469, 471), succeed; and on the stream opened "r+b" the first write after the reads
  that find the offset continues at the read position (filerail/socket.h:395-446).
- A session that ends early, for whatever reason (a failed call, a timeout, a signal, a closed connection), is a stop of
  one or both processes. A message in flight when its reader stops is lost.
- The archive is not empty, shorter than 2^64 octets, and the path of the partial file fits `MAX_PATH_LENGTH`. The
  partial file is no checkpoint and does not lie in the resource of its own session, and no checkpoint lies in a
  resource (`Job.Valid`): nobody uploads over the directory of checkpoints.
- Which file a path names does not change during a history, and extraction of an archive writes files below the name
  of the resource only, as the archives that filerail builds do. The last component of a name in use is no symbolic
  link, and an old resource holds none through which extraction could leave it.
- The zip file that a host builds when it sends can have any content while it is there, and can be left behind. The two
  sides of one session work on different disks.
- MD5 is an arbitrary function. That no two archives of a history share a digest is assumed of the archives in it
  (`Legal`), and that no other octets at all have an archive's digest only where a theorem names it (`NoSecondPreimage`;
  `Genuine`: archives whose resource a partial file lies in, because what is extracted is any content that had the
  right digest).
- AES is an arbitrary permutation of blocks with its inverse. Nothing is claimed about secrecy.
- Sessions run one after the other, except in `Concurrent`, where the archives and partial files of the sessions served
  at the same time are pairwise different and no partial file lies in the resource of another session.
- `hex_str` (filerail/operations.h:215) is read as the 32 characters written to it, although the code never terminates
  it. Offsets are unbounded natural numbers where the code compares them with `int i` (filerail/socket.h:396).
- Outcomes are read off events (OK received, digest compared, archive extracted), never off `exit_status`, which is 0
  after `NO_INTEGRITY` and may be -1 after a restart that succeeds.

## What the proofs show about the code

- A partial file that others write to can mislead the receiver, and `SharedPaths` says exactly when. An accepted
  checkpoint of an archive is always true if and only if (1) every archive sent to the same file, by this path or an
  alias of it, is shorter than min(1024, its length), or a prefix of it, or an extension of it, (2) what the extraction
  of another archive leaves in that file agrees with the archive up to every offset a checkpoint can hold, and (3) the
  host builds there no zip file of something it sends. Otherwise two or three sessions suffice for a checkpoint that
  passes every test of filerail/operations.h:248-278 over other octets (`Samples`: "/t" and "/t/"; `SamplesExtracted`:
  an upload called `a.zip` while `a` is interrupted). The hash check then fails, the file and the checkpoint are
  removed, even where the file was another client's upload, and the next transfer succeeds (`Convergence`);
  `ResumeOutcome` says which resumed transfers deliver. Removal of an old resource alone falsifies nothing: a checkpoint
  without its file is not accepted.
- Sessions served at the same time need more: a receiver does not survive the removal of its partial file with an old
  resource, or a second transfer that starts in the same file (`Concurrent.Interferes`); apart from that they do not
  disturb each other (`NonInterference`). `BoundedWaste` likewise supposes that nobody else touches the partial file.
- The recorded offset rises within a session. Across sessions it falls exactly when a session does not resume although
  more than the first block was recorded (`RecordedOffsets`); `OffsetsFall` exhibits this for a declined resume, which
  truncates the file under the old checkpoint.
- `filerail_rm` of a path that is neither file, link nor directory reports success and removes nothing.
- The comment at filerail/operations.h:267 asks that the recorded offset match the size of the partial file; the code
  only tests that it is not larger, and the model follows the code.

## Model

| member | source | states |
|---|---|---|
| `History.CrashConsistency` | filerail/socket.h:391-488 | in every reachable state, over any sessions, crashes, removals, extractions and zip files built on this host: a partial file that only beginnings of one archive are ever put into holds one of them; and where nothing ever put there falsifies it, a checkpoint that passes the receiver's test promises octets that are there and are the archive's |
| `SharedPaths.PrefixExact` | filerail/socket.h:391-455 | the first condition is exact: the partial file is a prefix of the archive in every reachable state if and only if every archive sent to that file, by whatever path, is one, every archive that is extracted over it holds one for it, and this host builds no zip file there |
| `SharedPaths.CheckpointExact` | filerail/operations.h:248-278 | so is the second: every reachable accepted checkpoint of the archive is true if and only if each archive sent to the same file, by whatever path, is shorter than min(1024, its length), or a prefix of it, or an extension of it; what the extraction of another archive leaves in that file agrees with it up to every offset a checkpoint can hold; and this host builds no zip file there |
| `SharedPaths.Samples` | filerail/operations.h:262-281 | concrete archives of m octets 0 and n octets 1 at one path, or at two paths of one file ("/t" and "/t/"): the first can be misled exactly when n is at least min(1024, m) |
| `SharedPaths.SamplesExtracted` | filerail_server.c:263-275 | the same when the second upload is a file of n octets called like the partial archive of the first, which it overwrites when it is extracted |
| `SharedPaths.Falsified` | filerail/operations.h:262-281 | the histories behind it: two or three interrupted sessions after which an accepted checkpoint promises another archive's octets |
| `SharedPaths.FalsifiedByExtraction` | filerail/operations.h:366-370 | an interrupted session and a whole one, whose extraction leaves something else in the partial file |
| `SharedPaths.FalsifiedBySending` | filerail/operations.h:75-87 | an interrupted session, and one in which this host builds its zip file over the partial file |
| `Walks.FromStart` | filerail/socket.h:431-488 | an upload or download that starts at 0 can be interrupted right after any of its checkpoints, leaving exactly the octets so far and that checkpoint |
| `Walks.FromCheckpoint` | filerail/operations.h:279-296 | a resumed one can be interrupted right after its first packet, which was written over the file at the offset |
| `Walks.ToExtraction` | filerail/operations.h:349-371 | one that starts at 0 can run until all files of its archive are extracted |
| `Recovery.ResumeOutcome` | filerail/operations.h:341-361 | exactly when a transfer delivers, in terms of the disk before it: it begins at the offset that disk offers, or at 0 if the offer is declined or there is none; at the hash check the file equals the archive if and only if it began at 0, or the file found agreed with the archive up to the offer and was not longer |
| `Recovery.CourseRun` | filerail/operations.h:248-316 | where a session's transfer begins is decided by the checkpoint test on the disk it found and by what was answered |
| `Resumption.OfferHolds` | filerail/operations.h:113-158 | whatever happens after a receiver has offered to resume at c, its transfer begins at c; it begins at 0 only in an upload |
| `Resumption.DownloadsNeverDeclined` | filerail/operations.h:114-124 | in a download no refusal is ever under way to a receiver that asked to resume: a server always agrees |
| `Resumption.DownloadResumes` | filerail/operations.h:279-296 | hence a download whose client has offered c, and that nobody stops, comes to the point where the client opens its partial file at c |
| `Resumption.DownloadBegins` | filerail/operations.h:248-316 | where a download begins is decided by the disk alone: at the offset of the checkpoint found there unless reading it fails, else at 0 |
| `Recovery.Convergence` | filerail/operations.h:349-391 | from any reachable disk, two consecutive uninterrupted transfers to one path suffice: the first extracts the archive or removes file and checkpoint, the second then extracts exactly the archive |
| `Recovery.QuiescentDone` | filerail/operations.h:393-398 | a session that nobody interrupts ends only with both processes finished |
| `Recovery.FinishedTransfer` | filerail/operations.h:373-391 | a receiver that ran to its end has removed partial file and checkpoint, and extracted exactly when the hash matched |
| `Waste.BoundedWaste` | filerail/socket.h:431-488 | from any disk without a checkpoint of the archive, any number of interrupted sessions that each resume take together at most ceil(length / 1024) packets plus one per interruption, whatever happens elsewhere in between: pings, transfers of other archives that neither write the same file nor remove or extract at it, and zip files built elsewhere |
| `Waste.InterruptedTotal` | filerail/socket.h:431-488 | the sum over the archive's own sessions, measured by how far its recorded offset has moved |
| `Waste.OneSession` | filerail/operations.h:289-296 | packets taken by one session against the recorded offsets before and after it |
| `History.CheckpointsAtomic` | filerail/socket.h:455-485 | after any crash, also in the middle of a write, a checkpoint is absent or a complete record written by a session of the archive it is named after, with 0 < offset <= length, on a packet boundary or at the end |
| `RisingOffsets.RecordedOffsets` | filerail/socket.h:455-485 | within a session each record put in place holds a larger offset than the one before, the first being one packet past where the transfer began; against the offset m recorded before the session, the first lies below m exactly when the session did not resume and m was past the first block, and all lie above m exactly when it resumed or m was not yet the first block |
| `RisingOffsets.OffsetsFall` | filerail/operations.h:289-302 | a history in which it falls: an upload interrupted at its second checkpoint, its resumption declined, interrupted again at its first |
| `RisingOffsets.RenameIs` | filerail/socket.h:481-485 | a rename records the position of the receiver that renames |
| `RisingOffsets.OnlyRenamesRecord` | filerail/socket.h:457-485 | nothing but a rename changes the recorded offset, except that the checkpoint is removed |
| `SessionProperties.AtomicCopy` | filerail/operations.h:341-371 | whatever happened before, a session checks and extracts nothing or exactly the advertised archive, at most once; the sender reports a match only if the receiver's file equalled its archive |
| `SessionProperties.DeadlockFree` | filerail_client.c:161-365 | in every reachable state both sides are finished, or one can step, or a peer's close is pending, for PING, PUT and GET and any archive |
| `SessionProperties.HalfDuplex` | filerail_server.c:239-308 | in every reachable state at most one of the two channels holds undelivered messages |
| `SessionProperties.LiveWithAnyCapacity` | filerail_client.c:195-242 | hence with any positive channel capacity some side can always act: it receives, works locally, or writes into an empty channel |
| `SessionProperties.CodesUnambiguous` | filerail_server.c:259-287 | no "PROTOCOL NOT FOLLOWED" branch is reachable between honest peers, and each arriving message is of the kind read and one of the codes expected there |
| `SessionProperties.NumbersCollide` | filerail/protocol.h:10-33 | the numbers that commands and responses share, which make the previous row necessary |
| `SessionProperties.SessionsTerminate` | filerail/socket.h:318-349 | from any reachable state the two processes take at most as many steps as its rank |
| `SessionProperties.ReachedSessionsTerminate` | filerail/socket.h:431-488 | a session takes at most 8 * length + 45 steps |
| `SessionProperties.CanFinish` | filerail/operations.h:200-398 | while both processes are up the session can run to a state in which neither can act |
| `SessionProperties.OffsetsAgree` | filerail/operations.h:122-158 | after every handshake branch the two sides hold the same offset when the size is advertised |
| `SessionProperties.Conservation` | filerail/socket.h:302-349 | octets written, octets in flight and octets the sender still has to send are the whole archive at every step of the receiving loop; when the receiver has the whole archive nothing is in flight and the sender's loop has ended too |
| `SessionProperties.SenderNoUnderflow` | filerail/socket.h:301-347 | the sender's unsigned subtractions never wrap, and every packet carries at least one octet |
| `SessionProperties.ReceiverNoUnderflow` | filerail/socket.h:418-486 | nor do the receiver's |
| `Concurrent.NonInterference` | filerail_server.c:192-418 | any interleaving of concurrently served sessions with different hashes and partial files, none of which lies in the resource of another, and of zip files built elsewhere, keeps each session's own invariant, and the disk crash consistent |
| `Concurrent.Interferes` | filerail_server.c:263-270 | without that a session does not keep it: a receiver in its loop does not survive the removal of its partial file with an old resource, nor a second transfer that starts in it |
| `Concurrent.FootprintsDisjoint` | filerail/operations.h:242-246 | nothing that one such session writes, removes or extracts is a file of another |
| `Concurrent.InvFrame` | filerail/socket.h:386-388 | a session's invariant depends on its own three files only |
| `Concurrent.StepDisk` | filerail_server.c:210-220 | a step of one served session keeps the shared disk invariant, and changes only its own three files and what is in its resource |
| `Delivery.StreamsImplementSession` | filerail/socket.h:511-910 | a forward simulation: two processes that encode what they say, frame it, push it through streams of any capacity split anyhow and decode it as the kind they read, take exactly the steps of a session, from any reachable disk |
| `Delivery.StepImplements` | filerail/socket.h:221-253 | one step of it: movements of octets change nothing for the session, every other step is a step of it |
| `Delivery.StreamsDeliver` | filerail/socket.h:221-253 | nothing is lost: whatever a process may do in the session it can do over the streams, at the latest after octets have moved or its own send has ended, unless its peer dies within a send |
| `Delivery.StreamsLive` | filerail/socket.h:221-253 | no deadlock over streams that hold any positive number of octets, where a process that sends is blocked until its whole message is accepted: while both processes are up and not both finished, one can act or octets can move |
| `Delivery.StreamsFinish` | filerail/socket.h:221-253 | hence a session over them can always run on until both processes have finished |
| `Delivery.SaidFits` | filerail/protocol.h:45-72 | every message a session says fits its C structure |
| `Preservation.DoKeeps` | filerail/operations.h:36-398 | the session invariant (turn-taking, numbers, disk, log) is kept by every action, crashes and torn writes included |
| `Preservation.ActKeeps` | filerail/operations.h:36-398 | in particular by every step of a process |
| `Preservation.StopKeeps` | filerail/socket.h:446-468 | in particular when a process dies in the middle of a write |
| `Preservation.TornKeeps` | filerail/socket.h:457-468 | a write, removal or extraction cut short never damages a checkpoint |
| `Preservation.RemovalKeeps` | filerail_server.c:263-270 | removing the old resource leaves the session's own files alone |
| `Preservation.ExtractKeeps` | filerail/operations.h:366-370 | so does extracting the new one |
| `Preservation.StartGood` | filerail_server.c:217-223 | the invariant holds when a session starts on any disk with a sound checkpoint |
| `Preservation.RunKeeps` | filerail/operations.h:200-398 | and after any run |
| `Preservation.LookupFinds` | filerail/operations.h:248-278 | what the checkpoint search offers is positive, on a packet boundary or at the end, and recorded for this path |
| `Preservation.OtherFrame` | filerail/operations.h:36-198 | a side that does not receive never touches the receiver's disk, log or position |
| `Invariant.StepOneWay` | filerail_client.c:195-335 | hearing a message keeps one channel in use and the two processes in step |
| `Invariant.TurnOneWay` | filerail_server.c:239-388 | so does acting |
| `Invariant.MessageUnderstood` | filerail/operations.h:122-153 | a message with an intended meaning at a receive is taken in that meaning |
| `History.DoDisk` | filerail/socket.h:391-488 | the disk changes only by a call of the receiver, by the removal of the old resource, or by how far one of these has got when the process dies |
| `History.StepFrame` | filerail/operations.h:366-391 | and only in the session's three files and in its resource |
| `History.OwnCheckpoint` | filerail/socket.h:481-485 | the only new checkpoint a session can leave is a complete record for its own archive and path |
| `History.RecordedKept` | filerail/socket.h:455-485 | every checkpoint on disk stays one that a past session wrote for that hash |
| `History.FileStepIs` | filerail/socket.h:391-455 | all that one action of a session can do to its own partial file: remove or empty it, or write the archive's next octets at a packet boundary, the first block into an empty file only |
| `History.ChangedIs` | filerail/operations.h:366-370 | all that it can do to any file that is no checkpoint: nothing, remove it, that, or extract some beginning of what the archive holds for it |
| `History.PrefixKept` | filerail/socket.h:391-455 | such a step keeps the file a prefix of any archive the written one is a prefix of |
| `History.GentleKeeps` | filerail/socket.h:391-485 | where a session's writes and extractions are harmless for a job, a checkpoint of the job that names its path stays backed by its partial file |
| `History.SameArchiveKeeps` | filerail/operations.h:262-266 | also where the same archive comes by another path to the same file |
| `History.ReachedAmong` | filerail_server.c:192-418 | the invariants hold in every state that any past and any partial session of given jobs, and any zip files built, reach |
| `Cipher.CbcInverse` | filerail/crypto.h:238-261 | CBC decryption inverts CBC encryption over any block permutation (section 6.2 of NIST SP 800-38A) |
| `Cipher.OpenSeal` | filerail/socket.h:318-341 | a packet's kept octets are the chunk that was padded and encrypted |
| `Cipher.PipelineDelivers` | filerail/socket.h:438-446 | for any archive, key, vector and start offset, aligned or not, the kept octets of the packets, each opened on its own, are the archive from that offset |
| `Cipher.XorByteIs` | filerail/crypto.h:238 | each bit of the exclusive or of two octets is set exactly where they differ |
| `Cipher.CbcEncryptIs` | filerail/crypto.h:238 | the equations of section 6.2 of NIST SP 800-38A by block index: block 0 is the permuted sum of plain block 0 and the vector, block j that of plain block j and cipher block j - 1 |
| `Cipher.CbcDecryptIs` | filerail/crypto.h:261 | and those of decryption |
| `Crypto.AesCbcEncrypt` | filerail/crypto.h:238 | the loop that advances the vector computes CBC encryption, and its output satisfies the equation of every block |
| `Crypto.AesCbcDecrypt` | filerail/crypto.h:261 | likewise for decryption |
| `Crypto.Encrypt` | filerail/crypto.h:222-242 | the equations hold with the configured vector, which is left unchanged, because the code works on a copy |
| `Crypto.Decrypt` | filerail/crypto.h:245-265 | likewise |
| `Crypto.SealChunk` | filerail/socket.h:319-338 | every payload satisfies the equations for the chunk, padded with zero octets to 1024, from the configured vector |
| `Crypto.OpenPayload` | filerail/socket.h:438-446 | the data is cut to the size of the packet from what satisfies the equations of decryption for the payload |
| `Crypto.Md5` | filerail/crypto.h:66-114 | feeding chunks of at most 1024 octets digests exactly the file |
| `Disk.HashToStr` | filerail/crypto.h:56-63 | writes the two hexadecimal digits of each octet in place |
| `Disk.HexDigits` | filerail/crypto.h:33-63 | two digits of "0123456789abcdef" for each octet, the high one first |
| `Disk.CkptNameIs` | filerail/operations.h:242-246 | a checkpoint lies in the checkpoint directory under the 32 digits of its hash, and ".tmp" follows while it is written |
| `Disk.HexInjective` | filerail/crypto.h:33-63 | different hashes have different strings |
| `Disk.NamesDistinct` | filerail/operations.h:242-246 | checkpoint and temporary names are injective in the hash and never meet |
| `Disk.RecordRoundTrip` | filerail/socket.h:464-468 | a checkpoint record reads back as it was written, whatever fills the rest of its path buffer |
| `Disk.RecordLayout` | filerail/protocol.h:58-62 | the record is the C structure of 4112 octets: the offset, least significant octet first, then the path and its terminator |
| `Disk.Overwrite` | filerail/socket.h:446-453 | writing at a position keeps what lies before it and behind the data, and leaves the data there |
| `Disk.OverwritePrefix` | filerail/socket.h:446-455 | writing the archive's next octets, or some of them, over a prefix of it gives a prefix of it |
| `Disk.OverlayExact` | filerail/socket.h:446-455 | writing the rest of an archive over a file gives the archive if and only if the file agreed before the offset and was not longer |
| `Disk.WithinIs` | filerail/utils.h:199-201 | what lies in a resource: the resource itself, and the names that go on with a slash |
| `Protocol.Chunk` | filerail/socket.h:321-332 | the octets of one read: at most 1024 and at most what is left; exactly the next ones when the file is long enough |
| `Bytes.Sub64` | filerail/socket.h:303 | unsigned 64-bit subtraction, wrap-around included |
| `Bytes.BigEndianRoundTrip` | filerail/socket.h:586-592 | network order and back |
| `Bytes.BigEndianAt` | filerail/socket.h:586 | octet i of k in network order is n / 256^(k - 1 - i) mod 256: the most significant comes first |
| `Bytes.LittleEndianAt` | filerail/protocol.h:58-62 | in the host order of a record the least significant comes first |
| `Bytes.NetworkOrder` | filerail/socket.h:586 | the two and the four octets, written out |
| `Bytes.LittleEndianRoundTrip` | filerail/protocol.h:58-62 | the offset of a record and back |
| `MsgPack.RoundTrip` | filerail/serializer.h:79-122 | unpacking an encoding of the integer, string and array formats, whatever follows it, gives the value and consumes exactly the encoding |
| `MsgPack.UIntFormats` | filerail/serializer.h:124-144 | the octets of an integer in each of its five formats, the shortest that holds it |
| `MsgPack.LengthFormats` | filerail/serializer.h:79-122 | the octets in front of a string and of an array, by length |
| `MsgPack.ForeignFormats` | filerail/deserializer.h:25-39 | nil, booleans and small negative numbers take one octet and are of another type; 0xc1 begins nothing; an empty map is one octet |
| `MsgPack.ForeignSizes` | filerail/deserializer.h:25-39 | how many octets floats and extensions of fixed size take |
| `MsgPack.ForeignLengths` | filerail/deserializer.h:25-39 | binary strings and extensions take as many as they announce; a signed number is a number if it is not negative |
| `Codec.DecodeEncode` | filerail/deserializer.h:25-128 | for all six message kinds decoding an encoding followed by anything gives the message back and leaves exactly the rest |
| `Codec.EncodedSize` | filerail/socket.h:681-691 | sizes of all encodings: a data packet is at most 2061 octets, a resource header between 4361 and 4369, so the uint32_t length is exact |
| `Codec.WireFormat` | filerail/serializer.h:35-210 | the octets of each of the six messages |
| `Codec.OctetWire` | filerail/serializer.h:146-210 | an octet of a hash or payload is sent as itself below 128, and behind 0xcc from there on |
| `Codec.KindNotOnWire` | filerail/serializer.h:124-144 | the wire does not tell kinds apart: an offset below 256 is encoded like a code |
| `Serializer.SerializeResponseHeader` | filerail/serializer.h:35-55 | the buffer is the encoding of the response |
| `Serializer.SerializeCommandHeader` | filerail/serializer.h:57-77 | the buffer is the encoding of the command |
| `Serializer.SerializeResourceHeader` | filerail/serializer.h:79-122 | the buffer is the encoding of the resource header whose zero-filled arrays hold the two strings |
| `Serializer.SerializeFileOffset` | filerail/serializer.h:124-144 | the buffer is the encoding of the offset |
| `Serializer.SerializeResourceHash` | filerail/serializer.h:146-170 | the loop over the hash builds its encoding |
| `Serializer.SerializeDataPacket` | filerail/serializer.h:172-210 | the loop over the payload builds the packet's encoding |
| `Serializer.DeserializeResponseHeader` | filerail/deserializer.h:25-39 | succeeds exactly when the octets unpack as an object of any MessagePack type; then holds the decoded value if the object has the shape taken for granted; otherwise unchanged |
| `Serializer.DeserializeCommandHeader` | filerail/deserializer.h:41-55 | likewise |
| `Serializer.DeserializeResourceHeader` | filerail/deserializer.h:57-73 | likewise, with the two strings cut at their terminators |
| `Serializer.DeserializeResourceHash` | filerail/deserializer.h:75-92 | likewise, filling the array in place |
| `Serializer.DeserializeFileOffset` | filerail/deserializer.h:94-108 | likewise |
| `Serializer.DeserializeDataPacket` | filerail/deserializer.h:110-128 | likewise, filling the payload in place |
| `Transport.StreamRecovery` | filerail/socket.h:221-253 | for any bodies, any positive capacity and any positive split of each send and recv, what is delivered is a prefix of what was sent, all of it exactly when nothing is under way, with no octet left over, and until then progress is possible |
| `Transport.MessagesRecovered` | filerail/socket.h:703-910 | the bodies that come out decode to the messages sent, in order |
| `Transport.FrameLayout` | filerail/socket.h:586-595 | four octets of length, most significant first, and then the body |
| `Transport.KnownFrames` | filerail/socket.h:542-571 | for instance PING is 00 00 00 01 02 |
| `Socket.Stream.OsSend` | filerail/socket.h:226 | send(2): some positive number of the offered octets, or a failure, which a reliable connection does not have |
| `Socket.Stream.OsRecv` | filerail/socket.h:243 | recv(2): some positive number of the waiting octets, or end of stream, or a failure; on a reliable connection a positive number if any wait |
| `Socket.Stream.Send` | filerail/socket.h:221-235 | all octets are appended on success, a beginning of them on failure; on a reliable connection it succeeds |
| `Socket.Stream.Recv` | filerail/socket.h:238-253 | the buffer is filled from the front of the stream and exactly that is taken; on a reliable connection it succeeds if the octets are there |
| `Socket.Stream.SendFrame` | filerail/socket.h:586-595 | the length in network order (`Transport.FrameLayout`), then the body; on a reliable connection it succeeds |
| `Socket.Stream.RecvFrame` | filerail/socket.h:879-905 | takes exactly the first frame; on a reliable connection it succeeds if a whole frame is there |
| `Socket.HonestFrame` | filerail/socket.h:703-736 | when an honest message is next on the stream, the body of the next frame decodes to it |
| `Socket.HonestUnpacks` | filerail/socket.h:703-736 | once an honest message has arrived a whole frame is there whose body unpacks, which is what the receive functions need |
| `Socket.SendResponseHeader` | filerail/socket.h:511-539 | appends the frame of the message, or a beginning of it; all of it on a reliable connection |
| `Socket.SendCommandHeader` | filerail/socket.h:542-571 | likewise |
| `Socket.SendResourceHeader` | filerail/socket.h:574-606 | likewise, after zero-filling and copying the strings |
| `Socket.SendFileOffset` | filerail/socket.h:609-637 | likewise |
| `Socket.SendResourceHash` | filerail/socket.h:640-668 | likewise |
| `Socket.SendDataPacket` | filerail/socket.h:671-700 | likewise |
| `Socket.RecvResponseHeader` | filerail/socket.h:703-735 | exactly one frame was taken, and the structure holds what its body decodes to; on a reliable connection it succeeds if a whole frame is there that unpacks |
| `Socket.RecvCommandHeader` | filerail/socket.h:738-770 | likewise |
| `Socket.RecvResourceHeader` | filerail/socket.h:773-805 | likewise |
| `Socket.RecvFileOffset` | filerail/socket.h:808-840 | likewise |
| `Socket.RecvResourceHash` | filerail/socket.h:843-875 | likewise |
| `Socket.RecvDataPacket` | filerail/socket.h:878-910 | likewise |
| `Hosts.Process.Hear` | filerail/socket.h:703-910 | a receive call takes the next message, as the next step of the session model, or fails; if no call fails that can succeed it does so only when no message of the kind comes next |
| `Hosts.Process.Say` | filerail/socket.h:511-700 | a send call is the next step of the model, and succeeds exactly if the connection takes one more message |
| `Hosts.Process.Truncate` | filerail/socket.h:391-392 | fopen for writing empties the file, as the next step of the model |
| `Hosts.Process.Readable` | filerail/operations.h:249 | a checkpoint that exists and cannot be accessed ends the session |
| `Hosts.Process.Getc` | filerail/socket.h:396-401 | fgetc finds an octet exactly where the file has one, and the transfer ends where it has none |
| `Hosts.Process.Load` | filerail/operations.h:340-344 | the content to be digested is that of the partial file |
| `Hosts.Process.Write` | filerail/socket.h:446-453 | fwrite and fflush write all of the data as one step, or leave a torn file the model allows; a file that is there and long enough is written if no call fails that can succeed |
| `Hosts.Process.WriteRecord` | filerail/socket.h:457-472 | likewise for the temporary checkpoint |
| `Hosts.Process.Rename` | filerail/socket.h:481-485 | replaces the checkpoint at once, or fails |
| `Hosts.Process.Remove` | filerail/operations.h:381-391 | removes the partial file, or the checkpoint behind it, or fails; a file that is there goes if no call fails that can succeed |
| `Hosts.Process.RemoveResource` | filerail_server.c:263-270 | removes all files of the old resource as one step, or some of them and stops |
| `Hosts.Process.ExtractInto` | filerail/operations.h:363-371 | extracts all files of the archive as one step, or some of them to some length and stops |
| `Handlers.SendFile` | filerail/socket.h:268-361 | succeeds exactly if the offset lies in the archive and the connection takes one size message and ceil((length - offset) / 1024) packets; then that header and those packets are what was said, and their opened contents are the archive from the offset |
| `Handlers.SendPackets` | filerail/socket.h:318-349 | its loop, also for an offset behind the end, for which it sends empty packets until the connection fails |
| `Handlers.SentIsSupply` | filerail/socket.h:293-349 | what it sends is what the receiving loop needs, whatever follows |
| `Handlers.CarriedParcels` | filerail/socket.h:431-487 | a channel that holds the packets of a sender carries exactly the rest of its archive |
| `Handlers.SendChunk` | filerail/socket.h:319-344 | one packet of it, said exactly if there is room |
| `Handlers.RecvFile` | filerail/socket.h:363-500 | if the channel holds a size and the packets for what follows the offset, and the file can be opened there, then the transfer succeeds when no call fails that can succeed; and when it succeeds the packets were taken, their contents lie in the file at the offset over what was there (nothing, for offset 0), a checkpoint records the position behind them, and no other file has changed |
| `Handlers.RecvPackets` | filerail/socket.h:431-487 | its loop, on a file that is open |
| `Handlers.TransferDelivers` | filerail/socket.h:268-500 | sending and receiving together: the file is the archive exactly if it agreed with the archive up to the offset and was no longer, and the checkpoint records the whole length |
| `Handlers.RecvPacket` | filerail/socket.h:431-487 | one turn of it: the next packet, opened and stored |
| `Handlers.OpenArchive` | filerail/socket.h:391-410 | creates the file, or walks over the first offset octets; it succeeds exactly where there are so many, if no call fails that can succeed |
| `Handlers.StorePacket` | filerail/socket.h:446-486 | data, flush, temporary record, rename: in this order; the file has the data at the position, the checkpoint is a record of the position behind it, the temporary file is gone |
| `Handlers.SaveCheckpoint` | filerail/socket.h:457-485 | temporary record and rename; succeeds for every offset and path that fit a record, if no call fails that can succeed |
| `Handlers.SendFileHandler` | filerail/operations.h:36-198 | what is said is the digest, the reply to the plan, the size and the packets from the agreed offset, and a match is reported exactly if the verdict heard is OK; it succeeds if plan and verdict come, there is room and no call fails that can succeed |
| `Handlers.AdvertiseHash` | filerail/operations.h:91-103 | the digest of the zip file is said first |
| `Handlers.Transfer` | filerail/operations.h:156-182 | the archive from the offset, then the verdict |
| `Handlers.HearVerdict` | filerail/operations.h:166-182 | a match exactly if the verdict is OK; any other verdict is a mismatch and no failed call |
| `Handlers.AgreeOnOffset` | filerail/operations.h:113-153 | to RESUME a server says OK, and so does a client whose user agrees, and the offset is the one heard next; a client whose user does not says ABORT, and the offset is 0; to anything else nothing is said, and the offset is 0 |
| `Handlers.AgreeToResume` | filerail/operations.h:124-134 | OK is said, and the offset heard |
| `Handlers.RecvFileHandler` | filerail/operations.h:201-398 | the whole receiver: it ends with a file that was judged by the digest heard first, or at once, and with the disk untouched, after an unexpected answer to its offer |
| `Handlers.OfferCheckpoint` | filerail/operations.h:240-316 | RESUME goes out exactly if there is a checkpoint to resume from (as in `Handlers.FindCheckpoint`), and RESTART otherwise; an inaccessible checkpoint ends the session |
| `Handlers.FindCheckpoint` | filerail/operations.h:248-278 | if the checkpoint is accessible, opens and the partial file can be examined, then c is found exactly if the file named by the hash holds a whole record of c and this path, and the partial file has at least c octets; if it does not open or the file cannot be examined nothing is found; only an inaccessible one ends the session |
| `Handlers.AskToResume` | filerail/operations.h:279-302 | RESUME is said; after OK the offset is said and kept, after ABORT it is 0, and anything else ends the session |
| `Handlers.HearChoice` | filerail/operations.h:284-302 | the answer to RESUME |
| `Handlers.CheckAndExtract` | filerail/operations.h:329-391 | extracts exactly when the digest of the file equals the advertised one, and says OK or NO_INTEGRITY accordingly; then the disk has the archive's files over what was there, without partial file and checkpoint |
| `Handlers.ExtractArchive` | filerail/operations.h:349-371 | OK is sent before the extraction, and what is extracted is the very file that was digested |
| `Handlers.ConfirmMatch` | filerail/operations.h:349-353 | the match is reported to the sender before anything is extracted |
| `Handlers.RefuseMatch` | filerail/operations.h:354-361 | a mismatch is reported, and nothing is extracted |
| `Handlers.CleanFiles` | filerail/operations.h:373-391 | removes the file first and then the checkpoint |
| `Handlers.RemoveCheckpoint` | filerail/operations.h:387-391 | and of those the second |
| `Handlers.ClientPing` | filerail_client.c:146-160 | PING is said, and one answer heard |
| `Handlers.ClientPut` | filerail_client.c:161-256 | the upload runs to its end exactly if the server answers OK, or a duplicate name and the user has it overwritten; otherwise the session ends there |
| `Handlers.AskToPut` | filerail_client.c:195-245 | the request, and to a duplicate name OVERWRITE or ABORT as the user decides |
| `Handlers.AnswerDuplicate` | filerail_client.c:214-241 | OVERWRITE exactly if the user agrees, else ABORT |
| `Handlers.RequestPut` | filerail_client.c:195-205 | the command and the description |
| `Handlers.ClientGet` | filerail_client.c:257-365 | the download is started exactly if the server answers OK and the size fits; otherwise the session ends there |
| `Handlers.AskToGet` | filerail_client.c:298-344 | the request, and after OK the answer to the advertised size: OK if it fits, else ABORT |
| `Handlers.RequestGet` | filerail_client.c:299-307 | the command and the description |
| `Handlers.CheckStorage` | filerail_client.c:315-335 | OK exactly if the advertised size fits, else ABORT |
| `Handlers.ServeClient` | filerail_server.c:217-406 | one forked child: the command heard decides which session is run to its end; PING is answered by PONG, an unknown command by nothing |
| `Handlers.CheckPut` | filerail_server.c:239-320 | which answer is given in each case: INSUFFICIENT_SPACE, NO_ACCESS, NOT_FOUND, DUPLICATE_RESOURCE_NAME or OK; the upload starts exactly after OK or OVERWRITE, and only the latter removes the old resource |
| `Handlers.Respond` | filerail_server.c:289-318 | the answer that the tests call for; all but a duplicate name end the session |
| `Handlers.OfferOverwrite` | filerail_server.c:252-287 | the reply to a duplicate name, read as a command; the old resource is removed exactly when it is OVERWRITE |
| `Handlers.CheckGet` | filerail_server.c:344-403 | which answer is given in each case: NOT_FOUND, NO_ACCESS, BAD_RESOURCE or OK and the size; the download starts exactly if the client then says OK |
| `Handlers.AnnounceGet` | filerail_server.c:359-388 | OK, the size and the client's answer |
| `Handlers.AdvertiseSize` | filerail_server.c:363-388 | the size and the client's answer |
| `Trees.FileSystem.ReadDir` | filerail/utils.h:201-206 | every entry of a directory once, in any order; a directory that is there is listed if no call fails that can succeed |
| `Trees.FileSystem.Unlink` | filerail/utils.h:223 | removes anything but a directory; a link, not its target; it does so if no call fails that can succeed |
| `Trees.FileSystem.Rmdir` | filerail/utils.h:230 | removes an empty directory, and does so if no call fails that can succeed |
| `Trees.Rm` | filerail/utils.h:165-236 | success removes exactly the nodes at or below the path; a special file is always reported removed and always stays; failure loses only nodes strictly below the path; nothing outside changes; if no call fails that can succeed, it succeeds exactly where there is something |
| `Trees.RmDirectory` | filerail/utils.h:186-234 | the loop over the entries of a directory, terminating on the size of the tree |
| `Trees.RmEntry` | filerail/utils.h:209-227 | one entry: descend, or unlink |
| `Zipping.Zip.Add` | filerail/utils.h:112-115 | one entry with what reading the path yields; added if that can be read and no call fails that can succeed |
| `Zipping.ReadFollows` | filerail/utils.h:112-115 | a path reads as the file to which at most 40 links lead |
| `Zipping.ReadFinds` | filerail/utils.h:112-115 | and as nothing else |
| `Zipping.ZipFolder` | filerail/utils.h:78-129 | success adds exactly one entry, with its content, for each node below the folder that is not a directory, at any depth; paths are pairwise different; it succeeds for every folder whose leaves can all be read, if no call fails that can succeed |
| `Zipping.ZipEntry` | filerail/utils.h:100-122 | one entry of a folder: descend, or add |
| `Zipping.ZipFile` | filerail/utils.h:132-143 | the same for a single file |
| `Zipping.ExtractIs` | filerail/operations.h:366-370 | extraction of entries where nothing is in the way creates exactly their files and missing parents |
| `Zipping.ArchiveRoundTrip` | filerail/utils.h:78-143 | zipping and extracting gives back every leaf with its content and exactly the directories that hold one, and changes nothing else |
| `Zipping.PrunedOriginal` | filerail/utils.h:78-129 | without links that is the original tree with directories that hold no file, at any depth, pruned |
| `Copies.TreeCopied` | filerail/operations.h:36-398 | the whole copy: when the receiver reports success for an archive that zipping a file or folder gave, every leaf of it lies at its place below the resource with its content; every other file is unchanged but for the session's own; and what lay in the old resource besides is gone only if the session had it removed |
| `Copies.Completed` | filerail/operations.h:349-391 | file by file, for any archive: its files over what the session found, or over that without the old resource, the latter exactly if the session had the old resource removed |
| `Copies.FilesAre` | filerail/operations.h:366-370 | extracting entries with different paths creates one file for each, below the resource, and no other |
| `Copies.JoinedInjective` | filerail/utils.h:99 | different nodes have different path names |

## Left out

- Serializer.DeserializeResponseHeader: for an object of another MessagePack type, which the C code reads through the wrong member of a union, the result is arbitrary.
- Serializer.DeserializeCommandHeader: likewise.
- Serializer.DeserializeResourceHeader: likewise, where the C code may also fault.
- Serializer.DeserializeResourceHash: likewise.
- Serializer.DeserializeFileOffset: likewise.
- Serializer.DeserializeDataPacket: likewise.
- Hosts.Process.Hear: a frame of another kind than the one read, a data packet that claims more than 1024 octets and other input of a dishonest peer count as a failed receive. It states what receiving a whole message does; that this is so over octets is proved of Socket and Delivery, not by calling them.
- Hosts.Process.Say: likewise for sending; a connection takes an arbitrary number of messages and then fails.
- Hosts.Process.Write: a flush that fails unnoticed is not covered.
- Hosts.Process.WriteRecord: nor is a flush or close of the temporary record that fails unnoticed; it would be renamed into place.
- Handlers.CheckStorage: after a failed send of OK the client goes on to a receive, which fails on the broken connection; the model stops at the send.
- Handlers.CheckGet: likewise for the server's send of OK.
- Handlers.ServeClient: the archive it would send for a GET is an input, because the requested file is outside the model.
- SessionProperties.SessionsTerminate: counts steps; the length of timeouts is not modelled.
- Zipping.ArchiveRoundTrip: extraction into a directory where something of that name already exists is not covered; the behaviour of the zip library there is not part of this model.
- Zipping.Zip.Add: a link is followed to the path it names, at most 40 times; links in the middle of a path are not resolved, and compression is left out. Adding a link to a directory always fails; that the zip library fails on a stream that opens and then cannot be read is not shown by the cited lines. Paths fit their buffers.
- Copies.TreeCopied: speaks of regular files; directories, modes and times are not covered, and what the zip library makes of its entries is `Env.unzip`, taken to be the files of the entries.
- Trees.Rm: permissions are not modelled; any call may fail on a file system that is not `reliable`.
- Memory exhaustion in the serializers (`malloc`), which returns size 0 and fails the send.
- Wrap-around of a recorded offset beyond 2^64, which needs an archive of that length.
- The sender's own disk during a session; on the disk of a host that also receives, its zip file is `History.Sent`.
- Directories on the flat disk: a partial file whose directory is removed cannot be opened, which is a stop.
- Two receivers of the same hash or file at once, and loss of unflushed data at a power failure: the code does not claim to handle them.
- Socket setup, options, name resolution, daemonizing, signals, logging, `filerail_who`.
- Option parsing, prompts, the progress bar and time measurement; the answer to a question is an input.
- Internals of AES, MD5 and the zip format, and the limit of msgpack-c on the depth of nested objects.
- `filerail_check_storage_size` and the tests for existence and access, whose results are inputs (`Hosts.Answers`), one for each test of a session.
- `filerail_parse_resource_path` and `filerail_read_AES_keys`, whose results are inputs.
