# Verified models of the IDEA/MD5 library, the muduo concurrency classes and the connector

This project models the algorithmic parts of a network-programming course repository (a bank application with its
own cipher, hash and wire format, and the muduo base and net classes it grows out of) and proves what those parts are
for: that decryption undoes encryption, that a streamed hash does not depend on how the stream is cut, that no wakeup,
task or descriptor is ever lost. Run `dafny verify dfyconfig.toml` to check everything.

| file | models |
|---|---|
| `IdeaArith.dfy` | multiplication modulo 65537 with 0 standing for 65536: the `MUL` macro and `MulInv` |
| `IdeaBlock.dfy` | the block cipher, its key inverter, and the proof that they undo each other |
| `IdeaKeySchedule.dfy` | expansion of the 16-byte key to 52 words |
| `IdeaVector.dfy` | the published test vector of the cipher, round by round |
| `CfbMode.dfy` | cipher feedback mode over any function on 8-byte blocks: byte-wise, block-wise, chunked, synchronised |
| `IdeaCfb.dfy` | the CFB context updated in place through its buffers, and the public `Crypt` |
| `Md5Compress.dfy` | the unrolled MD5 transform against the table-driven one of RFC 1321 |
| `Md5.dfy` | the MD5 context: partial blocks, split bit counter, two-way padding |
| `SineTable.dfy` | the additive constants of MD5 as integer parts of 2^32 * \|sin(i + 1)\| |
| `Md5Digits.dfy`, `Md5Vectors.dfy` | two digests of the test suite of RFC 1321, step by step |
| `BlockingQueue.dfy` | the bounded queue with two condition variables, as interleaved critical sections |
| `ThreadPool.dfy` | the thread pool, its lost-wakeup freedom, conservation of tasks, and shutdown |
| `ConnectorSteps.dfy`, `Connector.dfy` | the connector: states, deferred channel reset, retry timer, ledger of descriptors |
| `ConnectorOutcomes.dfy` | what becomes of every connection attempt, read off the events of a run |
| `Numerals.dfy`, `LogStream.dfy` | integer printing with the mirrored digit table, the fixed buffer and the log stream |
| `Wire.dfy`, `Streams.dfy` | the typed wire format, and the output and input streams |
| `SkipSpace.dfy` | the word-at-a-time scan for trailing spaces |
| `Words.dfy`, `HexWords.dfy`, `Arithmetic.dfy`, `FiniteSets.dfy` | bytes, words, powers and bitwise operations; words by their hexadecimal digits; division; sizes of finite sets |

## How to read it

Code that changes memory is modelled by methods over arrays and fields. Each method's contract equates the new state
with a function of the old one; the lemmas then prove what the source promises about those functions. The concurrent
classes are state machines: an event is one critical section, up to a wait or a return, or one unlocked access; a run
is any sequence of events; the class at the end of the file carries out the same steps on its fields. Besides laws
that every step keeps, each machine has laws read off the list of events alone: which values, tasks and descriptors went
in, and where each of them is.

The cipher and the hash are also pinned by their published test vectors, proved on literal words. These proofs are
tables: a line gives the digits, quotients and carries of one step, and the verifier checks them.

Machine integers are bounded integers with wrap-around written out, and exclusive or is defined bit by bit. Hosts are
little-endian, as the byte swaps of the cipher and the empty byte reversal of the hash assume.

Five results differ from what the code or its comments say:

* Clearing the MD5 context "in case it's sensitive" uses the size of a pointer, so only one or two of the four
  chaining words are cleared: `Md5.MD5Context.MD5Final` states that the other two still hold half of the digest.
* `stop()` of the thread pool does not drain the queue: `ThreadPool.StopAbandonsTasks` is a run that leaves a task
  behind, and `ThreadPool.AbandonedExactly` says which tasks are taken after stop. They all are if and only if there
  are no more of them than workers inside `take()`; otherwise each of these workers takes one and the rest stay queued.
* `start()` and `stop()` of the connector are documented for any thread at any time, but the code's own assertions
  fail after some sequences of them, of which `ConnectorSteps.LeftoverTimerAborts` and
  `ConnectorSteps.StopThenStartAborts` are two. `ConnectorSteps.StartSafeIff` and `ConnectorSteps.RestartSafeIff` say
  exactly when a call is safe: no assertion fails in it or later, until the next start or restart, if and only if the
  connector is disconnected (or outside kConnecting, for restart), no retry timer or queued start is left over, and no
  channel waits to be deleted (which a queued start does not need). `ConnectorSteps.DisciplinedRunsNeverAbort` adds
  that in runs of safe calls no assertion fails. All this takes for granted that the loop runs a deferred reset before
  it fires a retry timer, which waits half a second at least, and reports events of connecting channels only.
* A string of 65536 bytes or more is silently cut by the wire format: `Wire.ListRoundTrip` has the exact condition.
* `JInStream::Skip` asserts that more bytes are readable than it skips: skipping exactly the readable ones, as a
  reader would to leave out the end of a message, fails the assertion (`src/49/ABCBank/Public/JInStream.h:37-41`).
  The contract of `Streams.JInStream.Skip` asks for the extra byte.

## Model

| member | source | states |
|---|---|---|
| IdeaArith.NoFactors | src/49/ABCBank/Public/Idea.cpp:6-32 | 65537 has no two factors above one, which is why no remainder of the inverter is 0 |
| IdeaArith.BezoutInverse | src/49/ABCBank/Public/Idea.cpp:6-32 | every nonzero residue modulo 65537 has an inverse, by a descent independent of the code |
| IdeaArith.ProductNonzero | src/49/ABCBank/Public/Idea.cpp:107-124 | a product of nonzero residues is nonzero, so the word 0 unambiguously means 65536 |
| IdeaArith.MulLowHigh | src/49/ABCBank/Public/Idea.cpp:114-124 | the low-minus-high trick computes the product modulo 65537 for all operands, zero ones included |
| IdeaArith.LowMinusHigh | src/49/ABCBank/Public/Idea.cpp:117-120 | for nonzero operands the halves of the product differ, and their wrapped difference is the product |
| IdeaArith.MulInv | src/49/ABCBank/Public/Idea.cpp:6-32 | the result times the argument is 1, and is the only such word |
| IdeaArith.MulInvEuclid | src/49/ABCBank/Public/Idea.cpp:6-32 | the unrolled loop terminates with an inverse; its variables are 16-bit words, so verifying it also shows that no coefficient wraps |
| IdeaArith.EuclidStep | src/49/ABCBank/Public/Idea.cpp:21-28 | one division keeps x*t1 + y*t0 at 65537, leaves a nonzero remainder, and its new coefficient is at most 0x8000 |
| IdeaArith.EvenStep | src/49/ABCBank/Public/Idea.cpp:21-25 | the first half of the loop body keeps both coefficients congruent to the remainders |
| IdeaArith.OddStep | src/49/ABCBank/Public/Idea.cpp:26-28 | the second half keeps them congruent with the signs exchanged |
| IdeaArith.MulCancel | src/49/ABCBank/Public/Idea.cpp:114-124 | multiplying by a key word and then by its inverse gives the operand back |
| IdeaBlock.MultiplyAddInvolutive | src/49/ABCBank/Public/Idea.cpp:154-167 | the multiply-add layer undoes itself, for any two key words |
| IdeaBlock.OuterMixKeyUndone | src/49/ABCBank/Public/Idea.cpp:67-73 | the first and last key layers are undone by the inverted key without exchanging the additive words |
| IdeaBlock.InnerMixKeyUndone | src/49/ABCBank/Public/Idea.cpp:81-87 | an inner key layer is undone across the swap of the middle words, because the additive words are exchanged |
| IdeaBlock.DecryptedRounds | src/49/ABCBank/Public/Idea.cpp:147-168 | after n rounds of decryption the state is that of encryption 8 - n rounds in, up to the swap |
| IdeaBlock.CipherInverted | src/49/ABCBank/Public/Idea.cpp:60-184 | for every 52-word key and every block, the cipher with the key and with the inverted key undo each other both ways |
| IdeaBlock.InvertedKeyInvolutive | src/49/ABCBank/Public/Idea.cpp:60-105 | inverting a key twice gives the key |
| IdeaBlock.IdeaCipher | src/49/ABCBank/Public/Idea.cpp:128-184 | the in-place code computes the cipher of the block, also when both buffers are the same |
| IdeaBlock.IdeaRound | src/49/ABCBank/Public/Idea.cpp:149-167 | the statements of the loop body compute one round of the reference definition |
| IdeaBlock.OutputTransform | src/49/ABCBank/Public/Idea.cpp:170-183 | the last key layer is applied with the last swap undone |
| IdeaBlock.IdeaInvertKey | src/49/ABCBank/Public/Idea.cpp:60-105 | the backward-filling code computes the inverted key position by position, also in place |
| IdeaBlock.InverseWords | src/49/ABCBank/Public/Idea.cpp:81-84 | the four words of a key layer are inverted, the outer ones by MulInv and the inner ones by negation |
| IdeaBlock.RoundMasks | src/49/ABCBank/Public/Idea.cpp:149-167 | read off the input and output of any round: which words are masked alike, that the difference of the masks is the product by the fifth key word of the round, and the first mask the product by the sixth |
| IdeaVector.PublishedVector | src/49/ABCBank/Public/Idea.cpp:128-184 | under the expanded key 0001 to 0008, the block 0000 0001 0002 0003 is enciphered to 11FB ED2B 0198 6DE5 |
| IdeaVector.PublishedBytes | src/49/ABCBank/Public/Idea.cpp:128-184 | the same on the bytes of the buffers |
| IdeaKeySchedule.ScheduleRotates | src/49/ABCBank/Public/Idea.cpp:37-53 | bit b of word n of the working key is bit 25*(n/8) + 16*(n%8) + b, modulo 128, of the user key |
| IdeaKeySchedule.RotatedBit | src/49/ABCBank/Public/Idea.cpp:49 | the truncated shift-and-or of two words takes its bits 9 further on from the one and 7 back from the other |
| IdeaKeySchedule.NextWord | src/49/ABCBank/Public/Idea.cpp:46-52 | word w of a group is made from words w + 1 and w + 2, modulo 8, of the group before |
| IdeaKeySchedule.IdeaExpandKey | src/49/ABCBank/Public/Idea.cpp:37-53 | the loop with its moving pointer fills all 52 words with the schedule |
| CfbMode.RunAppend | src/49/ABCBank/Public/Idea.cpp:224-275 | two calls in a row give the output and state of one call on the joined data |
| CfbMode.ChunkingIrrelevant | src/49/ABCBank/Public/Idea.cpp:224-333 | any division into calls gives the output and state of a single call |
| CfbMode.RunIsCfb | src/49/ABCBank/Public/Idea.cpp:224-333 | from a fresh context the output is 8-byte cipher feedback as in section 6.3 of SP 800-38A, with a short last segment |
| CfbMode.RunWithinMask | src/49/ABCBank/Public/Idea.cpp:233-249 | bytes that fit the mask left over do not run the cipher; closed form of output and buffer |
| CfbMode.RunInverted | src/49/ABCBank/Public/Idea.cpp:224-333 | running the other direction over the output returns the input and leaves contexts that agree in all that can be read |
| CfbMode.StepInverted | src/49/ABCBank/Public/Idea.cpp:238-297 | one byte: the other direction restores it and writes the same ciphertext into the buffer |
| CfbMode.ChunkedRoundTrip | src/49/ABCBank/Public/Idea.cpp:224-333 | the receiver recovers the data however either side splits it, and both contexts stay in step |
| CfbMode.CfbRoundTrip | src/49/ABCBank/Public/Idea.cpp:224-333 | the two block-wise definitions are inverse in both orders, for every vector and length |
| CfbMode.CfbEncryptByte | src/49/ABCBank/Public/Idea.cpp:224-275 | byte i of the ciphertext is byte i of the data masked with byte i % 8 of the enciphered block of ciphertext before it, or of the vector |
| CfbMode.CfbDecryptByte | src/49/ABCBank/Public/Idea.cpp:283-333 | byte i of the data likewise, from the ciphertext |
| CfbMode.SyncKeepsLastBlock | src/49/ABCBank/Public/Idea.cpp:207-217 | after any run of calls and syncs, sync leaves the last 8 bytes of vector plus ciphertext and no mask |
| CfbMode.RunTracks | src/49/ABCBank/Public/Idea.cpp:224-333 | every call keeps the buffer and the saved block equal to the end of the ciphertext history |
| CfbMode.SyncTracks | src/49/ABCBank/Public/Idea.cpp:207-217 | sync keeps the context equal to the end of the ciphertext history |
| IdeaCfb.IdeaCfbContext.IdeaCfbReinit | src/49/ABCBank/Public/Idea.cpp:187-194 | the vector is copied, or zeroed when missing, and no mask is left |
| IdeaCfb.IdeaCfbContext.IdeaCfbInit | src/49/ABCBank/Public/Idea.cpp:196-200 | the key is expanded and the vector zeroed |
| IdeaCfb.IdeaCfbContext.IdeaCfbSync | src/49/ABCBank/Public/Idea.cpp:207-217 | the overlapping moves compute the synchronised state |
| IdeaCfb.IdeaCfbContext.IdeaCfb | src/49/ABCBank/Public/Idea.cpp:224-333 | leading bytes, whole blocks and tail together are one byte-wise run; bytes past count are untouched; buffers may coincide |
| IdeaCfb.IdeaCfbContext.MaskBytes | src/49/ABCBank/Public/Idea.cpp:236-239 | an inner loop of either direction is the run of its bytes, written at the right place |
| IdeaCfb.IdeaCfbContext.MaskByte | src/49/ABCBank/Public/Idea.cpp:238 | one byte of either direction: buffer and output each change in one place, even if input and output are the same array |
| IdeaCfb.IdeaCfbContext.Crank | src/49/ABCBank/Public/Idea.cpp:267-269 | the buffer is saved and enciphered in place |
| IdeaCfb.IdeaCfbContext.CrankAndMask | src/49/ABCBank/Public/Idea.cpp:256-274 | a block of 1 to 8 bytes is a run from a context without mask |
| IdeaCfb.IdeaCfbContext.IdeaCfbEncrypt | src/49/ABCBank/Public/Idea.cpp:224-275 | encryption refines the byte-wise definition from any context |
| IdeaCfb.IdeaCfbContext.IdeaCfbDecrypt | src/49/ABCBank/Public/Idea.cpp:283-333 | decryption refines the byte-wise definition from any context |
| IdeaCfb.IdeaCfbContext.Crypt | src/49/ABCBank/Public/Idea.cpp:335-348 | the public call returns standard CFB of the data under the expanded key from a zero vector |
| IdeaCfb.CryptRoundTrip | src/49/ABCBank/Public/Idea.cpp:335-348 | with one 16-byte key, the two directions of Crypt undo each other on messages of any length |
| IdeaCfb.FirstBlock | src/49/ABCBank/Public/Idea.cpp:335-348 | the first bytes of a message are masked with the enciphered block of eight zero bytes |
| Md5Compress.OptimisedAuxiliary | src/49/ABCBank/Public/MD5.cpp:137-141 | the optimised F1 to F4 are the auxiliary functions of the standard |
| Md5Compress.SelectBits | src/49/ABCBank/Public/MD5.cpp:137-138 | z ^ (x & (y ^ z)) equals (x & y) \| (~x & z), on any number of bits |
| Md5Compress.StepMatches | src/49/ABCBank/Public/MD5.cpp:143-145 | a step macro call writes the register the standard's step computes |
| Md5Compress.MD5Transform | src/49/ABCBank/Public/MD5.cpp:152-233 | the 64 unrolled steps equal the table-driven rounds of section 3.4 of RFC 1321 |
| Md5Compress.FourSteps | src/49/ABCBank/Public/MD5.cpp:161-164 | four macro calls return the registers to their places and are four steps of the standard |
| Md5Compress.Round1 | src/49/ABCBank/Public/MD5.cpp:161-176 | the first sixteen calls are steps 0 to 15 |
| Md5Compress.Round2 | src/49/ABCBank/Public/MD5.cpp:178-193 | the next sixteen are steps 16 to 31 |
| Md5Compress.Round3 | src/49/ABCBank/Public/MD5.cpp:195-210 | the next sixteen are steps 32 to 47 |
| Md5Compress.Round4 | src/49/ABCBank/Public/MD5.cpp:212-227 | the last sixteen are steps 48 to 63 |
| Md5Compress.RotationFits | src/49/ABCBank/Public/MD5.cpp:144-145 | the two shifts of a rotation share no bit: the upper one, wrapped to 32 bits, and the lower one add up without a carry |
| Md5Compress.RotateParts | src/49/ABCBank/Public/MD5.cpp:144-145 | a circular shift by s bits, which is s shifts by one, moves the low 32 - s bits up and brings the high s bits in below |
| Md5Compress.ShiftsJoined | src/49/ABCBank/Public/MD5.cpp:144-145 | the two shifts joined are the circular shift |
| SineTable.ConstantsAreSines | src/49/ABCBank/Public/MD5.cpp:161-227 | the constant of step i is the integer part of 2^32 * \|sin(i + 1)\|, for each of the 64 steps, with cosine and sine of 1 anywhere between two partial sums of their series and the others by de Moivre's formula |
| Md5Digits.OneStep | src/49/ABCBank/Public/MD5.cpp:143-145 | a step on literal words: the value of its auxiliary function, the two parts its rotation exchanges, and the new register |
| Md5.CountsAdvance | src/49/ABCBank/Public/MD5.cpp:52-55 | the wrapped sum, the carry and the shifted-out bits advance the 64-bit bit count by 8 * len |
| Md5.PendingCount | src/49/ABCBank/Public/MD5.cpp:57 | the number of pending bytes is read off the low counter |
| Md5.MD5Context.MD5Update | src/49/ABCBank/Public/MD5.cpp:46-88 | a context that has absorbed m has absorbed m followed by the data afterwards, whatever the cut |
| Md5.MD5Context.MD5Init | src/49/ABCBank/Public/MD5.cpp:31-40 | a fresh context has absorbed the empty message |
| Md5.MD5Context.UpdateCounts | src/49/ABCBank/Public/MD5.cpp:52-55 | the two counter words advance by the bits of the data |
| Md5.MD5Context.UpdateBlocks | src/49/ABCBank/Public/MD5.cpp:61-87 | completing the pending block, whole blocks and the rest together fold every full block and keep what is left |
| Md5.MD5Context.WholeBlocks | src/49/ABCBank/Public/MD5.cpp:77-82 | the loop folds the whole blocks of the data |
| Md5.MD5Context.FillBlock | src/49/ABCBank/Public/MD5.cpp:69-71 | a block put together from pending bytes and data is transformed |
| Md5.AbsorbedDetermines | src/49/ABCBank/Public/MD5.cpp:46-88 | chaining state, counters and pending bytes depend only on the message, not on its chunks |
| Md5.MD5Context.Pad | src/49/ABCBank/Public/MD5.cpp:97-129 | both padding branches end with the chaining state of the padded message |
| Md5.Padded | src/49/ABCBank/Public/MD5.cpp:110-127 | the padded message is a whole number of 64-byte blocks |
| Md5.PaddedTwoBlocks | src/49/ABCBank/Public/MD5.cpp:111-118 | with 56 or more pending bytes the padding is the end of one block and a block of its own |
| Md5.PaddedOneBlock | src/49/ABCBank/Public/MD5.cpp:119-122 | with fewer than 56 pending bytes the padding completes the block they are in |
| Md5.CountBytes | src/49/ABCBank/Public/MD5.cpp:125-127 | the two counter words are the 64-bit little-endian bit count |
| Md5.MD5Context.StoreCounts | src/49/ABCBank/Public/MD5.cpp:125-127 | the counters are stored little-endian as the last 8 bytes of the block |
| Md5.MD5Context.EmitDigest | src/49/ABCBank/Public/MD5.cpp:131 | the digest is the chaining state, each word least significant byte first |
| Md5.PaddingInjective | src/49/ABCBank/Public/MD5.cpp:94-133 | no two messages, of any length, share their padded form |
| Md5.MD5Context.MD5Final | src/49/ABCBank/Public/MD5.cpp:94-133 | the digest is the hash of all that was absorbed; the clearing reaches one or two chaining words only |
| Md5.MD5Make | src/49/ABCBank/Public/MD5.cpp:235-242 | the digest of a message is the fold of the transform over its RFC 1321 padding |
| Md5Vectors.EmptyDigest | src/49/ABCBank/Public/MD5.cpp:235-242 | the digest of the empty message is d41d8cd98f00b204e9800998ecf8427e |
| Md5Vectors.AbcDigest | src/49/ABCBank/Public/MD5.cpp:235-242 | the digest of "abc" is 900150983cd24fb0d6963f7d28e17f72 |
| BlockingQueue.PassKeeps | src/15/jmuduo/muduo/base/BoundedBlockingQueue.h:31-55 | a completed put or take keeps a woken thread for every element or slot someone sleeps for |
| BlockingQueue.WaitKeeps | src/15/jmuduo/muduo/base/BoundedBlockingQueue.h:34-37 | a thread that goes to sleep keeps the invariant |
| BlockingQueue.SpuriousKeeps | src/15/jmuduo/muduo/base/BoundedBlockingQueue.h:34-49 | a wakeup for no reason keeps the invariant, thanks to the loops around the waits |
| BlockingQueue.CallKeeps | src/15/jmuduo/muduo/base/BoundedBlockingQueue.h:31-45 | a new caller keeps the invariant, even if it will overtake woken threads |
| BlockingQueue.RunsAreSafe | src/15/jmuduo/muduo/base/BoundedBlockingQueue.h:31-55 | in every interleaving the buffer is bounded and first in, first out, and no wakeup is lost |
| BlockingQueue.ValuesConserved | src/15/jmuduo/muduo/base/BoundedBlockingQueue.h:31-55 | in every run and for every value, what the calls of put gave is handed out, stored or in the hands of a thread inside put, as often as it was given |
| BlockingQueue.FirstInFirstOut | src/15/jmuduo/muduo/base/BoundedBlockingQueue.h:31-55 | what was handed out and what is stored is the sequence of arguments of the calls that found a free slot, in that order |
| BlockingQueue.SleepIsJustified | src/15/jmuduo/muduo/base/BoundedBlockingQueue.h:31-55 | when nobody can run, a sleeping taker faces an empty queue and a sleeping putter a full one |
| BlockingQueue.DeadlockExactlyAtCapacityZero | src/15/jmuduo/muduo/base/BoundedBlockingQueue.h:23-29 | putters and takers can be left asleep together if and only if the capacity is 0 |
| BlockingQueue.QuiescentCounts | src/15/jmuduo/muduo/base/BoundedBlockingQueue.h:31-55 | when nobody can run, the numbers of completed puts and takes depend only on the calls, not on the schedule |
| BlockingQueue.SectionsRunOut | src/15/jmuduo/muduo/base/BoundedBlockingQueue.h:31-55 | every section completes a call or sends a runnable thread to sleep |
| BlockingQueue.SectionUsedUp | src/15/jmuduo/muduo/base/BoundedBlockingQueue.h:31-55 | every section uses up one of a number of sections fixed by the pending calls and the runnable threads |
| BlockingQueue.SectionsBounded | src/15/jmuduo/muduo/base/BoundedBlockingQueue.h:31-55 | in a run without new calls and spurious wakeups, whatever the interleaving, no more than that number of sections is run |
| BlockingQueue.QuiescenceReached | src/15/jmuduo/muduo/base/BoundedBlockingQueue.h:31-55 | from every state such a run exists after which nobody can run, within that number of sections |
| BlockingQueue.BoundedBlockingQueue.PutSection | src/15/jmuduo/muduo/base/BoundedBlockingQueue.h:31-41 | the code of put between waits is the step of the model |
| BlockingQueue.BoundedBlockingQueue.TakeSection | src/15/jmuduo/muduo/base/BoundedBlockingQueue.h:43-55 | the code of take between waits is the step of the model |
| ThreadPool.EventKeeps | src/16/jmuduo/muduo/base/ThreadPool.cc:32-121 | every step of owner, callers and workers keeps wakeups, tasks and shutdown accounted for |
| ThreadPool.NoLostWakeupKept | src/16/jmuduo/muduo/base/ThreadPool.cc:47-88 | every step keeps a woken worker for every queued task someone could sleep through, and nobody asleep once stopped |
| ThreadPool.ConservedKept | src/16/jmuduo/muduo/base/ThreadPool.cc:59-101 | every step keeps the balance of every job |
| ThreadPool.LateOnceKept | src/16/jmuduo/muduo/base/ThreadPool.cc:47-101 | every step keeps each worker to one task after stop |
| ThreadPool.TasksConserved | src/16/jmuduo/muduo/base/ThreadPool.cc:59-88 | the tasks given to a pool with threads leave the queue in the order they were given; each job is executed, in one worker's hands or still queued, as often as it was given |
| ThreadPool.GivenIs | src/16/jmuduo/muduo/base/ThreadPool.cc:59-71 | what goes into the queue is the sequence of tasks of the calls of run that found threads, and what callers run themselves that of the others, read off the events |
| ThreadPool.StaffIs | src/16/jmuduo/muduo/base/ThreadPool.cc:32-45 | the number of threads, and of those still to be created, read off the events of start alone |
| ThreadPool.ExecutedJobs | src/16/jmuduo/muduo/base/ThreadPool.cc:96-100 | an empty task is never executed |
| ThreadPool.NoTaskWaitsForSleeper | src/16/jmuduo/muduo/base/ThreadPool.cc:73-80 | if tasks are queued and a worker sleeps, there is a woken worker for every queued task |
| ThreadPool.LateTakesBounded | src/16/jmuduo/muduo/base/ThreadPool.cc:47-53 | after stop nobody sleeps and every worker takes at most one more task |
| ThreadPool.ShutdownCompletes | src/16/jmuduo/muduo/base/ThreadPool.cc:47-101 | after stop, three worker steps per worker suffice for all to exit, whatever else happens |
| ThreadPool.StoppedStep | src/16/jmuduo/muduo/base/ThreadPool.cc:47-101 | in a stopped pool every worker step uses up one of the steps left, and no other event adds any |
| ThreadPool.ShutdownNeverStuck | src/16/jmuduo/muduo/base/ThreadPool.cc:54-101 | in a stopped pool no worker can step exactly when all have exited, so the joins return |
| ThreadPool.StopAbandonsTasks | src/16/jmuduo/muduo/base/ThreadPool.cc:47-57 | a run after which all workers have exited and a task submitted before stop is still queued |
| ThreadPool.AbandonedExactly | src/16/jmuduo/muduo/base/ThreadPool.cc:47-101 | once all workers of a stopped pool have exited, the tasks queued at stop are all taken if and only if no more of them than workers were inside take; otherwise the first one for each such worker is taken and the others are still queued, in order |
| ThreadPool.AbandonedKept | src/16/jmuduo/muduo/base/ThreadPool.cc:47-101 | no event of a stopped pool changes how many of the tasks queued at stop nobody will take |
| ThreadPool.Pool.Run | src/16/jmuduo/muduo/base/ThreadPool.cc:59-71 | a task is queued and a worker notified, or executed by the caller when there are no threads |
| ThreadPool.Pool.Begin | src/16/jmuduo/muduo/base/ThreadPool.cc:32-36 | running_ is set before any thread exists |
| ThreadPool.Pool.SpawnOne | src/16/jmuduo/muduo/base/ThreadPool.cc:37-44 | one more worker starts at the head of its loop |
| ThreadPool.Pool.Take | src/16/jmuduo/muduo/base/ThreadPool.cc:73-88 | one section of take waits, returns the front, or returns an empty task once stopped |
| ThreadPool.Pool.Halt | src/16/jmuduo/muduo/base/ThreadPool.cc:47-53 | running_ is cleared and every sleeper woken |
| ThreadPool.Pool.TestLoop | src/16/jmuduo/muduo/base/ThreadPool.cc:94 | the unlocked test sends the worker to take or lets it exit |
| ThreadPool.Pool.FinishTask | src/16/jmuduo/muduo/base/ThreadPool.cc:96-100 | an empty task is skipped, any other is executed once |
| ConnectorSteps.EventKeeps | src/39/Connector.cc:43-243 | every assertion-respecting step keeps descriptors, the deferred reset and the back-off accounted for |
| ConnectorSteps.HandleErrorKeeps | src/39/Connector.cc:213-222 | the error handler keeps the invariant |
| ConnectorSteps.HandleWriteKeeps | src/39/Connector.cc:172-211 | the write handler keeps the invariant, on each of its outcomes |
| ConnectorSteps.StopInLoopKeeps | src/39/Connector.cc:70-79 | stopInLoop keeps the invariant |
| ConnectorSteps.ConnectKeeps | src/39/Connector.cc:81-153 | a new attempt keeps the invariant whatever connect() answers |
| ConnectorSteps.RestartKeeps | src/39/Connector.cc:123-130 | restart outside kConnecting keeps the invariant |
| ConnectorSteps.FunctorKeeps | src/39/Connector.cc:46-168 | running the next queued functor keeps the invariant |
| ConnectorSteps.DescriptorsAccounted | src/39/Connector.cc:81-243 | every descriptor made is held by the connecting channel, handed over or closed, in one place and once |
| ConnectorSteps.DeferredResetSafe | src/39/Connector.cc:155-169 | a reset is pending exactly while a channel is set that is not connecting; never two, never on a live one |
| ConnectorSteps.ErrorAndWriteTogether | src/39/Connector.cc:172-222 | an error and a write event in one dispatch close the descriptor once and hand over nothing |
| ConnectorSteps.RetriesBackOff | src/39/Connector.cc:226-243 | the i-th retry since the last restart waited min(500 * 2^i, 30000) ms |
| ConnectorOutcomes.HandedIff | src/39/Connector.cc:172-211 | a descriptor is handed over if and only if its connecting channel reported a write event with no error, SO_ERROR 0 and no self-connection while a connection was wanted |
| ConnectorOutcomes.ClosedIff | src/39/Connector.cc:81-243 | a descriptor is closed if and only if connect() refused it, with any errno but the four of an attempt under way, or its attempt failed, was stopped, or succeeded when no longer wanted |
| ConnectorOutcomes.MadeIff | src/39/Connector.cc:81-120 | a descriptor was made if and only if an attempt was made with it |
| ConnectorOutcomes.PhasesSince | src/39/Connector.cc:43-243 | the state and the wish to connect are those of the last event that changed them |
| ConnectorOutcomes.RetriesCounted | src/39/Connector.cc:226-243 | the armed timers are the failed but wanted attempts less the timers fired; the back-off counts them since the last restart |
| ConnectorOutcomes.FunctorsQueued | src/39/Connector.cc:43-169 | the loop's queue holds the functors queued and not yet run, in order |
| ConnectorOutcomes.StepOutcome | src/39/Connector.cc:43-243 | each event changes ledger, state, timers and queue as its kind says, and nothing else |
| ConnectorSteps.StartSafeIff | src/39/Connector.cc:43-61 | start fails no assertion, in the call or later until the next start or restart and whatever the loop and stop do, if and only if the connector is disconnected, no timer or queued start is left over and, in the loop thread, no channel is left to delete |
| ConnectorSteps.RestartSafeIff | src/39/Connector.cc:123-130 | the same for restart outside kConnecting: if and only if no timer or queued start and no channel is left over |
| ConnectorSteps.StartNowIff | src/39/Connector.cc:49-61 | the assertions of the one step of start in the loop thread hold, for every outcome of connect(), exactly when it is disconnected with no channel left to delete |
| ConnectorSteps.RestartNowIff | src/39/Connector.cc:123-130 | the assertions of the one step of restart hold exactly when no channel is left to delete |
| ConnectorSteps.SecondStartAborts | src/39/Connector.cc:49-68 | a timer or queued start still on its way when the connector is connecting can fail an assertion |
| ConnectorSteps.TwoStartsAbort | src/39/Connector.cc:49-68 | with two starts on their way to a disconnected connector an assertion can fail |
| ConnectorSteps.QueuedStartAborts | src/39/Connector.cc:137-164 | a queued start with no reset before it, while a channel is set, can fail an assertion |
| ConnectorSteps.ConnectedStartAborts | src/39/Connector.cc:43-52 | a queued start that finds the connection already handed over can fail an assertion |
| ConnectorSteps.OrderlyNeverAborts | src/39/Connector.cc:43-243 | with at most one start on its way, to a disconnected connector whose channel is gone by then, no events but another start or restart fail an assertion |
| ConnectorSteps.LeftoverTimerAborts | src/39/Connector.cc:63-68 | a retry timer that stop did not cancel finds a new connection attempt and fails an assertion |
| ConnectorSteps.StopThenStartAborts | src/39/Connector.cc:137-164 | a queued stop followed by a queued start fails the assertion on the channel |
| ConnectorSteps.DisciplinedRunsNeverAbort | src/39/Connector.cc:43-243 | in a run whose every start and restart meets the condition shown necessary and sufficient by StartSafeIff and RestartSafeIff, no assertion ever fails |
| ConnectorSteps.DisciplinedStep | src/39/Connector.cc:43-243 | from an orderly state a disciplined event fails no assertion and leads to an orderly state |
| Connector.Connector.Connect | src/39/Connector.cc:81-120 | the outcome of connect() decides between connecting, retrying and closing |
| Connector.Connector.Start | src/39/Connector.cc:43-47 | the wish to connect is recorded and startInLoop called or queued |
| Connector.Connector.Stop | src/39/Connector.cc:63-68 | the wish not to connect is recorded and stopInLoop called or queued |
| Connector.Connector.StartInLoop | src/39/Connector.cc:49-61 | an attempt is made unless the connector was stopped meanwhile |
| Connector.Connector.StartConnecting | src/39/Connector.cc:137-153 | the descriptor goes into a new channel and the state is kConnecting |
| Connector.Connector.RemoveAndResetChannel | src/39/Connector.cc:155-164 | the reset is queued and the descriptor returned |
| Connector.Connector.ResetChannel | src/39/Connector.cc:166-169 | deleting the channel completes the step of the loop that took the reset from its queue; in a reachable state the channel deleted was set and not connecting, and no other reset is queued |
| Connector.Connector.RunFunctor | src/39/Connector.cc:43-169 | running the functor at the head of the loop's queue is the step of the model, for each of the three functors |
| Connector.Connector.Timer | src/39/Connector.cc:237-239 | a retry timer fires: one timer less, and startInLoop |
| Connector.Connector.Dispatch | src/42/jmuduo/muduo/net/Channel.cc:78-118 | the channel reports an error, a write event or both, the error first |
| Connector.Connector.HandleWrite | src/39/Connector.cc:172-211 | a writable socket is handed over, closed if stopped, or retried on an error or a self-connection |
| Connector.Connector.HandleError | src/39/Connector.cc:213-222 | the channel is taken down and the attempt retried |
| Connector.Connector.Retry | src/39/Connector.cc:226-243 | the descriptor is closed and, unless stopped, a timer armed with the delay, which then doubles up to its limit |
| Connector.Connector.StopInLoop | src/39/Connector.cc:70-79 | a connection attempt is taken down, in any other state nothing happens |
| Connector.Connector.Restart | src/39/Connector.cc:123-130 | the delay is reset and a new attempt started |
| Numerals.DecimalRoundTrip | src/20/jmuduo/muduo/base/LogStream.cc:29-51 | the text of every integer is a numeral without leading zeros that reads back as the integer |
| Numerals.DecimalUnique | src/20/jmuduo/muduo/base/LogStream.cc:29-51 | every such numeral is the text of the number it reads as |
| Numerals.DecimalLength | src/20/jmuduo/muduo/base/LogStream.cc:94-100 | no 64-bit integer, the most negative included, takes more than 20 characters |
| Numerals.SomeNumerals | src/20/jmuduo/muduo/base/LogStream.cc:21-69 | sample numerals: sign, order and case of the digits |
| LogStream.Convert | src/20/jmuduo/muduo/base/LogStream.cc:29-51 | truncating division, the mirrored table and the reversal in place write the text and a NUL, for either sign |
| LogStream.WriteDigits | src/20/jmuduo/muduo/base/LogStream.cc:33-41 | the digit loop writes the digits of the absolute value backwards, for either sign |
| LogStream.ConvertHex | src/20/jmuduo/muduo/base/LogStream.cc:53-69 | the hexadecimal numeral of an address is written, with a NUL |
| LogStream.Reverse | src/20/jmuduo/muduo/base/LogStream.cc:48 | a range of the buffer is reversed in place and nothing else changes |
| LogStream.StreamHoldsAccepted | src/20/jmuduo/muduo/base/LogStream.h:37-46 | after any outputs the buffer holds exactly the accepted pieces, whole and in order, below its size |
| LogStream.AcceptedExactly | src/20/jmuduo/muduo/base/LogStream.cc:102-158 | each output of any run is accepted if and only if 32 of the 4000 characters are free, for numbers, or more than its length, for text |
| LogStream.PieceFits | src/20/jmuduo/muduo/base/LogStream.cc:103-110 | an accepted output leaves room for its terminating NUL |
| LogStream.FixedBuffer.Append | src/20/jmuduo/muduo/base/LogStream.h:38-46 | the whole text is appended, or nothing if it would not leave a free character |
| LogStream.LogStream.PutInteger | src/20/jmuduo/muduo/base/LogStream.cc:102-158 | an integer is appended when 32 characters are free, otherwise nothing |
| LogStream.LogStream.PutPointer | src/20/jmuduo/muduo/base/LogStream.cc:160-175 | an address is appended as 0x and its hexadecimal numeral when 32 characters are free |
| LogStream.LogStream.PutText | src/20/jmuduo/muduo/base/LogStream.h:126-148 | text is appended whole or not at all |
| LogStream.LogStream.PutBool | src/20/jmuduo/muduo/base/LogStream.h:92-96 | a truth value is appended as 1 or 0 |
| LogStream.LogStream.Put | src/20/jmuduo/muduo/base/LogStream.h:92-148 | an output of any type appends its piece whole or not at all |
| LogStream.LogStream.PutAll | src/20/jmuduo/muduo/base/LogStream.h:92-148 | any list of outputs into an empty stream leaves exactly the accepted pieces in it, whole and in order |
| Wire.ListRoundTrip | src/49/ABCBank/Public/JOutStream.cpp:12-58 | any list of values read with its tags takes up exactly the bytes written, and is the list if and only if every string is shorter than 65536 |
| Wire.CutMessageNoticed | src/49/ABCBank/Public/JInStream.cpp:36-112 | reading a message cut short anywhere runs into the length check |
| Wire.DecodeEncoded | src/49/ABCBank/Public/JInStream.cpp:36-112 | one value of any type reads back, and the bytes behind it are left alone |
| Wire.DecodeCut | src/49/ABCBank/Public/JInStream.cpp:36-112 | the encoding of one value cut short anywhere fails the length check |
| Wire.CarriedIff | src/49/ABCBank/Public/JOutStream.cpp:52-58 | a value survives unchanged if and only if it is not a string of 65536 bytes or more |
| Wire.NetworkOrder16 | src/49/ABCBank/Public/JOutStream.cpp:18-23 | the first byte of a half word counts most |
| Wire.NetworkOrder32 | src/49/ABCBank/Public/JOutStream.cpp:25-30 | the first byte of a word counts most |
| Wire.TwosComplement | src/49/ABCBank/Public/JOutStream.cpp:32-50 | a signed value is written as the unsigned one of the same width, plus 2^8, 2^16 or 2^32 if it is negative |
| Wire.LengthFirst | src/49/ABCBank/Public/JOutStream.cpp:52-58 | a string is its length in two bytes and then its text |
| Wire.SignedRoundTrip | src/49/ABCBank/Public/JInStream.cpp:69-100 | casting a signed value to its unsigned form and back returns it |
| Wire.SwappedMemory32 | src/49/ABCBank/Public/JUtil.h:86-92 | the swap of a word in little-endian memory is its big-endian form, and undoes itself |
| Wire.SwappedMemory16 | src/49/ABCBank/Public/JUtil.h:81-84 | the same for a half word |
| Streams.JOutStream.Append | src/49/ABCBank/Public/JOutStream.cpp:73-78 | bytes are appended at the cursor whatever growth is needed; bytes beyond stay |
| Streams.JOutStream.PutU8 | src/49/ABCBank/Public/JOutStream.cpp:12-16 | one byte is appended |
| Streams.JOutStream.PutU16 | src/49/ABCBank/Public/JOutStream.cpp:18-23 | a half word is appended, most significant byte first |
| Streams.JOutStream.PutU32 | src/49/ABCBank/Public/JOutStream.cpp:25-30 | a word is appended, most significant byte first |
| Streams.JOutStream.PutI8 | src/49/ABCBank/Public/JOutStream.cpp:32-36 | a signed byte is appended |
| Streams.JOutStream.PutI16 | src/49/ABCBank/Public/JOutStream.cpp:38-43 | a signed half word is appended in two's complement, most significant byte first |
| Streams.JOutStream.Skip | src/49/ABCBank/Public/JOutStream.h:37-41 | the cursor moves on, growing the buffer if need be, and what was written stays |
| Streams.JOutStream.Reposition | src/49/ABCBank/Public/JOutStream.h:32-35 | the cursor moves to a position inside the buffer |
| Streams.JOutStream.EnsureWritableBytes | src/49/ABCBank/Public/JOutStream.h:69-73 | the buffer grows to exactly what is needed and keeps its bytes |
| Streams.JOutStream.PutI32 | src/49/ABCBank/Public/JOutStream.cpp:45-50 | a signed word is written in two's complement, most significant byte first |
| Streams.JOutStream.PutString | src/49/ABCBank/Public/JOutStream.cpp:52-58 | the 16-bit length and that many bytes are written |
| Streams.JOutStream.Put | src/49/ABCBank/Public/JOutStream.cpp:12-58 | the operator of any type appends the encoding of the value |
| Streams.JOutStream.PutAll | src/49/ABCBank/Public/JOutStream.cpp:12-78 | a list of values is appended as its encoding, whatever growth is needed |
| Streams.JInStream.GetI16 | src/49/ABCBank/Public/JInStream.cpp:78-89 | a signed half word is read from the cursor, which moves two bytes |
| Streams.JInStream.GetU8 | src/49/ABCBank/Public/JInStream.cpp:36-43 | a byte is read |
| Streams.JInStream.GetU16 | src/49/ABCBank/Public/JInStream.cpp:45-55 | a half word is read, most significant byte first |
| Streams.JInStream.GetU32 | src/49/ABCBank/Public/JInStream.cpp:57-67 | a word is read, most significant byte first |
| Streams.JInStream.GetI8 | src/49/ABCBank/Public/JInStream.cpp:69-76 | a signed byte is read |
| Streams.JInStream.GetI32 | src/49/ABCBank/Public/JInStream.cpp:90-100 | a signed word is read |
| Streams.JInStream.Next | src/49/ABCBank/Public/JInStream.cpp:25-34 | the next bytes are returned and the cursor moves past them |
| Streams.JInStream.Skip | src/49/ABCBank/Public/JInStream.h:37-41 | the cursor moves on but never to the very end, because the assertion asks for one byte more |
| Streams.JInStream.GetString | src/49/ABCBank/Public/JInStream.cpp:102-112 | a length and that many bytes are read |
| Streams.JInStream.Get | src/49/ABCBank/Public/JInStream.cpp:36-112 | the operator of any type returns the decoded value and moves past its bytes |
| Streams.JInStream.GetAll | src/49/ABCBank/Public/JInStream.cpp:36-112 | the decoded list is read, and the cursor moves past exactly its bytes |
| Streams.Transmit | src/49/ABCBank/Public/JInStream.cpp:25-112 | a message written into an output stream and read from its bytes consumes exactly Length() of them and comes back as it was, if and only if every string is shorter than 65536 |
| SkipSpace.SkipTrailingSpace | src/49/ABCBank/Inc/m_string.h:266-290 | at every address the aligned scan ends where the naive one does and reads nothing outside the string |
| SkipSpace.TrimmedIsLast | src/49/ABCBank/Inc/m_string.h:287-289 | what the scan cuts off is spaces, and the byte before is none |
| SkipSpace.TrimmedOfPrefix | src/49/ABCBank/Inc/m_string.h:280-284 | cutting any spaces off the end first does not change where the scan ends |

## Left out

- Negative byte counts of the CFB calls, and positions outside the buffer for the streams' Reposition and the fixed buffer's add: the code does not check them; the model asks for valid ones.
- The thread safety of `IdeaCfbDecrypt`, whose buffer pointer is a static variable: calls are sequential here.
- The duplication of the CFB loops: the two directions are separate copies in the source, and here one method with a flag that both call.
- Wiping of temporary keys and contexts (`burn`), apart from the clearing at the end of MD5Final.
- Big-endian hosts: the cipher's byte swaps and the hash's empty byte reversal assume little-endian ones.
- MD5's word loads: the block buffer is read as sixteen words once per transform, not at each step.
- The internals of mutexes and condition variables, and the unlocked reads of the thread pool's fields as data races: each access is one step.
- Exceptions thrown by tasks, which end the process, and tasks that never return.
- A maximum size below zero for the bounded queue.
- The event loop, channels and system calls behind the connector: error codes, self-connection, and the moment timers and events arrive are the environment's choice; the connector's destructor and the lifetime of its callbacks are not modelled; calls the connection callback makes back into the connector count as the next events, as the callback is the last thing its handler does.
- Floating-point output, formatted output through snprintf, and time stamps.
- The echo servers and clients, sockets, the bank's sessions and transactions: input and output around the parts modelled here.
- The unbounded queue, the latch, the atomic counters and the string utilities: easier relatives of what is modelled.
- 64-bit byte swaps: no stream operator uses them.
