# DrCOM client: a verified model

This project models the DrCOM campus network client in Dafny and proves what its DHCP mode does: the three
streaming hash functions, the packets and checksums, the session protocol with its retry policy, and the
configuration parser. `dafny verify dfyconfig.toml` checks all of it.

## What is here

**Hashes.** `Blocks.dfy` has messages, blocks, folds and padding. `Rfc1320.dfy`, `Rfc1321.dfy` and `Fips180.dfy` restate
the compression functions of the standards with their tables; `MessageDigest.dfy` and `Fips180.dfy` give whole digests.
`Md4Rounds.dfy`, `Md5Rounds.dfy` and `Sha1Rounds.dfy` hold the optimised code: rewritten boolean functions, unrolled
steps over permuted registers, and for SHA-1 the block of 16 words that is overwritten while it is used. `Md.dfy` and
`Sha1.dfy` hold the contexts as classes whose `Valid()` ties registers, buffer and counters to a ghost message. `md4.c`
and `md5.c` differ in the body of their block loop only, so one class has both. `MdMessages.dfy`, `Md4Digests.dfy`,
`Md5Digests.dfy` and `Sha1Digests.dfy` work out published digests step by step, so that the restated standards are tied
to numbers that others have computed.

**Packets.** `Layout.dfy` has the packets as rows of fixed-width fields (`Fields.dfy`), `Protocol.dfy` the code that
fills arrays, and `ReadBack.dfy` the reader that takes them apart. `Encoding.dfy` has the arithmetic on the 64-bit
numbers of `Dwords.dfy`: 48-bit masking, the two checksums, the rotated password. `Beats.dfy` has the keepalive packets,
`Ipv4.dfy` dotted addresses, `Settings.dfy` the configuration record. `Wire.dfy` and `ReadBack.dfy` give all packets
byte by byte, down to the digests and checksums in them.

**Session.** `Net.dfy` describes the network by what arrives, which sends fail, the random bytes, the uptime of the
host, and for how many looks the stop flag is clear; behind the last arrival every receive times out. `Session.dfy` is
the protocol as an automaton over visible actions: each send with its bytes, each receive, look at the stop flag, sleep
and the closing of the socket. `Client.dfy` is the code; it records each action, the automaton has to allow it, and the
record has to agree with the environment. `RetryPolicy.dfy` and `RetryAfter.dfy` have the delays. `Safety.dfy`,
`RunLaws.dfy`, `Counting.dfy`, `Templates.dfy`, `Echoes.dfy`, `SessionLaws.dfy`, `Adequacy.dfy` and `LongPasswords.dfy`
prove laws of every trace of the automaton. What they conclude is about packets, datagrams, sleeps and looks at the
flag; some of them name the automaton's phase to say at which point of the protocol they apply. `Runs.dfy` puts them
together for every run of the client. The automaton allows more than the client does, so where a law says that something
can happen, `Witnesses.dfy` runs the client to show it. Stopping is monotone. Environments are finite but of any length,
and all laws but those on how a run ends hold of unfinished traces too.

**Configuration.** `ConfigText.dfy` splits a line in its buffer in place, `ConfigValues.dfy` reads values,
`Configuration.dfy` says what a file means independently of how it is read, `ConfigReader.dfy` is the reader, and
`ConfigurationLaws.dfy` has the round trips. `Characters.dfy` says which characters the bytes are.

## Results that qualify what the code promises

- A password character of 0x80 or more does not come back where `char` is signed; `Encoding.CharRoundTrip` and
  `ReadBack.LoginReadsPassword` say exactly when it does.
- Eternal mode leaves its loop after at most one failed attempt when fewer than two tries are configured, because the
  counter is cleared before an attempt and increased after it. With two tries or more every run leaves on the stop flag
  only (`Runs.RunToEnd`, and `RunLaws.EternalLeavesOnStop` for traces of the automaton); with fewer
  `Witnesses.LeavesWithoutStop` is a run that leaves without it. The program itself passes five tries.
- A password of 17 to 19 characters, which the configuration allows, is longer than the digest of 16 bytes that
  `dhcp_login` combines it with; what the code then does is not defined. `LongPasswords.StuckIff` says at which login a
  run comes to that. `LongPasswords.CanGetStuck` says in which configurations: no run of another one does
  (`Runs.RunToEnd`), and in each of these some run does (`Witnesses.GetsStuck`). All other runs of such configurations
  are covered.
- `checksum1` in `dhcp_login` has 8 bytes, and on every login a digest of 16 bytes is written to it
  (drcom/src/auth.c:245 and 300), which is as undefined as the long passwords. The model describes logins in which that
  write does no harm to anything else; all that is proved of runs that send a login rests on this.
- With the JLU template and more than eight characters, 28 zero bytes follow the end code of the login packet.

## Model

| member | source | states |
|---|---|---|
| Sha1Rounds.ChForm | drcom/src/libs/sha1.c:45 | the rewritten choose form equals Ch of section 4.1.1 of FIPS 180-4 for all words |
| Sha1Rounds.MajForm | drcom/src/libs/sha1.c:48 | the rewritten majority form equals Maj of section 4.1.1 of FIPS 180-4 for all words |
| Sha1Rounds.SwapReverses | drcom/src/libs/sha1.c:33-35 | `blk0` on a little-endian host turns four loaded bytes into the big-endian word of the schedule |
| Sha1Rounds.Blk0 | drcom/src/libs/sha1.c:33-35 | swaps slot i in place and returns schedule word i; the other slots keep what they held |
| Sha1Rounds.Blk | drcom/src/libs/sha1.c:41-42 | overwrites slot i mod 16 with the rotated exclusive or of four slots, which is word i of the 80-word schedule; the block keeps holding the last 16 words |
| Sha1Rounds.ScheduleBits | drcom/src/libs/sha1.c:41-42 | for every block each bit of word t, from 16 on, is the exclusive or of the bits one place further down of words t-3, t-8, t-14 and t-16 |
| Sha1Rounds.R0 | drcom/src/libs/sha1.c:45 | round i < 16 with renamed registers gives the new `a` and the rotated `b` of round i |
| Sha1Rounds.R1 | drcom/src/libs/sha1.c:46 | the same for rounds 16 to 19, which use the expanded schedule |
| Sha1Rounds.R2 | drcom/src/libs/sha1.c:47 | the same for rounds 20 to 39 with Parity |
| Sha1Rounds.R3 | drcom/src/libs/sha1.c:48 | the same for rounds 40 to 59 with Maj |
| Sha1Rounds.R4 | drcom/src/libs/sha1.c:49 | the same for rounds 60 to 79 with Parity |
| Sha1Rounds.AllRounds | drcom/src/libs/sha1.c:79-98 | the 80 lines with rotated register names over the block that is overwritten as it is used are the 80 register-shifting rounds of section 6.1.2 |
| Sha1Rounds.Transform | drcom/src/libs/sha1.c:54-110 | for every state and block the in-place compression is the one of section 6.1.2 of FIPS 180-4 |
| Sha1.BitCounterStep | drcom/src/libs/sha1.c:133-136 | two 32-bit counters with the carry of the code hold the bit count modulo 2^64 after every addition |
| Sha1.Context.constructor | drcom/src/libs/sha1.c:115-124 | a new context stands for the empty message |
| Sha1.Context.Count | drcom/src/libs/sha1.c:133-136 | after `Update` the counters stand for the longer message |
| Sha1.Context.Consume | drcom/src/libs/sha1.c:138-145 | completing the buffered block and hashing whole blocks from the data folds the compression over all full blocks |
| Sha1.Context.Update | drcom/src/libs/sha1.c:129-148 | chaining words, buffered tail and bit count stand for the old message followed by the data |
| Sha1.Context.PadBytes | drcom/src/libs/sha1.c:183-186 | the one-byte loop ends and has appended the least number of zero bytes that leaves room for the length |
| Sha1.Context.Finish | drcom/src/libs/sha1.c:153-187 | what was absorbed in the end is exactly the padded message of section 5.1.1 of FIPS 180-4 |
| Sha1.Context.Final | drcom/src/libs/sha1.c:153-195 | writes the SHA-1 digest of everything passed to `Update`, and clears the context |
| Sha1.Hash | drcom/src/libs/sha1.c:198-203 | the one-shot function is the digest of its input |
| Sha1.HashPieces | drcom/src/libs/sha1.c:129-195 | however a message is split over calls of `Update`, the digest is that of the whole |
| Sha1Digests.AbcDigest | drcom/src/libs/sha1.c:153-195 | the specification that all of this refines gives the digest that FIPS 180 publishes for "abc", a9993e36... |
| Sha1Digests.LettersDigest | drcom/src/libs/sha1.c:129-195 | and the one for the published message of two blocks, 84983e44... |
| Md4Rounds.FForm | drcom/src/libs/md4.c:50 | the optimised F equals F of section 3.4 of RFC 1320 |
| Md4Rounds.GForm | drcom/src/libs/md4.c:51 | the optimised G equals G of section 3.4 of RFC 1320 |
| Md4Rounds.FourF | drcom/src/libs/md4.c:117-132 | four unrolled lines over permuted registers are four table-driven steps of round 1 |
| Md4Rounds.FourG | drcom/src/libs/md4.c:135-150 | the same for round 2 with its constant and word order |
| Md4Rounds.FourH | drcom/src/libs/md4.c:153-168 | the same for round 3 |
| Md4Rounds.Transform | drcom/src/libs/md4.c:111-173 | for every chaining state and block the 48 unrolled steps are the compression of section 3.4 of RFC 1320 |
| Md5Rounds.FForm | drcom/src/libs/md5.c:51 | the optimised F equals F of section 3.4 of RFC 1321 |
| Md5Rounds.GForm | drcom/src/libs/md5.c:52 | the optimised G equals G of section 3.4 of RFC 1321 |
| Md5Rounds.HForm | drcom/src/libs/md5.c:53 | H with its first operands grouped equals H of RFC 1321 |
| Md5Rounds.H2Form | drcom/src/libs/md5.c:54 | H with its last operands grouped equals H of RFC 1321 |
| Md5Rounds.FourF | drcom/src/libs/md5.c:120-135 | four unrolled lines over permuted registers are four table-driven steps of round 1 |
| Md5Rounds.FourG | drcom/src/libs/md5.c:138-153 | the same for round 2 |
| Md5Rounds.FourH | drcom/src/libs/md5.c:156-171 | the same for round 3, where the two groupings of H alternate |
| Md5Rounds.FourI | drcom/src/libs/md5.c:174-189 | the same for round 4 |
| Md5Rounds.Transform | drcom/src/libs/md5.c:114-194 | for every chaining state and block the 64 unrolled steps are the compression of section 3.4 of RFC 1321 |
| Blocks.FoldConcat | drcom/src/libs/md5.c:100-205 | folding the compression over two runs of blocks is folding it over both, so a call of `body` continues where the last one ended |
| Blocks.CounterStep | drcom/src/libs/md5.c:223-226 | the 29-bit byte counter with its carry and the added `size >> 29` count modulo 2^61 for every size |
| Md.Context.constructor | drcom/src/libs/md5.c:207-216 | a new context stands for the empty message |
| Md.Context.Body | drcom/src/libs/md5.c:100-205 | the do-while over a positive number of whole blocks ends and folds the compression over them |
| Md.Context.Count | drcom/src/libs/md5.c:223-226 | lo and hi stand for the byte count of the longer message |
| Md.Context.Rest | drcom/src/libs/md5.c:244-249 | with an empty buffer whole blocks are hashed from the data and the rest waits in the buffer |
| Md.Context.Update | drcom/src/libs/md5.c:218-250 | registers, buffered tail and byte count stand for the old message followed by the data |
| Md.PadShort | drcom/src/libs/md5.c:264-281 | a tail below 56 bytes is completed to one block, which ends the padding of section 3.1 and 3.2 |
| Md.PadLong | drcom/src/libs/md5.c:268-281 | a longer tail is completed by two blocks to the same padding |
| Md.LengthHalves | drcom/src/libs/md5.c:277-279 | the two stored words are the 64-bit little-endian bit count of section 3.2 |
| Md.Context.Finish | drcom/src/libs/md5.c:258-281 | for every tail length the registers end as the fold over the padded message |
| Md.Context.Final | drcom/src/libs/md5.c:258-289 | writes the digest of everything passed to `Update`, for both algorithms, and clears the context |
| Md.Hash | drcom/src/libs/md5.c:291-296 | the one-shot function is the digest of its input |
| Md.HashPieces | drcom/src/libs/md4.c:197-268 | however a message is split over calls of `Update`, the digest is that of the whole |
| Md5Digests.AbcDigest | drcom/src/libs/md5.c:291-296 | the specification gives the digest that section A.5 of RFC 1321 publishes for "abc", 90015098... |
| Md5Digests.DigitsDigest | drcom/src/libs/md5.c:291-296 | and the one for eighty digits, which take two blocks, 57edf4a2... |
| Md4Digests.AbcDigest | drcom/src/libs/md4.c:270-275 | the same for MD4 and section A.5 of RFC 1320, a448017a... |
| Md4Digests.DigitsDigest | drcom/src/libs/md4.c:270-275 | and for the eighty digits, e33b4ddc... |
| Encoding.PackXor | drcom/src/auth.c:267-275 | the exclusive or of two packed 48-bit numbers is the packed bytewise exclusive or |
| Encoding.MaskMac | drcom/src/auth.c:265-281 | packing, combining and unpacking by mod and div gives the bytewise exclusive or that the logout packet uses |
| Encoding.XorLoop | drcom/src/auth.c:377-384 | the loop over reversed groups of four is the exclusive or of all little-endian words, in 64 bits with or without the mask |
| Encoding.LoginChecksum | drcom/src/auth.c:369-388 | checksum2 in 64-bit arithmetic is 1968 times (1234 xor all words of the message, zero-padded to a multiple of four) modulo 2^32, and every read is in bounds |
| Encoding.PppoeChecksum | drcom/src/auth.c:702-718 | the PPPoE sum in 64-bit arithmetic is the same fold from 0 times 19680126 modulo 2^32 |
| Encoding.XorWordsStep | drcom/src/auth.c:377-384 | four more bytes are combined as one more word |
| Encoding.LowestFirst | drcom/src/auth.c:378-382 | whose first byte is the lowest |
| Encoding.ChecksumValue | drcom/src/auth.c:385-390 | the four bytes of a checksum are the product modulo 2^32, least significant first |
| Dwords.WordValueIs | drcom/src/auth.c:378-382 | the value of a word in the checksums is the little-endian number of its four bytes |
| Dwords.NumTimes | drcom/src/auth.c:385 | the 64-bit product stands for the product of the numbers as long as 64 bits hold it |
| Dwords.MaskedProduct | drcom/src/auth.c:714 | with a word and a factor up to 2^32 nothing overflows, and the mask takes the remainder modulo 2^32 |
| Encoding.EmitByShifts | drcom/src/auth.c:386-388 | shifting and masking a 64-bit number emits its four low bytes, least significant first |
| Encoding.EmitByDivision | drcom/src/auth.c:715-718 | taking remainders and dividing emits the same four bytes |
| Encoding.CharRoundTrip | drcom/src/auth.c:358-361 | a password character is recovered from the byte sent exactly if its conversion to int is not negative |
| Encoding.EncodeIsRotation | drcom/src/auth.c:359-360 | for such a character the byte sent is the rotation by three of digest xor character |
| Protocol.SizeIsLength | drcom/src/protocol.c:7-26 | for all password lengths, ror flags and templates the computed size is the length of the packet laid out field by field |
| Protocol.BuildLogout | drcom/src/protocol.c:28-61 | the array becomes exactly the logout packet of the field layout |
| Protocol.PutRotated | drcom/src/auth.c:358-361 | the rotation loop appends the encoded password behind what was written before |
| Protocol.RorPadding | drcom/src/auth.c:342-366 | the four padding regimes as one function of password length, ror flag and template |
| Protocol.PutTail | drcom/src/auth.c:367-396 | checksum, MAC and end code complete the packet, whose size just holds them |
| Protocol.FillLogin | drcom/src/auth.c:244-396 | every write is inside the buffer and the finished array is the login packet of the field layout |
| Protocol.BuildLogin | drcom/src/auth.c:226-396 | a packet results exactly if the three addresses parse, and then it is that login packet |
| ReadBack.LoginReadsAccount | drcom/src/auth.c:249-301 | a reader of the finished packet recovers username, status bytes and, by unmasking, the MAC; bytes 4 to 19 and 64 to 79 are the MD5 digests of 03 01, seed, password and of 01, password, seed, four zero bytes; bytes 97 to 104 begin the digest of what precedes them and 14 00 07 0b |
| ReadBack.LoginReadsHost | drcom/src/auth.c:291-341 | it recovers address, DNS, DHCP server, dog byte, host names and both version codes |
| ReadBack.JluHostIs | drcom/src/auth.c:329 | the host name of the JLU template is DrCOM and four further bytes |
| ReadBack.JluServicePackIs | drcom/src/auth.c:328 | its service pack is a string of forty hexadecimal digits |
| ReadBack.LoginReadsPassword | drcom/src/auth.c:354-362 | where the password is sent its length is at 313 and each byte from 314 on is the character combined with the digest and rotated by three, with the ones that a negative int shifts in; a reader recovers it exactly if no character was negative as an int |
| ReadBack.LoginReadsTail | drcom/src/auth.c:367-390 | behind the body stand 02 0c, the checksum of everything before it and of the constant and the MAC that follow, two zero bytes, and the MAC a second time |
| ReadBack.LoginEnds | drcom/src/auth.c:391-396 | the length of the packet by password length, ror flag and template; it ends with the end code of the template, except that 28 zero bytes trail with the JLU template and more than eight characters |
| ReadBack.LogoutReadsBack | drcom/src/protocol.c:39-60 | the same reader recovers account, MAC and auth information from the logout packet, whose digest is that of 06 01, seed, password |
| Ipv4.ParseIff | drcom/src/configparse.h:43-75 | accepted strings are exactly four decimal numbers below 256 with dots between, leading zeros allowed |
| Ipv4.PrintParse | drcom/src/configparse.h:43-75 | printing four octets and parsing gives them back |
| Ipv4.ParseAddress | drcom/src/configparse.h:43-75 | the loop with its moving cursor succeeds exactly on these strings and then stores their octets |
| Beats.GenCrc | drcom/src/keepalive.c:354-394 | the eight bytes taken from the digest that the two low bits of the seed choose, or the constant |
| Beats.BuildBeatReply | drcom/src/keepalive.c:265-276 | the answer to a keepalive seed: seed, its check bytes and the auth information in place |
| Beats.BuildPlainBeat | drcom/src/keepalive.c:301-314 | the plain first keepalive: the digest of the login seed and the auth information in place |
| Beats.PacketBuilder | drcom/src/keepalive.c:396-422 | over a cleared buffer the second keepalive, with the host address only in type 3 and only if it parses |
| Beats.BuildBeat2Third | drcom/src/keepalive.c:525-532 | the third packet: the tail copied in behind the builder lands in its own field |
| Beats.BuildChallenge | drcom/src/auth.c:177-184 | a challenge of 20 bytes |
| Wire.ChallengeBytes | drcom/src/auth.c:177-184 | its bytes: 01, the code, two random ones, the version, zeros |
| Wire.SeedRequestBytes | drcom/src/keepalive.c:231 | the bytes of the request for a keepalive seed |
| Wire.BeatReplyBytes | drcom/src/keepalive.c:265-276 | the bytes of the answer to a seed: bytes 12 to 19 are eight named bytes of its MD5, MD4 or SHA-1 digest, or the constant, by its first byte modulo four |
| Wire.PlainBeatBytes | drcom/src/keepalive.c:301-314 | the bytes of the plain first keepalive |
| Wire.SecondBeatBytes | drcom/src/keepalive.c:396-422 | the bytes of the second keepalive of either type, with and without an extra packet |
| Wire.ExtraWhen | drcom/src/retry_policy.c:50-60 | an extra packet is due in every tenth round in JLU mode, beginning with the first, and else in the first |
| Net.ExchangeDetermined | drcom/src/keepalive.c:161-225 | what an exchange returns, reads and sends is determined by the events alone |
| Net.AnsweredAfter | drcom/src/keepalive.c:161-225 | an exchange that hears up to three failures and then an accepted reply ends with that reply after one send more than failures |
| Net.FourFailures | drcom/src/keepalive.c:161-225 | four failures end it without a reply after four sends |
| Net.ArrivalIs | drcom/src/keepalive.c:108-159 | of a datagram the first 1024 bytes arrive |
| Client.Client.ReceiveExpected | drcom/src/keepalive.c:108-159 | returns the first datagram from the server that passes the filter, or nothing at the first failure; the trace grows by the receives up to that one and by nothing else |
| Client.Client.Exchange | drcom/src/keepalive.c:161-225 | the reply is the first accepted datagram before the fourth failure; what is added to the trace sends this packet to the server first, and nothing but it, once plus once for each failure and at most four times; nothing behind the reply is read |
| Adequacy.FilterAdequate | drcom/src/keepalive.c:33-77 | whatever the filter accepts in a run has every byte its caller reads, and never starts as a notice does |
| Adequacy.SeedsAreRead | drcom/src/auth.c:218 | seeds and the keepalive tail are bytes of the reply itself |
| Adequacy.FilterExact | drcom/src/keepalive.c:33-77 | while a run waits, the filter accepts a datagram if and only if it comes from the server, is long enough for the kind of packet sent last, and has the bytes that tell an answer to it, given byte by byte for all eight kinds |
| Adequacy.LoginFilterExact | drcom/src/auth.c:411-426 | and after a login if and only if it starts with 4 or 5 |
| Adequacy.ThirdFollows | drcom/src/keepalive.c:489-532 | a proper answer to the packet of type 1 is taken, and the packet of type 3 with its bytes 16 to 19 goes out next |
| Client.Client.AskBeatSeed | drcom/src/keepalive.c:236-263 | the notice loop ends after one exchange |
| Client.Client.PlainLoop | drcom/src/keepalive.c:321-348 | so does the one around the plain keepalive |
| Client.Client.Keepalive1 | drcom/src/keepalive.c:227-352 | one exchange of the plain packet with the digest of this session's seed; or a request for a keepalive seed and, if it is answered, one exchange of the packet that answers exactly that seed |
| Client.Client.Keepalive2 | drcom/src/keepalive.c:424-568 | the extra packet if the round has one, the packet of type 1 exactly if the answer to that was of kind 0x10 or 0x28, and the packet of type 3 with the tail of the answer to type 1 exactly if there was one: one exchange of each, with the bytes of each, numbered by the counter, which counts failed ones too |
| Client.Client.FirstAndThird | drcom/src/keepalive.c:480-568 | the two regular exchanges |
| Client.Client.DhcpChallenge | drcom/src/auth.c:177-224 | one exchange of a challenge with code 2; the seed is bytes 4 to 7 of its answer, and the retry delay is reset whatever happens |
| Client.Client.DhcpLogin | drcom/src/auth.c:226-535 | if the addresses parse the login packet of the seed and template is sent, once, and only receives follow; else nothing happens; a long reply of code 4 opens the session with its bytes 23 to 38; any failure leaves the delay that belongs to it |
| Client.Client.SetDelayForReply | drcom/src/auth.c:454-460 | for every cooldown in the declarative sense the delay is 3 for a reply of up to four bytes and for one of five with code 3, the cooldown with code 0x15 if there is one, and else 60 |
| RetryAfter.ExtractRetryAfter | drcom/src/auth.c:138-175 | despite the saturating accumulator the result is the unbounded value of the first digit run that spaces and s or S follow, if in 1 to 1800, else 0 |
| RetryAfter.CooldownExists | drcom/src/auth.c:138-175 | every packet has a cooldown in the declarative sense |
| RetryAfter.CooldownUnique | drcom/src/auth.c:138-175 | and only one |
| RetryAfter.CooldownIs | drcom/src/auth.c:138-175 | where a digit run is marked first, it is the value of that if between 1 and 1800, else 0 |
| Client.Client.DhcpLogoutChallenge | drcom/src/auth.c:537-571 | one exchange of a challenge with code 3; the seed is bytes 4 to 7 of its answer |
| Client.Client.DhcpLogout | drcom/src/auth.c:573-605 | one exchange of the logout packet of that seed and session |
| Client.Client.LogoutBeforeStopExit | drcom/src/auth.c:52-62 | a logout challenge, and an exchange of the logout packet of its seed exactly if it was answered |
| Client.Client.StopSession | drcom/src/auth.c:887-891 | one look at the stop flag; if it is set, that logout and the closing of the socket follow |
| Client.Client.KeepaliveRound | drcom/src/auth.c:892-934 | one round: first keepalive, extra packet if due, second keepalive; six failures in a row give the session up |
| Client.Client.KeepSession | drcom/src/auth.c:881-943 | the keepalive loop ends by the stop flag with a logout and a closed socket, or after six failures with a sleep |
| Client.Client.Attempt | drcom/src/auth.c:860-952 | one pass of the attempt loop, with the template chosen by the failed logins so far; it stops short of a login that is not defined |
| Client.Client.Rand | drcom/src/auth.c:182-183 | each draw gives the next random byte of the environment |
| Client.Client.MaybeDelayInitialLogin | drcom/src/auth.c:115-136 | sleeps exactly if the uptime is known and below the startup delay, and then for the rest of it |
| Client.Client.Dogcom | drcom/src/auth.c:842-1012 | every run begins with that sleep, if any, and a look at the stop flag, and ends with the socket closed, and with 0 exactly if the flag was seen set, or else at a login that is not defined; every action was one the automaton allows |
| Runs.RunToEnd | drcom/src/auth.c:842-1012 | every run, for every configuration, network and stop flag, ends; its trace is what the environment did, down to the random bytes in the packets and the sleep at the start, and one of the protocol, so that all laws below apply; it closes the socket and returns 0 exactly if it saw the flag set, or it comes to a login that is not defined, which takes a configuration that allows it |
| Net.StopSeen | drcom/src/auth.c:842-859 | in a truthful trace a set flag was seen exactly if there were more looks than the flag was clear for |
| Safety.ClosedOnce | drcom/src/auth.c:842-1012 | the socket is closed once and nothing is sent or read afterwards |
| Safety.LoginFollowsChallenge | drcom/src/auth.c:862-880 | each login packet carries the seed of the server's answer to a challenge of the same attempt, with nothing sent in between, in the template of its place among the logins since the last accepted one |
| Safety.OneLoginPerAnswer | drcom/src/auth.c:852-880 | no two logins use the same answer |
| SessionLaws.SessionPackets | drcom/src/auth.c:880-943 | every packet but challenges for a login and logins goes out in a session that the server accepted, before the next login, and is one of that session: a keepalive of the form the configuration asks for with its seed and auth information, the second keepalive, a challenge for a logout, or the logout of its auth information |
| SessionLaws.AsksAreChallenges | drcom/src/auth.c:177-192 | every challenge for a login has all its bytes fixed but for the two random ones |
| SessionLaws.LogoutFollowsChallenge | drcom/src/auth.c:537-605 | each logout packet carries the seed of the server's answer to a challenge for a logout, since which only this packet was sent, and the auth information of its session |
| SessionLaws.SecondBeats | drcom/src/keepalive.c:424-568 | each packet of the second keepalive is the one that its place in the session and in the round determine: its counter is its number in the session, its kind extra, type 1 or type 3 in this order, and the tail of type 3 that of the reply to type 1 |
| RunLaws.SleepsAre | drcom/src/auth.c:64-87 | each sleep is the startup delay, the 20 seconds of a good round, or the delay of the attempt just made; the latter is in 1 to 1800 |
| RunLaws.DelayIsOfAttempt | drcom/src/auth.c:193 | no cooldown of an earlier attempt leaks into a later delay |
| RunLaws.RefusalSleeps | drcom/src/retry_policy.c:14-20 | the sleep after a refusal is 3, its cooldown or 60 seconds by its length, its code and its text |
| RunLaws.OtherSleeps | drcom/src/auth.c:64-87 | after any other attempt that failed it is 60 seconds |
| RunLaws.AsksAreBounded | drcom/src/auth.c:852-859 | a run that is not eternal begins at most as many challenges as it has tries, and sends at most four packets for each |
| RunLaws.ReachableBegun | drcom/src/auth.c:852-862 | the challenges begun are the passes of the attempt loop |
| RunLaws.StopLeads | drcom/src/auth.c:886-891 | after the flag is seen set, a session asks for a logout seed at once and everything else closes |
| RunLaws.LogoutIffAnswered | drcom/src/auth.c:936-940 | after a stop in or behind the keepalive loop a logout is sent if and only if the challenge for it was answered |
| RunLaws.EternalLeavesOnStop | drcom/src/auth.c:852-859 | all closed traces of the automaton in eternal mode saw the stop flag set if and only if at least two tries are configured |
| Witnesses.LeavesWithoutStop | drcom/src/auth.c:852-859 | for every configuration with fewer tries a run of the client itself leaves an eternal loop with 1 and without having seen the flag set |
| Counting.FailingSuffix | drcom/src/retry_policy.c:22-36 | at the head of the keepalive loop the failure counter is the number of rounds failed in a row and below six; the session is given up exactly at six |
| Counting.BeatsAreNumbered | drcom/src/keepalive.c:424-568 | the n-th exchange of the second keepalive of a session, failed ones included, carries n modulo 255 |
| Counting.CountersDiffer | drcom/src/keepalive.c:431 | numbers of exchanges less than 255 apart differ |
| Counting.StaleIsIgnored | drcom/src/keepalive.c:441-454 | a late reply to any of the 254 exchanges before the one under way changes nothing |
| Echoes.BeatsEcho | drcom/src/keepalive.c:265-298 | each answer to a keepalive seed repeats bytes 8 to 11 of the server's reply to the request before it, and each packet of type 3 repeats bytes 16 to 19 of the reply to the packet of type 1 before it |
| LongPasswords.StuckIff | drcom/src/auth.c:354-362 | a run is at a login that is not defined exactly if one is due, the addresses parse, the password has more than 16 characters, and it is rotated in every login or three logins in a row were not accepted |
| LongPasswords.StuckReachable | drcom/src/auth.c:871-880 | some trace of the automaton comes to such a login if and only if the addresses parse, the password has more than 16 characters, and there is a try for a login that rotates it |
| Witnesses.GetsStuck | drcom/src/auth.c:862-880 | for every such configuration a run of the client itself does, against a server that answers challenges and no login |
| Templates.TemplateOfLogin | drcom/src/auth.c:871 | the bytes of each login of a run show the template that belongs to the number of logins since the server last accepted one |
| Templates.TemplateSequence | drcom/src/retry_policy.c:38-48 | in generic mode these are standard, standard, standard, JLU, standard, JLU and so on; in JLU mode always JLU |
| Templates.NextLogin | drcom/src/auth.c:880-945 | from one login of a trace to the next that number goes up by one, or it is 0, and that exactly if the server accepted the first before anything else was sent |
| Templates.TemplatesAlternate | drcom/src/retry_policy.c:43-47 | from the fourth on, no two logins in a row without an acceptance in between use the same template |
| Safety.ReachableLogins | drcom/src/auth.c:884-945 | the client's count of failed logins is that number |
| Counting.CounterOfRounds | drcom/src/retry_policy.c:50-60 | between two rounds of a session of which none failed, after k rounds, the exchanges begun since the login, and with them the counter, are 2k + ceil(k / 10) in JLU mode and else 2k + 1 from the first round on |
| ConfigText.TrimIs | drcom/src/configparse.c:34-56 | trimming cuts off white space only and leaves none at the ends |
| ConfigText.TrimInPlace | drcom/src/configparse.c:34-56 | moving the pointer and writing zero bytes gives the trimmed string and changes nothing outside of it |
| ConfigText.StripMatchingQuotes | drcom/src/configparse.c:58-75 | one pair of matching quotes goes, in place |
| ConfigText.ParseKeyValue | drcom/src/configparse.c:77-106 | the state and the two strings in the buffer are what the line means |
| ConfigText.PrintRead | drcom/src/configparse.c:77-106 | a key with its value in quotes reads back, whatever equals signs and quotes the value contains |
| ConfigValues.CollectHexDigits | drcom/src/configparse.c:152-175 | succeeds exactly if the number of hexadecimal digits behind an optional 0x is the expected one, and collects them |
| ConfigValues.ParseHexBytes | drcom/src/configparse.c:177-230 | one, two or six bytes from pairs of these digits |
| ConfigValues.HexRoundTrip | drcom/src/configparse.c:177-230 | bytes printed with 0x in front read back, for any number of bytes |
| ConfigValues.SeparatedRoundTrip | drcom/src/configparse.c:211-230 | so do bytes with a separator between them, as in hardware addresses |
| ConfigValues.ParseBoolString | drcom/src/configparse.c:232-258 | True, False, 1 and 0, the words in any case, and nothing else |
| ConfigValues.BoolRoundTrip | drcom/src/configparse.c:232-258 | a printed truth value reads back |
| ConfigValues.ParseSecondsIff | drcom/src/configparse.c:260-275 | accepted are white space, a sign or none, digits and white space, for values from 0 to 1800; minus only before zero |
| ConfigValues.ParseNonnegativeInt | drcom/src/configparse.c:260-275 | the code on strtol computes exactly that |
| Configuration.KeyOfIff | drcom/src/configparse.c:396-536 | each key has one name and each name one key |
| Configuration.NameSpells | drcom/src/configparse.c:396-536 | the names of the keys, as strings |
| Configuration.ProfileGives | drcom/src/retry_policy.c:62-100 | a file of lines that are all right is accepted exactly if it names one of the three profiles or none, and each of five settings that it does not make is the one of its profile |
| Characters.Signs | drcom/src/configparse.c:34-106 | the signs that the text formats use |
| Characters.Spaces | drcom/src/configparse.c:34-56 | white space is that of the C locale |
| Characters.HexDigits | drcom/src/configparse.c:152-175 | the hexadecimal digits of either case and their values |
| Characters.TruthValues | drcom/src/configparse.c:232-258 | the words for truth values |
| ConfigReader.Reader.Store | drcom/src/configparse.c:396-538 | a value is stored in the field of its key, and noted as explicit, exactly if it is allowed for the key |
| ConfigReader.Reader.ReadLine | drcom/src/configparse.c:375-539 | one line changes the two records as its meaning says; blank lines and comments change nothing |
| ConfigReader.Reader.ApplyProfileDefaults | drcom/src/configparse.c:277-313 | fails exactly for an unknown profile; else sets the defaults where the file said nothing |
| ConfigReader.Reader.Parse | drcom/src/configparse.c:315-359 | succeeds exactly on the accepted files; then each field is its key's last explicit value, else the default of the profile, else zero |
| ConfigReader.StoreStep | drcom/src/configparse.c:330-348 | reading one more line keeps "the last line for each key" |
| Configuration.OrderIrrelevant | drcom/src/configparse.c:315-359 | files with the same lines mean the same if the lines of each single key are in the same order |
| Configuration.SwapKeeps | drcom/src/configparse.c:315-359 | two neighbouring lines with different keys may change places |
| Configuration.AcceptedIsSound | drcom/src/configparse.h:9-31 | an accepted file gives strings that fit their fields, addresses that parse, and a delay in range |
| ConfigurationLaws.ConfigRoundTrip | drcom/src/configparse.c:315-359 | the file with one printed line for each field of a configuration means that configuration |
| ConfigurationLaws.ReadBack | drcom/src/configparse.c:315-359 | its lines fit the reader's buffer, and reading it puts the configuration back into the record |
| ConfigurationLaws.PrintedFileMeansTheSame | drcom/src/configparse.c:315-359 | whatever file a configuration came from, printing and reading it again changes nothing |
| ConfigurationLaws.LoginNeedsAddresses | drcom/src/auth.c:292-314 | with an accepted file, whatever its password, `dhcp_login` gives up on an address exactly if the file has no line for one of the three |

## Left out

- Protocol.BuildLogin: what the code does with a password of more than 16 characters once it rotates it against the digest of 16 bytes, because it then reads behind an array; the automaton has no step there.
- Sha1.Context.Update: the buffered bytes and the data together must stay below 2^32, because the code adds them in 32 bits.
- Protocol.FillLogin: `checksum1` is declared with 8 bytes while the digest has 16; the model takes the first 8 bytes of a digest of 16, and nothing else is overwritten.
- Md.Context.Final: what the caller's digest buffer holds behind the digest is unchanged; the context is not valid afterwards, as in the code, which clears it.
- Md.Context.Update: MD4 and MD5 share one class; the `SET` and `GET` accesses to memory are the little-endian words of the block, on a host with 32-bit words; the counters are numbers with their widths written out, so that shifting them to the right is division.
- Sha1Rounds.AllRounds: the 80 lines, whose register names repeat every five, are five lines in a loop for each kind of round; the places where the kind changes are written out.
- ConfigReader.Reader.Parse: lines are given already split and shorter than the buffer of 256 bytes; longer lines, which the file reader cuts, are not modelled. After a failure the record is not described.
- ConfigReader.Reader.Store: `bind_ip`, `log` and `eternal` are checked, but their globals, which an earlier file may have set, are not part of the record.
- ConfigValues.ParseHexBytes: `sscanf` on pairs of digits that were collected before is their value.
- Client.Client.Exchange: a datagram longer than the receive buffer of 1024 bytes is cut; resend and error messages are left out.
- Client.Client.Keepalive2: checks of bytes that the filter has checked already (first byte, and third byte in the two regular exchanges) are left out.
- Client.Client.Dogcom: creating and binding the socket comes before the model starts; a run that fails there has no actions.
- The PPPoE session loop and its receive paths: only the checksum loop of its login is modelled.
- The EAPOL supplicant, the daemon, option parsing, logging, printing and the files behind them: outside of the protocol.
- The web interface, init scripts, packaging and build matrix: no protocol logic.
- The `TEST`, `DEBUG`, `WIN32` and `FORCE_ENCRYPT` branches.
- Cryptographic strength of the hashes, and what the server does.
