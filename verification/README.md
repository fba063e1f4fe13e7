# Verified models of the simple-examples collection

A Dafny project about the pieces of the collection that carry real invariants: the URL parser of the
HTTP/2 client and the request builder behind it, the SOCKS5 proxy with its connection table, its event
loop, its intrusive lists and its stream ciphers, the Go token ring, the two latency trackers, the client
and server protocol machines, and the path check of the HTTP/2 server.

`dafny verify dfyconfig.toml` checks everything.

## What is modelled and how

**URL parser** (`Url*.dfy`). `UrlScan` and `UrlHost` hold the two automata as functions. Each is paired with
a record of what has been read, and one step forward and one step back are shown to be inverse, so that
each pass is known to survive exactly on the texts of well-formed records. `UrlGrammar` states the language
without automata: a syntax tree, its printer, validity, and the printer's own offsets. `UrlParse` proves that
the two passes read exactly that grammar. `UrlParser` is the code as it runs: loops that update the caller's
record, proved to return 0 exactly on the grammar and to record exactly the printer's runs and the port.
`UrlFields` and `UrlTheorems` say what those runs mean for the buffer. `UrlRequest` fills the `:authority` and
`:path` buffers in place (section 8.1.2.3 of RFC 7540), and `UrlReparse` proves what survives when they are
parsed again. The grammar is the one of the code: letters only in a scheme, no `#` directly behind the
authority, repeated `#` skipped. CONNECT mode is covered too: the code's comment promises `hostname:port`
only, but an empty userinfo and an empty query are accepted; the exact language is stated.

**SOCKS5 proxy** (`Proxy*.dfy`). `ProxyTable` describes the table, the handlers of both programs, polling and
dispatch as functions over explicit heaps: a pointer is an address, freeing removes the block, the allocator
may hand out a freed address again, and following a dangling pointer is a `Fault`. The environment decides
what is readable and what accept, connect, recv, send and the SOCKS request return. `ProxyInvariant` and
`ProxySafety` prove the table invariant over every run and that no run faults, although handlers free
contexts while a batch of saved pointers is being dispatched. `ProxyDecisions` states, as relations on tables, when
a handler closes, attaches or leaves everything alone, and that every run is a sequence of such calls in poll order.
`ProxyHeap` and `ProxyServer` are the program on a
real heap: connections, remotes and list nodes are objects that point at each other, the lists are those of
`Lists`, saved contexts are references in an array. Each operation is proved to take the table that these objects
stand for where the function on values does, and before a pointer is followed the object it leads to is proved to
be allocated, not merely its address to be in use again. `container_of` is a look-up of the block that a node is
embedded in.

**Lists** (`Lists.dfy`). The kernel-style circular lists on a real heap of nodes, as a family of disjoint lists.
The proxy uses two of them.

**Ciphers** (`Cipher*.dfy`). RC4 and XOR as one keystream; in-place routines on arrays; two encryptor objects at
the ends of a stream; the link as it is wired, on values and on two encryptor objects with queues, where both directions of an end advance one state. For the link the
exact condition is proved over every run, with or without turn taking and with complete or partial sends, byte by
byte in terms of the keystream positions of sender and receiver.
Exclusive or is written out over the binary digits of bytes.

**Token ring** (`Ring*.dfy`). The three goroutines as a transition system over their program counters, the
buffer of the one buffered channel and the output; every interleaving is a sequence of its steps. Step and
finish are parameters. The numbers 1 to finish are printed only for a step of at least 2: with a step of 1 the
last number is missing and the ring deadlocks, so the exact condition is proved. The test `finish / 15 != 0`
in `main` only prints a warning and is not part of the behaviour proved.

**Trackers** (`Tracker.dfy`, `Tracker3.dfy`, `Sorting.dfy`). `qsort` is represented by a sort whose result is
proved to be the only sorted arrangement, so its algorithm does not matter.

**Protocol machines** (`Fsm.dfy`) and **path check** (`PathCheck.dfy`).

## Model

| member | source | states |
|---|---|---|
| UrlTheorems.AcceptsExactly | nghttp2_test/client/url-parser/url_parser.c:531-652 | a buffer is accepted, in normal and in CONNECT mode, exactly when it is the printed text of some valid tree of the grammar |
| UrlTheorems.Unambiguous | nghttp2_test/client/url-parser/url_parser.c:531-652 | no text is the text of two valid trees |
| UrlTheorems.AcceptedFields | nghttp2_test/client/url-parser/url_parser.c:548-617 | on any accepted buffer each set field is a nonempty run inside it, fields lie in the order scheme, userinfo, host, port, path, query, fragment without overlap, and every byte outside them is one of the seven delimiters |
| UrlTheorems.AtMostOneAt | nghttp2_test/client/url-parser/url_parser.c:268-292 | the authority of an accepted URL holds at most one at-sign |
| UrlTheorems.ConnectExactly | nghttp2_test/client/url-parser/url_parser.c:619-622 | an accepted CONNECT buffer is a host, a colon and a port if and only if it holds no at-sign and no question mark |
| UrlTheorems.ConnectAcceptsMore | nghttp2_test/client/url-parser/url_parser.c:619-622 | the CONNECT buffer `@h:1` is accepted and is no host and port |
| UrlParse.ParseExact | nghttp2_test/client/url-parser/url_parser.c:531-652 | the two passes read a given tree from a buffer if and only if the tree is valid and prints as the buffer: printing then parsing is the identity, and so is parsing then printing |
| UrlParse.ParseAuthorityExact | nghttp2_test/client/url-parser/url_parser.c:444-524 | the second pass reads an authority from a text if and only if it is valid and prints as that text |
| UrlParse.AuthorityIsServer | nghttp2_test/client/url-parser/url_parser.c:268-292 | every authority the second automaton accepts is accepted by the first, which notices an at-sign exactly when there is userinfo |
| UrlParse.ConnectFields | nghttp2_test/client/url-parser/url_parser.c:619-622 | the test on the set of fields in CONNECT mode, in terms of the tree |
| UrlChars.ClassCodes | nghttp2_test/client/url-parser/url_parser.c:174-201 | the character classes by the ASCII codes of their members |
| UrlScan.ScanExact | nghttp2_test/client/url-parser/url_parser.c:214-360 | the first automaton survives a text exactly when the text is made of well-formed pieces, and cuts it in one way only |
| UrlScan.StepForward | nghttp2_test/client/url-parser/url_parser.c:214-360 | a live transition appends its character to the pieces, keeps them well-formed and leaves the automaton in the state the pieces determine |
| UrlScan.StepBack | nghttp2_test/client/url-parser/url_parser.c:214-360 | every well-formed nonempty reading was reached by exactly such a transition |
| UrlHost.ScanHostExact | nghttp2_test/client/url-parser/url_parser.c:362-442 | the second automaton survives a text exactly when the text is made of well-formed parts, cut in one way only |
| UrlHost.HostStepForward | nghttp2_test/client/url-parser/url_parser.c:362-442 | a live transition of the second automaton appends its character to the parts and keeps them well-formed |
| UrlHost.HostStepBack | nghttp2_test/client/url-parser/url_parser.c:362-442 | every well-formed nonempty reading of the authority was reached by such a transition |
| UrlHost.MayEndExact | nghttp2_test/client/url-parser/url_parser.c:508-521 | the states in which the authority may end are exactly those with a complete host and no dangling colon |
| UrlHost.HostWithinServer | nghttp2_test/client/url-parser/url_parser.c:362-442 | the parts contain only authority characters, at most one at-sign, and one exactly when a userinfo was closed |
| UrlRuns.PieceExtendsRun | nghttp2_test/client/url-parser/url_parser.c:593-603 | starting or lengthening a run by one character gives exactly the layout of the extended pieces |
| UrlRuns.DelimiterKeepsRuns | nghttp2_test/client/url-parser/url_parser.c:556-562 | skipping a delimiter changes no run and not the last field |
| UrlRuns.HostCharRecorded | nghttp2_test/client/url-parser/url_parser.c:464-505 | the switch on the new host state records exactly the layout of the extended parts |
| UrlRuns.FinalLayout | nghttp2_test/client/url-parser/url_parser.c:613-617 | after both passes the recorded runs are the printer's offsets and lengths of the tree |
| UrlParser.ParseUrl | nghttp2_test/client/url-parser/url_parser.c:531-652 | the parser returns 0 exactly when the specification reads a tree, and then the record holds exactly the printer's runs and the port number |
| UrlParser.ScanUrl | nghttp2_test/client/url-parser/url_parser.c:545-604 | the first loop succeeds exactly when the first automaton does, records its layout and remembers whether there was an at-sign |
| UrlParser.ParseHost | nghttp2_test/client/url-parser/url_parser.c:444-524 | the second loop succeeds exactly on complete authorities, shrinks the HOST run and carves USERINFO and PORT out of it |
| UrlParser.ReadPort | nghttp2_test/client/url-parser/url_parser.c:624-649 | the early exit above 65535 agrees with the decimal value of the whole digit string, and otherwise that value is returned |
| UrlParser.FinishFields | nghttp2_test/client/url-parser/url_parser.c:619-649 | the CONNECT test and the port check decide as specified and set the port |
| UrlFields.FieldText | nghttp2_test/client/url-parser/url_parser.c:548-617 | each recorded run selects exactly the text of its component |
| UrlFields.FieldsOrdered | nghttp2_test/client/url-parser/url_parser.c:548-617 | two recorded runs lie in the order of their fields and do not overlap |
| UrlFields.OutsideIsDelimiter | nghttp2_test/client/url-parser/url_parser.c:548-617 | a byte in no run is a delimiter |
| UrlRequest.CreateStreamData | nghttp2_test/client/main.c:97-143 | the authority buffer of host length plus 7 holds the host, and a colon and the port number if there is one, and its NUL fits; the path buffer is filled exactly with the path, or a slash, and a question mark and the query if there is one |
| UrlRequest.PrintPort | nghttp2_test/client/main.c:111-115 | printing the port writes at most 6 characters and a NUL behind the host and leaves the host alone |
| UrlRequest.DecimalTextValue | nghttp2_test/client/main.c:111-115 | the printed port reads back as the same number |
| UrlReparse.ReparseSame | nghttp2_test/client/main.c:97-143 | putting scheme, authority and path together gives a URL within the length limit that parses with the same scheme, host, port number and query, and with the same path, or a slash if there was none |
| UrlReparse.ReparseExactly | nghttp2_test/client/main.c:107-115 | the request parses again with the same host name if and only if that name is made of plain host characters, which settles bracketed hosts |
| UrlReparse.BracketedHostLost | nghttp2_test/client/main.c:107-115 | `http://[::1]/` is accepted, and no reading of the request made from it has the host name `::1` |
| ProxySafety.ProxyRunSafe | Python/socks5/socks5_c-master/socks.c:373-445 | from a new server no run, with any admissible answers of the environment, follows a dangling pointer, and every run keeps the table invariant |
| ProxySafety.DispatchAllSafe | Python/socks5/socks5_c-master/socks.c:421-443 | every context of a batch is still allocated when its turn comes |
| ProxySafety.PollPending | Python/socks5/socks5_c-master/socks.c:373-410 | a poll collects exactly the readable contexts, each live and each once |
| ProxySafety.BatchFits | Python/socks5/socks5_c-master/socks.c:385-408 | a batch is never longer than the number of descriptors looked at |
| ProxySafety.DispatchSafe | Python/socks5/socks5_c-master/socks.c:421-443 | a handler call on a live context does not fault, keeps the invariant and frees at most its own context |
| ProxySafety.IoSafe | Python/socks5/socks5_c-master/server.c:66-103 | so does the connection handler of either side in every state |
| ProxySafety.LocalOpeningSafe | Python/socks5/socks5_c-master/local.c:75-86 | so does the handshake and connect step of the local side, whose handshake leaves the opening state first |
| ProxySafety.RemoteIoSafe | Python/socks5/socks5_c-master/server.c:6-33 | so does the handler of a remote |
| ProxyInvariant.AddConnCore | Python/socks5/socks5_c-master/socks.c:105-137 | adding a connection keeps lists, counter, links, read set and distinct descriptors |
| ProxyInvariant.AddRemoteCore | Python/socks5/socks5_c-master/socks.c:154-185 | attaching a remote keeps them, with both pointers set |
| ProxyInvariant.LeakCore | Python/socks5/socks5_c-master/socks.c:166-171 | a failed connect loses a block and keeps them |
| ProxyInvariant.DelConnCore | Python/socks5/socks5_c-master/socks.c:187-198 | deleting a connection does not fault and keeps them |
| ProxyInvariant.DelRemoteCore | Python/socks5/socks5_c-master/socks.c:200-208 | deleting a remote does not fault and keeps them |
| ProxyDecisions.IoDecides | Python/socks5/socks5_c-master/server.c:36-103 | the connection handler frees its connection exactly when request or handshake or connect fails, the remote is gone, or forwarding fails; it attaches a remote exactly on a successful connect, and when it only forwards the whole table is unchanged |
| ProxyDecisions.ConnectedDecides | Python/socks5/socks5_c-master/local.c:87-91 | in the CONNECTED state, which no run reaches, the server side closes and the local side forwards |
| ProxyDecisions.RemoteIoDecides | Python/socks5/socks5_c-master/server.c:6-33 | the remote handler frees its remote exactly when its connection is gone or forwarding fails, and otherwise leaves the whole table unchanged |
| ProxyDecisions.AcceptDecides | Python/socks5/socks5_c-master/server.c:105-122 | an accepted descriptor gives exactly one more connection with that descriptor, first on its list, opening and without a remote; a failed accept changes nothing |
| ProxyDecisions.DispatchDecides | Python/socks5/socks5_c-master/socks.c:421-443 | each call of the loop makes the decision of the handler that belongs to its context |
| ProxyDecisions.PollIsBatch | Python/socks5/socks5_c-master/socks.c:385-408 | a poll lists exactly the readable contexts, once each: the listening socket, then the connections, then the remotes, each in list order |
| ProxyDecisions.RunIsTurns | Python/socks5/socks5_c-master/socks.c:412-445 | every run is a sequence of turns, each making one call for every context of its poll in that order, with the decisions above |
| ProxyHeap.AllocConn | Python/socks5/socks5_c-master/socks.c:105-137 | allocating a connection object and putting its node on the list gives a heap that stands for the table with the new connection, with both circular lists intact |
| ProxyHeap.AllocRemote | Python/socks5/socks5_c-master/socks.c:154-185 | allocating a remote, setting the pointers both ways and putting its node on the list gives a heap that stands for the table with the attached remote |
| ProxyHeap.FreeConn | Python/socks5/socks5_c-master/socks.c:187-198 | after clearing the pointer back and taking the node off its list no pointer and no list node leads to the freed connection, and the heap stands for the table without it |
| ProxyHeap.FreeRemote | Python/socks5/socks5_c-master/socks.c:200-208 | the same for a freed remote |
| ProxyServer.Serve | Python/socks5/socks5_c-master/socks.c:412-445 | from a new server the heap program, for any admissible answers of the environment, ends with a heap that stands for the outcome of the specified run, which keeps the table invariant and is a sequence of turns with the stated decisions |
| ProxyServer.Server.Loop | Python/socks5/socks5_c-master/socks.c:412-445 | the loop on the heap refines the specified run of the table and keeps the invariant |
| ProxyServer.Server.Poll | Python/socks5/socks5_c-master/socks.c:373-410 | walking the two circular lists fills the array, without running over its end, with references to exactly the contexts of the specified batch |
| ProxyServer.Server.DispatchBatch | Python/socks5/socks5_c-master/socks.c:421-443 | the loop over the saved references refines the specified dispatch, each reference leading to an allocated object when its turn comes |
| ProxyServer.Server.Dispatch | Python/socks5/socks5_c-master/socks.c:421-443 | one call makes the decision stated for its context, follows live pointers only, frees at most its own object, and every other object stays where it was |
| ProxyServer.Server.IoHandle | Python/socks5/socks5_c-master/local.c:62-99 | the connection handler on objects refines the step of the table, and every object but its own stays allocated at its address |
| ProxyServer.Server.RemoteIoHandle | Python/socks5/socks5_c-master/local.c:8-33 | the remote handler on objects refines the step of the table, and every object but its own stays allocated at its address |
| ProxyServer.Server.AddRemote | Python/socks5/socks5_c-master/socks.c:154-185 | on objects and circular lists, attaching refines the table operation, joins only new objects to the heap and keeps every old one |
| ProxyServer.Server.DelConn | Python/socks5/socks5_c-master/socks.c:187-198 | on objects and circular lists, deleting refines the table operation, leaves no dangling pointer and keeps every other object |
| ProxyServer.Server.DelRemote | Python/socks5/socks5_c-master/socks.c:200-208 | on objects and circular lists, deleting refines the table operation, leaves no dangling pointer and keeps every other object |
| Lists.Add | Python/socks5/socks5_c-master/list.h:57-60 | the entry becomes the first of its list, every other list of the family is untouched |
| Lists.AddTail | Python/socks5/socks5_c-master/list.h:70-73 | the entry becomes the last of its list, every other list is untouched |
| Lists.Del | Python/socks5/socks5_c-master/list.h:93-98 | the entry leaves its list and loses its links, every other list is untouched |
| Lists.Move | Python/socks5/socks5_c-master/list.h:115-119 | the entry leaves one list and becomes the first of another or of the same |
| Lists.MoveTail | Python/socks5/socks5_c-master/list.h:126-131 | the entry leaves one list and becomes the last of another or of the same |
| Lists.SpliceInto | Python/socks5/socks5_c-master/list.h:142-165 | the entries of one list go in front of those of the other, in order |
| Lists.SpliceInit | Python/socks5/socks5_c-master/list.h:174-181 | as splicing, and the emptied list is an empty list again |
| Lists.Walk | Python/socks5/socks5_c-master/list.h:197-199 | walking the next links yields the entries in order |
| Lists.WalkBack | Python/socks5/socks5_c-master/list.h:205-207 | walking the prev links yields them in reverse |
| Lists.ListUnique | Python/socks5/socks5_c-master/list.h:20-22 | the links of a head determine its entries |
| CipherRc4.ShortCycleUnreachable | Python/socks5/socks5_c-master/rc4.c:55-101 | from no key and after no number of bytes is index2 one ahead of index1 and pointing at the value 1 |
| CipherRc4.ShortCycleRounds | Python/socks5/socks5_c-master/rc4.c:87-100 | that set of states is entered and left by no number of rounds |
| CipherRc4.AlwaysPerm | Python/socks5/socks5_c-master/rc4.c:55-101 | for every key and after any number of bytes the table is a permutation of 0..255 |
| CipherRc4.RoundIsBijective | Python/socks5/socks5_c-master/rc4.c:87-100 | the one-byte state step has an explicit two-sided inverse |
| CipherRc4.NeverMerge | Python/socks5/socks5_c-master/rc4.c:87-100 | distinct states never merge |
| CipherRc4.InitialExactly | Python/socks5/socks5_c-master/rc4.c:55-72 | the table a key starts with is the one, and the only one, at the end of 256 steps from the identity in which the index moves by table entry and key byte modulo 256 and two entries change places |
| CipherRc4.RoundExactly | Python/socks5/socks5_c-master/rc4.c:89-98 | a state follows another by a round if and only if the first index moves by one, the second by the entry there, modulo 256, and just these two entries change places |
| CipherRc4.KeyByteAt | Python/socks5/socks5_c-master/rc4.c:97-99 | the key byte stands where the sum of the two entries modulo 256 points |
| CipherRc4.Rc4State.Init | Python/socks5/socks5_c-master/rc4.c:55-72 | key scheduling in place ends at the table of such 256 steps, with both indices 0 |
| CipherRc4.Rc4State.Round | Python/socks5/socks5_c-master/rc4.c:89-98 | one round in place makes such a step and returns such a key byte |
| CipherBytes.XorAt | Python/socks5/socks5_c-master/xor.c:8-9 | a binary digit of the exclusive or is set where exactly one of the two bytes has it set |
| CipherEncryptor.XorKeystream | Python/socks5/socks5_c-master/xor.c:3-12 | the i-th byte of a call meets the key byte at its place from the position on, round the key |
| CipherEncryptor.Rc4Keystream | Python/socks5/socks5_c-master/rc4.c:80-101 | the i-th byte of a call meets the key byte after the i-th further round |
| CipherStream.ChunkedRoundTrip | Python/socks5/socks5_c-master/encrypt.c:34-84 | however sender and receiver cut the stream into calls, the receiver recovers the plaintext, for both ciphers |
| CipherStream.CallsAreOneCall | Python/socks5/socks5_c-master/encrypt.c:34-84 | the bytes do not depend on how the stream is cut into calls |
| CipherStream.CryptTwice | Python/socks5/socks5_c-master/xor.c:3-18 | the same keystream applied twice is the identity |
| CipherEncryptor.XorCrypt | Python/socks5/socks5_c-master/xor.c:3-12 | the in-place loop with its modular position computes the keystream encryption and the advanced position |
| CipherEncryptor.Rc4Crypt | Python/socks5/socks5_c-master/rc4.c:80-101 | the loop computes the keystream encryption and the advanced state, also when the buffers are the same |
| CipherEncryptor.Encryptor.Encrypt | Python/socks5/socks5_c-master/encrypt.c:34-58 | encryption advances the encrypt state only, with separate or identical buffers |
| CipherEncryptor.Encryptor.Decrypt | Python/socks5/socks5_c-master/encrypt.c:60-84 | decryption advances the decrypt state only, with separate or identical buffers |
| CipherEncryptor.Encryptor.constructor | Python/socks5/socks5_c-master/encrypt.c:4-27 | both directions start at the beginning of the key's stream |
| CipherEncryptor.Encryptor.EncrySend | Python/socks5/socks5_c-master/socks.c:56-61 | sending encrypts with the decrypt state and advances it |
| CipherEncryptor.Encryptor.DecryRecv | Python/socks5/socks5_c-master/socks.c:39-48 | receiving decrypts with the same state and advances it, and does nothing on an error |
| CipherTransfer.Transfer | Python/socks5/socks5_c-master/encrypt.c:34-84 | with two encryptor objects, chunks encrypted call by call, cut anew in any way and decrypted call by call give the plaintext, with equal or separate buffers at either end |
| CipherEnds.Converse | Python/socks5/socks5_c-master/socks.c:39-61 | two encryptor objects driven through sends and receives in any possible run, with a queue for each direction, follow the run of the link, so that delivery is decided as below |
| CipherLink.DeliveredExactly | Python/socks5/socks5_c-master/socks.c:39-61 | in every run of the link, with complete or partial sends and in any order, an end has received what went out at the other if and only if the key bytes at the positions of sender and receiver agree at every byte |
| CipherLink.ByteDelivered | Python/socks5/socks5_c-master/socks.c:39-61 | the same for one byte |
| CipherLink.AlwaysDeliveredExactly | Python/socks5/socks5_c-master/socks.c:39-61 | a run is delivered under every cipher and key if and only if every byte is received at the position where it was encrypted, which the lengths of the run decide |
| CipherLink.RunSends | Python/socks5/socks5_c-master/socks.c:56-61 | what went out each way is exactly what the run's sends handed to the kernel, in order |
| CipherLink.RunTakes | Python/socks5/socks5_c-master/socks.c:39-48 | as many bytes have been received each way as the run's receives took |
| CipherLink.RunAdvances | Python/socks5/socks5_c-master/socks.c:39-61 | the state of an end has advanced by every byte it encrypted or decrypted, taken by the kernel or not |
| CipherLink.TurnsInvariant | Python/socks5/socks5_c-master/socks.c:39-61 | with complete sends and turn taking the receiver's state advanced by the bytes on the wire is the sender's state throughout |
| CipherLink.TurnsDeliver | Python/socks5/socks5_c-master/socks.c:39-61 | so each end has received a prefix of the plaintext, and all of it once the wire is empty |
| CipherLink.CrossingExactly | Python/socks5/socks5_c-master/socks.c:56-61 | when both ends send at once the plaintext arrives if and only if the keystream repeats itself at the distance of the own message |
| CipherLink.CrossingGarbles | Python/socks5/socks5_c-master/socks.c:56-61 | a concrete pair of crossing bytes that arrives garbled |
| CipherLink.PartialSendGarbles | Python/socks5/socks5_c-master/socks.c:56-61 | a concrete partial send after which the next byte arrives garbled |
| RingTheorems.RingOutcome | go_test/channel/channel.go:14-48 | every interleaving is finite, and ends with all goroutines gone if and only if the number of blocks is a multiple of 3, otherwise with one blocked on a send to an exited peer; the numbers printed are the same |
| RingTheorems.RingEnds | go_test/channel/channel.go:14-48 | for every positive step there is a least number of blocks that reaches finish, so the outcome above is that of every interleaving of every such ring |
| RingTheorems.StepProgress | go_test/channel/channel.go:14-28 | every step of every reachable state keeps the shape of the ring and reduces the work left |
| RingTheorems.StuckShape | go_test/channel/channel.go:14-28 | the only states in which no goroutine can move |
| RingTheorems.FarewellsExactly | go_test/channel/channel.go:17-28 | in every interleaving a goroutine says once that it is finished, and only when it goes |
| RingTheorems.PrintedValues | go_test/channel/channel.go:22-25 | the blocks print 1, 2, 3 and so on, each once and in order |
| RingTheorems.PrintsToFinish | go_test/channel/channel.go:14-28 | exactly the numbers 1 to finish are printed if and only if finish is a multiple of a step of at least 2 |
| RingTheorems.ThreeStepMultiple | go_test/channel/channel.go:14-48 | for a finish that is a multiple of three steps of at least 2 every interleaving ends well with 1 to finish printed |
| RingTheorems.StepOneFallsShort | go_test/channel/channel.go:14-28 | with a step of 1 every interleaving of such a ring ends with the second goroutine blocked for ever and finish never printed |
| Tracker.LatencyTracker.Query | C/p99/tracker.c:77-92 | a query answers with the order statistic, of everything inserted, at the position nearest to the quantile of the way from the first to the last, a half rounded up, whatever came before |
| Tracker.LatencyTracker.Insert | C/p99/tracker.c:54-67 | an insertion adds its value, growing the array without losing any |
| Tracker.IndexNearest | C/p99/tracker.c:90 | the computed index is that nearest position |
| Tracker.AnswersAgree | C/p99/tracker.c:77-92 | answers depend on the multiset of values and the quantile alone and are monotone in the quantile |
| Tracker.OrderStatisticUnique | C/p99/tracker.c:83-91 | the order statistic is unique and does not depend on the order of insertion |
| Tracker3.CountersFromInput | C/p99/tracker3.c:108-122 | the counter to the left starts at m when the window has just filled and grows by one exactly when the sample is below the middle of the window; the other counter is the rest |
| Tracker3.TargetRankIs | C/p99/tracker3.c:124 | the target is the whole part of the quantile times the number of samples |
| Tracker3.Filling | C/p99/tracker3.c:100-107 | until it is full the window holds the samples in order and nothing is counted |
| Tracker3.ObservedClosedForm | C/p99/tracker3.c:108-138 | by that count of the sample and the target, a sample replaces the largest or the smallest of the sorted window, and the new estimate is the sample clamped between the old middle and its neighbour |
| Tracker3.TrackAfterOk | C/p99/tracker3.c:91-139 | over every run the window is sorted, the estimate is its middle, and left and right counts and 1 add up to the number of samples |
| Tracker3.LatencyTracker.Insert | C/p99/tracker3.c:91-142 | after any insertions every track of the object is the specified track of all samples so far, with its invariant |
| Tracker3.LatencyTracker.Observe | C/p99/tracker3.c:100-138 | the per-track code with its shifting loops computes the specified update |
| Fsm.DualExactly | C/FSM/src/cfio3_FSM.cpp:39-153 | client and server are dual after every nonempty prefix of a stream if and only if it starts with a begin message or exit |
| Fsm.ServerFirst | C/FSM/src/cfio3_FSM.cpp:117-124 | the first message takes the server out of its initial state: exit finishes it, any other message makes it wait |
| Fsm.StandsExactly | C/FSM/src/cfio3_FSM.cpp:117-153 | a waiting server is finished after a complete session, waits after pairs of begin and end messages, works after pairs and a begin message, and is in error after anything else |
| Fsm.FinishesExactly | C/FSM/src/cfio3_FSM.cpp:117-153 | a waiting server finishes exactly on streams that begin with a complete session |
| Fsm.ClientFinishesExactly | C/FSM/src/cfio3_FSM.cpp:39-76 | the client finishes on the same streams |
| Fsm.Machine.ClientInput | C/FSM/src/cfio3_FSM.cpp:39-76 | the client's input function computes the specified transition through its helpers |
| Fsm.Machine.ServerInput | C/FSM/src/cfio3_FSM.cpp:117-153 | the server's input function computes the specified transition through its helpers |
| PathCheck.CheckPathExact | nghttp2_test/server/main.c:528-533 | the substring and suffix tests accept exactly the paths that start with a slash, hold no backslash and have no segment of one or two dots |
| PathCheck.SplitJoins | nghttp2_test/server/main.c:528-533 | the split of a path cuts at every slash and loses nothing |
| PathCheck.TestsFindSegment | nghttp2_test/server/main.c:348-355 | a segment occurs in the split if and only if it is found between slashes or as a suffix behind one |

## Left out

- UrlParser.ParseUrl: takes at most 65535 bytes, because offsets and lengths are 16 bits wide; how a longer buffer wraps is not modelled.
- UrlRequest.CreateStreamData: takes an accepted absolute URL only, because for a relative one the source reads a host run that the parser never set.
- ProxyServer.Server.IoHandle: the bytes of a SOCKS request are not modelled, the outcome of reading and answering it is one answer of the environment.
- ProxyServer.Server.Loop: runs for as many turns as the environment gives answers, the source loops for ever; new descriptors are below the 10240 entries of the array of saved contexts, while `select` itself stops at 1024.
- CipherEncryptor.Encryptor.constructor: takes a nonempty key, because the source divides by its length; the copy of the encryptor for each connection is a value copy, although the source copies a fixed size and so cuts off very long XOR keys.
- Tracker.LatencyTracker.Query: quantiles are reals between 0 and 1 and counts are unbounded, so rounding of doubles and overflow are not modelled.
- Tracker3.ObservedClosedForm: starts from zeroed memory, because a second initialisation does not reset the candidate counter.
- OpenSSL, libevent, nghttp2 sessions, TLS set-up, sockets, DNS and command-line options: foreign calls without visible semantics.
- Allocation failure and the layout of structures in C.
- The debug messages and message texts of the protocol machines, and the master machine, which moves from wait to work on any message and never enters its error state.
- Percent decoding in the HTTP/2 server, whose two-byte tail copy is only right when the scan stops exactly two bytes before the end.
- The second tracker, the MPI, Flask, Django, gRPC, Redis and shell examples, and the small Go programs besides the ring: input and output, library wrappers or fixed tiny programs.
