# Verification of PJLIB-UTIL

Dafny models of the hard code of PJLIB-UTIL (`pjsip/pjlib-util/src/pjlib-util/`), the C library that PhoneStreamer
bundles, with machine-checked proofs. `dafny verify dfyconfig.toml` checks everything.

What the C code changes step by step is modelled by methods and classes with the same loops, branches, constants and
error cases. Each is proved equal to a specification function, and the main results are lemmas about those functions,
or about every run of the state machine that the methods implement.

A specification function that a method and the lemmas share could be wrong with both. So each is tied to a statement that
does not use it: the bytes of a DNS message (`DnsWire`), what every caller is told and asked for (`ResolverOutcomes`,
`ResolverQuestions`), the age of every single answer (`ResolverFreshness`), JSON texts and command lines as their writers
mean them (`JsonSyntax`, `GetOptRender`), the value of every digit (`Hex`), the fields of the SRV records
(`SrvOrder.AcceptedAre`), the decision of a Telnet request (`TelnetSystem.RequestIsDecided`), and the published digests
and check value (`Sha1Example`, `Md5Example`, `CrcBits.CheckValue`).

| files | subject |
|---|---|
| `Dns*.dfy`, `Bytes.dfy` | message printer with name compression, recursive parser, query builder, packet duplication |
| `Resolver*.dfy`, `NameServers.dfy`, `AResponse.dfy`, `SrvOrder.dfy` | asynchronous caching resolver, server selection, CNAME chains, SRV ordering |
| `Json*.dfy`, `Hex.dfy` | JSON writer, scanner and parser |
| `GetOpt*.dfy` | option parsing that permutes argv |
| `Hashing.dfy`, `Sha1*.dfy`, `Md5*.dfy`, `Hmac*.dfy` | streaming hashes and HMAC |
| `Crc*.dfy` | CRC-32 by table and bit by bit |
| `Telnet*.dfy` | option negotiation |
| `Base64.dfy`, `PercentEscape.dfy`, `CharSet*.dfy` | encodings and character sets |

## How the model reads the code

- A packet lies in a total memory from number to byte, since the parser reads a byte before it tests for the end.
  `DnsGrammar` says what is read there; nothing is assumed of the bytes past the end.
- `print_name` compares stored labels, length bytes included, with the dotted name. So the round trip does not hold for
  all names, and `DnsReadable` has the exact condition and its failing family; `Clash` in `DnsFormat` is the confusion of
  two names. Table entries must lie within the 14 bits of a pointer, as in every packet of at most 16384 bytes
  (`DnsReadable.SmallIsInReach`), records are of class IN, as the parser demands of the types it knows, and their data
  must not outgrow the 16-bit length. Names contain no zero byte.
- The printer lowers its size by the name but not by the four bytes of a query, and `pj_dns_make_query` does not count
  the leading length byte and the final zero. The methods keep both, take a buffer with that much slack, and
  `DnsRoom.RoomAccount` and `DnsQuery.SizeCheckIsShort` say exactly how far the code goes beyond the stated size.
- The resolver is a state machine with one event for each stretch of code run under the mutex and one for each callback
  made without it; runs are arbitrary interleavings. Reading `q->cb` and calling it is one event, which stands
  for the read: the handlers test and call without the mutex, so a notifying cancel that falls in between counts as a
  late one, and the case that the second load of the pointer finds it cleared is not modelled. A timer expires under
  the mutex, as in `pj_dns_resolver_handle_events`. A transaction id is not reused while it is pending, settings do not
  change, and a caller uses a query handle only until the query is recycled, and asks a cancel to notify only of a
  query that has a callback. Calls made by cancels that come too late are recorded apart from the others. Hash tables
  are maps, lists are sequences, and the current time, random draws and the success of sending are inputs.
- A chain of 20 or more CNAME records is rejected; the alias is the first target that is not empty.
- JSON text ends with a zero byte, and a character is a byte. Numbers are exact (C floats round), and `long` has 64
  bits. Syntax errors and error returns of the parser are both a failure.
- A JSON text has no exponents in its numbers, which the code does not read either.
- `GetOpt` has no long options (so no `W;` in the option string), the option string does not begin with `-` or `+`
  (which leave PERMUTE mode), and strings contain no zero byte.
- The schedule of SHA-1 is that of a little-endian machine, and `size_t` has 64 bits. Shifts of the bit count by 3 and
  29 are written as division.
- CRC-32 is modelled with both tables of constants, on machines of both byte orders, with the address of the data as an
  input.
- Telnet requests may come at any time and in any number; channels neither lose nor reorder commands.

## Model

| member | source | states |
|---|---|---|
| DnsReadable.RoundTripIff | pjsip/pjlib-util/src/pjlib-util/dns_server.c:214-436 | Main result. For every set of names: parsing gives back every printed message over them (same header, queries and records of every section, up to rdlength, compressed or not, whatever follows in memory) if and only if their labels have 1 to 191 bytes and no name clashes with another, that is, equals it with every dot replaced by the length of the next label. Records are of class IN with data below 64 KB, and names in the table lie within reach of a pointer |
| DnsRoundTrip.PrintThenParse | pjsip/pjlib-util/src/pjlib-util/dns_server.c:358-436 | The direction from the names to the messages: every printed message over such names parses back |
| DnsReadable.UnlabelledFails | pjsip/pjlib-util/src/pjlib-util/dns_server.c:241-272 | A question for a name with an empty label, a dot at its end or a label of more than 191 bytes never reads back |
| DnsReadable.ClashFails | pjsip/pjlib-util/src/pjlib-util/dns_server.c:223-231 | The message that asks for one name and then for one that clashes with it is read as asking for the first one twice |
| DnsReadable.LegalNamesClash | pjsip/pjlib-util/src/pjlib-util/dns_server.c:223-231 | The failing family among legal host names: "x." and "x-" before the same label of 45 bytes |
| DnsReadable.HostNamesReadable | pjsip/pjlib-util/src/pjlib-util/dns_server.c:223-231 | Names of bytes from 45 on in labels of at most 44 bytes meet the condition, all together |
| DnsReadable.UnlabelledMisread | pjsip/pjlib-util/src/pjlib-util/dns.c:118-244 | Wherever such a name is spelt out, and from any depth of recursion, the parser does not read it back |
| DnsReadable.SmallIsInReach | pjsip/pjlib-util/src/pjlib-util/dns_server.c:531-540 | In a buffer of at most 16384 bytes, queries counted in, every name is within reach of a pointer; the server has 1500 bytes and one query |
| DnsRoundTrip.PrintedRrReads | pjsip/pjlib-util/src/pjlib-util/dns_server.c:275-356 | A printed record, wherever it lies, is parsed back to the same owner, type, TTL and data, and the parser stops where the printer stopped |
| DnsRoundTrip.PrintedQueryReads | pjsip/pjlib-util/src/pjlib-util/dns_server.c:382-403 | The same for a printed query |
| DnsRoundTrip.PrintedNameReads | pjsip/pjlib-util/src/pjlib-util/dns_server.c:214-273 | A printed name, spelt out or a pointer, is measured and copied back exactly, from the first level of recursion |
| DnsRoundTrip.HitIsTheName | pjsip/pjlib-util/src/pjlib-util/dns_server.c:223-231 | Among names that do not clash, a hit of the raw comparison in the label table is always a spot where that very name is spelt out |
| DnsRoundTrip.PrintedNameKeepsTable | pjsip/pjlib-util/src/pjlib-util/dns_server.c:229-239 | After a name is printed every table entry still points to a spelt-out name of its length |
| DnsRoundTrip.EncodedNameReads | pjsip/pjlib-util/src/pjlib-util/dns.c:118-244 | At any recursion depth a spelt-out name is measured with its dotted length and copied back label by label |
| DnsFormat.RawCompareSound | pjsip/pjlib-util/src/pjlib-util/dns_server.c:223-231 | Two names of bytes from 45 on in labels of at most 44 bytes, equally long, whose stored bytes after the length byte read like the dotted form are equal |
| DnsGrammar.TwoPassesAgree | pjsip/pjlib-util/src/pjlib-util/dns.c:118-244 | For every memory the measuring and the copying pass give the same status, and on success a name of exactly the measured length |
| DnsGrammar.CopyFits | pjsip/pjlib-util/src/pjlib-util/dns.c:118-244 | When the measuring pass succeeds, which is the only case in which the code copies, the copy writes exactly the measured length |
| DnsWire.MessageParsed | pjsip/pjlib-util/src/pjlib-util/dns.c:431-540 | Main result. Every message that RFC 1035, section 4.1 lays out byte by byte, with names made of any mixture of labels and up to ten pointers in a row and records of any type, is parsed as exactly that message |
| DnsWire.RecordParsed | pjsip/pjlib-util/src/pjlib-util/dns.c:289-425 | One such record: owner, type, class, TTL, length and data, IPv6 addresses and unknown types included, and the parser stops exactly where it ends |
| DnsWire.RecordRefused | pjsip/pjlib-util/src/pjlib-util/dns.c:315-351 | Behind a good name a record is refused for its class exactly if its type is known and the class is not IN, and for its size exactly if a fixed field or the data runs over the end |
| DnsWire.WireNameReads | pjsip/pjlib-util/src/pjlib-util/dns.c:118-244 | Labels and pointers that spell a name are measured and copied as that name, as long as recursion and pointers together stay within the limit |
| DnsParser.GetNameLen | pjsip/pjlib-util/src/pjlib-util/dns.c:118-182 | The loop and its recursion compute the measured size or the error of the grammar, and end on pointer cycles |
| DnsParser.GetName | pjsip/pjlib-util/src/pjlib-util/dns.c:188-244 | The loop appends exactly the bytes of the grammar to a buffer that the measuring pass sized, and never beyond it |
| DnsParser.ReadName | pjsip/pjlib-util/src/pjlib-util/dns.c:256-268 | Both passes: the name at a position, in a buffer of the measured length plus slack |
| DnsParser.ReadQuery | pjsip/pjlib-util/src/pjlib-util/dns.c:248-285 | Reads the query of the grammar, with its errors |
| DnsParser.ReadRData | pjsip/pjlib-util/src/pjlib-util/dns.c:353-421 | Reads the data of a record by type, with its errors |
| DnsParser.ReadRr | pjsip/pjlib-util/src/pjlib-util/dns.c:289-425 | Reads the record of the grammar: size checks in the order of the code, class checked for known types only |
| DnsParser.ReadQueries | pjsip/pjlib-util/src/pjlib-util/dns.c:464-480 | Reads a section of queries, stopping at the first error |
| DnsParser.ReadRrs | pjsip/pjlib-util/src/pjlib-util/dns.c:482-498 | Reads a section of records, stopping at the first error |
| DnsParser.ReadPacket | pjsip/pjlib-util/src/pjlib-util/dns.c:431-540 | The whole parser computes the packet of the grammar or its first error |
| DnsPrinter.FindLabel | pjsip/pjlib-util/src/pjlib-util/dns_server.c:223-227 | The look-up loop finds the first table entry whose raw bytes equal the dotted name |
| DnsPrinter.PrintLabels | pjsip/pjlib-util/src/pjlib-util/dns_server.c:241-272 | Spells a name out label by label within the room, or fails exactly when it does not fit |
| DnsPrinter.PrintName | pjsip/pjlib-util/src/pjlib-util/dns_server.c:214-273 | Writes a pointer or the labels, and enters the name in the table; when it succeeds every other byte of the buffer is as before |
| DnsPrinter.PrintRData | pjsip/pjlib-util/src/pjlib-util/dns_server.c:300-353 | Writes length and data of a record by type, the length filled in after the name |
| DnsPrinter.PrintRr | pjsip/pjlib-util/src/pjlib-util/dns_server.c:275-356 | Appends one record to the packet and the table, or fails |
| DnsPrinter.PrintQuery | pjsip/pjlib-util/src/pjlib-util/dns_server.c:385-402 | Appends one query; the four bytes of type and class are checked but not charged |
| DnsPrinter.PrintQueries | pjsip/pjlib-util/src/pjlib-util/dns_server.c:382-403 | The query loop appends all queries, or fails at the first that does not fit |
| DnsPrinter.PrintRrs | pjsip/pjlib-util/src/pjlib-util/dns_server.c:405-433 | The record loop of one section |
| DnsPrinter.PrintPacket | pjsip/pjlib-util/src/pjlib-util/dns_server.c:358-436 | The whole printer stores exactly the bytes of the specification, or fails when it does; when it succeeds no byte behind them has changed |
| DnsRoom.EnoughRoom | pjsip/pjlib-util/src/pjlib-util/dns_server.c:358-436 | A buffer that holds the uncompressed message is always enough |
| DnsRoom.RoomAccount | pjsip/pjlib-util/src/pjlib-util/dns_server.c:392-402 | The room left is the stated size less the bytes printed plus exactly four for every query, so a message overruns the stated size by at most four bytes a query |
| DnsQuery.MakeQuery | pjsip/pjlib-util/src/pjlib-util/dns.c:56-112 | Builds exactly the one-question packet, or refuses by the size check of the code |
| DnsQuery.SizeCheckIsShort | pjsip/pjlib-util/src/pjlib-util/dns.c:69-73 | The packet is one or two bytes longer than the smallest size the check accepts |
| DnsQuery.MakeThenParse | pjsip/pjlib-util/src/pjlib-util/dns.c:56-112 | A query built for a name of proper labels parses back to its id, type and name, as one question of class IN that asks for recursion |
| DnsDup.NameTable.Apply | pjsip/pjlib-util/src/pjlib-util/dns.c:547-577 | Gives a name equal to the source up to letter case, and remembers at most 16 names |
| DnsDup.SameTextIs | pjsip/pjlib-util/src/pjlib-util/dns.c:547-577 | Two names count as equal exactly when they differ at most by the case of the letters A to Z |
| DnsDup.CopyRr | pjsip/pjlib-util/src/pjlib-util/dns.c:589-617 | Copies a record up to the letter case of its owner and service host |
| DnsDup.PacketDup | pjsip/pjlib-util/src/pjlib-util/dns.c:622-699 | The duplicate has the sections kept by the options, with true counts, and the same records up to letter case |
| ResolverCalls.OnceIffTimely | pjsip/pjlib-util/src/pjlib-util/resolver.c:738-913 | Main result, over every interleaving, cancels at any time included: nobody is called back more than twice, and everybody at most once if and only if no notifying cancel of the run comes after the callback of the query it cancels |
| ResolverMachine.CalledAtMostOnce | pjsip/pjlib-util/src/pjlib-util/resolver.c:738-913 | Over every interleaving: apart from such late cancels an accepted query is called back at most once; until then, unless silently cancelled, it waits for its cache callback or is held by one node |
| ResolverCalls.LateCancelHappens | pjsip/pjlib-util/src/pjlib-util/resolver.c:896-913 | A run in which it happens: the first query is sent, answered and called back, and a notifying cancel comes before its handler takes the mutex again |
| ResolverCalls.LateCancelCallsTwice | pjsip/pjlib-util/src/pjlib-util/resolver.c:896-913 | In every state a notifying cancel calls the owner a second time exactly when the callback of the query was already made |
| ResolverCalls.LateOnlyIfLate | pjsip/pjlib-util/src/pjlib-util/resolver.c:896-913 | A run without late cancels makes no late call, and one with late cancels does |
| ResolverCalls.StepKeepsOwners | pjsip/pjlib-util/src/pjlib-util/resolver.c:738-1598 | Every event keeps: nobody is called late twice, nor late without having been called in time, and no two queries stand for one caller |
| ResolverMachine.TicketStatus | pjsip/pjlib-util/src/pjlib-util/resolver.c:1298-1548 | The same of any state with the invariant |
| ResolverMachine.IndexesAgree | pjsip/pjlib-util/src/pjlib-util/resolver.c:878-882 | Over every interleaving the by-id and by-key tables hold the same queries, each under its own id and key, and a query is sent 1 to max(1, qretr_count) times |
| ResolverMachine.OnePlaceEach | pjsip/pjlib-util/src/pjlib-util/resolver.c:846-882 | Every node is in exactly one of the tables, a child list, the free list or a handler's hands, as the structures themselves show |
| ResolverMachine.ChildrenAreFrozen | pjsip/pjlib-util/src/pjlib-util/resolver.c:1343-1360 | Once a query has left the tables no event changes its list of children, so the unlocked loop over it is safe |
| ResolverQuestions.AnswersTheQuestion | pjsip/pjlib-util/src/pjlib-util/resolver.c:846-882 | Main result, over every interleaving: whoever the handler of a query turns to, the first caller or one merged later, asked for the key of that very query |
| ResolverQuestions.HitsTheQuestion | pjsip/pjlib-util/src/pjlib-util/resolver.c:778-822 | The same for an answer from the cache: its caller asked for the key of the entry it is given |
| ResolverOutcomes.AnswerReachesAll | pjsip/pjlib-util/src/pjlib-util/resolver.c:1459-1523 | Main result, over every interleaving: when a response with a code arrives for a query, its owner and then every owner merged with it, in order, is told that code, whatever happens in between, unless its callback was cancelled |
| ResolverOutcomes.TimeoutReachesAll | pjsip/pjlib-util/src/pjlib-util/resolver.c:1298-1380 | The same for a query whose timer expires with no retransmission left or possible: all its owners are told that it timed out |
| ResolverOutcomes.ExpiryResends | pjsip/pjlib-util/src/pjlib-util/resolver.c:1326-1332 | With a retransmission left and possible nothing changes but the count of transmissions |
| ResolverOutcomes.HitTellsItsPacket | pjsip/pjlib-util/src/pjlib-util/resolver.c:794-812 | Over every interleaving the caller of a cache hit is told the code in the flags of the very packet it is given |
| ResolverOutcomes.CancelTells | pjsip/pjlib-util/src/pjlib-util/resolver.c:896-913 | A cancel that asks for the callback tells the owner that it was cancelled, a silent one tells nobody, and either clears the callback |
| ResolverOutcomes.OthersTellNobody | pjsip/pjlib-util/src/pjlib-util/resolver.c:738-1598 | No other event tells anybody anything |
| ResolverMachine.StepKeepsInv | pjsip/pjlib-util/src/pjlib-util/resolver.c:738-1598 | Every locked stretch and every unlocked callback keeps the invariant of queries, cache and readers |
| ResolverMachine.RunsKeepInv | pjsip/pjlib-util/src/pjlib-util/resolver.c:738-1598 | So does every interleaving of them |
| ResolverMachine.ReadersAreSafe | pjsip/pjlib-util/src/pjlib-util/resolver.c:802-820 | Over every interleaving each reference count is 1 if the entry is in the table plus the number of callers using it, is positive, and every reader's entry is live and still holds the packet the reader was given |
| ResolverMachine.CacheServesTheLast | pjsip/pjlib-util/src/pjlib-util/resolver.c:778-826 | Over every interleaving a fresh hit serves the last response stored under the key, with the same flags, queries and answers up to letter case, before the expiry that was computed for it (`ResolverFreshness` says when that is) |
| ResolverCacheProof.HitIsFresh | pjsip/pjlib-util/src/pjlib-util/resolver.c:1208-1292 | The same of one cache state, with the time to live of the code (smallest answer TTL, INVALID_TTL, cache_max_ttl) |
| ResolverFreshness.ServedInTime | pjsip/pjlib-util/src/pjlib-util/resolver.c:1208-1292 | Main result, over every interleaving: a response served from the cache is in time, that is, within cache_max_ttl, within the TTL of every single answer if it was successful and has some, and within 60 seconds otherwise |
| ResolverFreshness.StoredIsServed | pjsip/pjlib-util/src/pjlib-util/resolver.c:1208-1292 | Directly after it is stored a response is served if and only if it is in time and neither its least TTL nor the limit is zero |
| ResolverFreshness.AddedIsServed | pjsip/pjlib-util/src/pjlib-util/resolver.c:1279-1286 | A response added without expiry is served to the end of the 31-bit clock unless the limit is zero |
| ResolverFreshness.ExpiryDecides | pjsip/pjlib-util/src/pjlib-util/resolver.c:1209-1233 | The expiry computed from the TTLs separates exactly the times that are in time from the later ones |
| ResolverCacheProof.AcquireKeeps | pjsip/pjlib-util/src/pjlib-util/resolver.c:802-803 | Taking a reference before the unlock keeps counts, readers and history |
| ResolverCacheProof.ReleaseKeeps | pjsip/pjlib-util/src/pjlib-util/resolver.c:818-820 | A reader leaving frees its entry exactly when nobody else counts it |
| ResolverCacheProof.DropKeeps | pjsip/pjlib-util/src/pjlib-util/resolver.c:831-836 | Removing an entry from the table keeps every reader's packet |
| ResolverCacheProof.UpdateKeeps | pjsip/pjlib-util/src/pjlib-util/resolver.c:1187-1294 | Storing a response resets an entry only when nobody reads it |
| ResolverQueriesProof.MergeKeepsInv | pjsip/pjlib-util/src/pjlib-util/resolver.c:844-858 | A merged child always joins a query that is still in the tables |
| ResolverQueriesProof.BeginKeepsInv | pjsip/pjlib-util/src/pjlib-util/resolver.c:861-885 | A new query enters both tables under a key that was not pending |
| ResolverQueriesProof.RefuseKeepsInv | pjsip/pjlib-util/src/pjlib-util/resolver.c:872-876 | A query that cannot be sent returns its node to the free list |
| ResolverQueriesProof.DetachKeepsInv | pjsip/pjlib-util/src/pjlib-util/resolver.c:1480-1482 | Leaving both tables puts a query into its handler's hands alone |
| ResolverQueriesProof.ExpireKeepsInv | pjsip/pjlib-util/src/pjlib-util/resolver.c:1322-1345 | Retransmission or timeout, whichever the count allows |
| ResolverQueriesProof.CallBackKeepsInv | pjsip/pjlib-util/src/pjlib-util/resolver.c:1487-1503 | Each callback spends one ticket that is held nowhere else |
| ResolverQueriesProof.RecycleKeepsInv | pjsip/pjlib-util/src/pjlib-util/resolver.c:1511-1523 | When the nodes are recycled none of them holds a ticket |
| Resolver.InitResKey | pjsip/pjlib-util/src/pjlib-util/resolver.c:674-691 | The key is the type and the lower-case name, cut at the size of the key buffer |
| Resolver.KeyIgnoresCase | pjsip/pjlib-util/src/pjlib-util/resolver.c:674-691 | Two queries share a key exactly when type and name agree, letter case aside |
| Resolver.Resolver.AllocNode | pjsip/pjlib-util/src/pjlib-util/resolver.c:546-572 | Takes the head of the free list, or a new node |
| Resolver.Resolver.StartQuery | pjsip/pjlib-util/src/pjlib-util/resolver.c:738-890 | The code up to its first unlock is the start event of the machine: served, merged, sent or refused |
| Resolver.Resolver.ServeHit | pjsip/pjlib-util/src/pjlib-util/resolver.c:808-810 | The unlocked callback of a hit passes the packet that was acquired |
| Resolver.Resolver.LeaveHit | pjsip/pjlib-util/src/pjlib-util/resolver.c:813-820 | Gives the reference back, as the machine says |
| Resolver.Resolver.CancelQuery | pjsip/pjlib-util/src/pjlib-util/resolver.c:896-913 | Silences a query, with or without its callback, at any time up to its recycling |
| Resolver.Resolver.OnTimeout | pjsip/pjlib-util/src/pjlib-util/resolver.c:1298-1348 | The code of the timer up to its unlock is the expiry event |
| Resolver.Resolver.OnResponse | pjsip/pjlib-util/src/pjlib-util/resolver.c:1459-1485 | A response takes its query out of the tables, or is discarded |
| Resolver.Resolver.CallOwner | pjsip/pjlib-util/src/pjlib-util/resolver.c:1487-1503 | One turn of the callback loops |
| Resolver.Resolver.FinishTimeout | pjsip/pjlib-util/src/pjlib-util/resolver.c:1362-1380 | Recycles the children in order, then the query |
| Resolver.Resolver.UpdateCache | pjsip/pjlib-util/src/pjlib-util/resolver.c:1187-1294 | All branches of the cache update give the state of the specification |
| Resolver.Resolver.FinishAnswer | pjsip/pjlib-util/src/pjlib-util/resolver.c:1505-1523 | Caches the response, then recycles |
| Resolver.Resolver.AddEntry | pjsip/pjlib-util/src/pjlib-util/resolver.c:1556-1598 | A response offered by the application is stored like one received |
| NameServers.Servers.PickBest | pjsip/pjlib-util/src/pjlib-util/resolver.c:1087-1098 | Index of the first active server of least response time, or none |
| NameServers.Servers.Select | pjsip/pjlib-util/src/pjlib-util/resolver.c:1068-1125 | Distinct valid indexes: exactly the best server that was active before and every server on probation after; none only if every server ends bad |
| NameServers.BestIsUnique | pjsip/pjlib-util/src/pjlib-util/resolver.c:1087-1098 | There is only one such best server |
| NameServers.StateIsHeld | pjsip/pjlib-util/src/pjlib-util/resolver.c:1030-1046 | For exactly how many seconds each state is held: all retransmissions and two more for probing, the settings for good and bad servers |
| NameServers.AgedIs | pjsip/pjlib-util/src/pjlib-util/resolver.c:1105-1123 | A server whose time is over goes from probing to bad and from good or bad to probing; any other is untouched |
| AResponse.ParseAResponse | pjsip/pjlib-util/src/pjlib-util/resolver.c:919-1026 | Succeeds exactly when the chain of CNAME records from the queried name reaches an address in fewer than 20 steps and the names fit; then gives the first eight addresses of the name at its end, and the first target as alias |
| AResponse.Follow | pjsip/pjlib-util/src/pjlib-util/resolver.c:971-993 | The loop walks the chain, and gives up exactly at the 20th step |
| AResponse.CollectAddresses | pjsip/pjlib-util/src/pjlib-util/resolver.c:1011-1021 | The first eight addresses owned by the name, in order |
| AResponse.CycleNeverEnds | pjsip/pjlib-util/src/pjlib-util/resolver.c:971-990 | A chain that comes back to a name, letter case aside, goes on for ever |
| AResponse.CyclesAreRejected | pjsip/pjlib-util/src/pjlib-util/resolver.c:992-996 | So no chain through a cycle ends at an address, and parsing fails |
| AResponse.EndIsUnique | pjsip/pjlib-util/src/pjlib-util/resolver.c:971-996 | A chain has at most one end |
| SrvOrder.Job.BuildServerEntries | pjsip/pjlib-util/src/pjlib-util/srv_resolver.c:202-315 | For every sequence of draws the array is a permutation of the accepted answers, sorted by priority |
| SrvOrder.Job.Save | pjsip/pjlib-util/src/pjlib-util/srv_resolver.c:207-236 | Takes the first eight acceptable answers in order |
| SrvOrder.AcceptedAre | pjsip/pjlib-util/src/pjlib-util/srv_resolver.c:207-236 | The targets are the first usable answers, in order and none left out, each with the priority, weight, port and host of its own record |
| SrvOrder.Job.SortByPriority | pjsip/pjlib-util/src/pjlib-util/srv_resolver.c:244-254 | The first pass in place is the selection sort of the specification |
| SrvOrder.ByPrioritySorts | pjsip/pjlib-util/src/pjlib-util/srv_resolver.c:244-254 | That sort permutes and sorts |
| SrvOrder.Job.RunningSums | pjsip/pjlib-util/src/pjlib-util/srv_resolver.c:265-273 | The group is exactly the run of equal priority, with the running sum of weights stored in each entry |
| SrvOrder.Job.FindWinner | pjsip/pjlib-util/src/pjlib-util/srv_resolver.c:283-289 | The first entry of the group whose running sum reaches the draw |
| SrvOrder.SomebodyWins | pjsip/pjlib-util/src/pjlib-util/srv_resolver.c:281-292 | There always is one, so the assertion never fails |
| SrvOrder.Winner | pjsip/pjlib-util/src/pjlib-util/srv_resolver.c:283-289 | Its running sum reaches the draw and no earlier one does |
| SrvOrder.ElectedPermutes | pjsip/pjlib-util/src/pjlib-util/srv_resolver.c:256-308 | Elections permute sorted targets and keep them sorted, for every draws |
| SrvOrder.Job.ElectAll | pjsip/pjlib-util/src/pjlib-util/srv_resolver.c:262-308 | The second pass in place is the repeated election of the specification |
| JsonRoundTrip.WriteThenParse | pjsip/pjlib-util/src/pjlib-util/json.c:407-602 | Main result. Any object or array whose names, and strings without a name, are plain, with integral numbers, any bytes in named strings and names nested to any depth the indent buffer allows, is parsed back exactly from its text |
| JsonRoundTrip.ValueIsRead | pjsip/pjlib-util/src/pjlib-util/json.c:201-290 | The text of a value, followed by anything that can follow, is read as that value and no further |
| JsonRoundTrip.JoinedIsRead | pjsip/pjlib-util/src/pjlib-util/json.c:101-126 | A list of children with its separators is read back child by child up to its closing bracket |
| JsonRoundTrip.UnescapeUndoesEscape | pjsip/pjlib-util/src/pjlib-util/json.c:128-199 | Removing the escapes gives back any bytes that were escaped |
| JsonRoundTrip.QuoteIsFound | pjsip/pjlib-util/src/pjlib-util/scanner.c:375-405 | The scan for the closing quote stops exactly at the end of escaped text |
| JsonRoundTrip.NumberIsRead | pjsip/pjlib-util/src/pjlib-util/json.c:230-246 | An integral number is read back from its decimal text, negative ones included |
| JsonRoundTrip.WritableToDepth33 | pjsip/pjlib-util/src/pjlib-util/json.c:507-511 | The blanks of the indent buffer last exactly for 33 levels of named children |
| JsonLimits.StringReadsBackIffPlain | pjsip/pjlib-util/src/pjlib-util/json.c:210-228 | A string without a name reads back if and only if it is not empty, has no leading blank and nothing to escape |
| JsonLimits.NameReadsBackIffPlain | pjsip/pjlib-util/src/pjlib-util/json.c:210-222 | The same of a name that is written |
| JsonSyntax.TextIsRead | pjsip/pjlib-util/src/pjlib-util/json.c:101-290 | Main result. Whoever wrote it, every text of an object or array is read as the tree it stands for, to its end: with any white space, decimal numbers with or without fraction, and values of names with escapes of both kinds and digits of either case. Names, and strings without one, are verbatim, as the code takes them |
| JsonSyntax.SpellingIsRead | pjsip/pjlib-util/src/pjlib-util/json.c:146-198 | Characters spelled in any way, verbatim, by one letter or by four hexadecimal digits, are read as those characters |
| JsonSyntax.SpellingEnds | pjsip/pjlib-util/src/pjlib-util/scanner.c:375-412 | The quote behind a spelled text is the one that is taken for its end |
| JsonSyntax.NumIsRead | pjsip/pjlib-util/src/pjlib-util/json.c:230-246 | A decimal number, with or without a fraction, is read as its exact value |
| JsonScanner.Scanner.SkipWhitespace | pjsip/pjlib-util/src/pjlib-util/scanner.c:138-191 | Skips exactly the blanks and new lines in front |
| JsonScanner.Scanner.NextChar | pjsip/pjlib-util/src/pjlib-util/scanner.c:442-457 | Takes one character and the blanks after it, or fails at the zero byte |
| JsonScanner.Scanner.UntilChar | pjsip/pjlib-util/src/pjlib-util/scanner.c:521-542 | Takes the text up to a character or the end |
| JsonScanner.Scanner.Numeral | pjsip/pjlib-util/src/pjlib-util/scanner.c:257-285 | Takes the longest run of number characters |
| JsonScanner.Scanner.FindQuote | pjsip/pjlib-util/src/pjlib-util/scanner.c:375-412 | Counting backslashes backwards at each quote finds the same end as one pass that tracks escapes |
| JsonScanner.Scanner.EscapedAt | pjsip/pjlib-util/src/pjlib-util/scanner.c:383-396 | The parity of the backslashes before a quote |
| JsonParser.RemoveEscapes | pjsip/pjlib-util/src/pjlib-util/json.c:146-198 | The loop gives the unescaped text within the token's length, or a non-zero index exactly when an escape is bad |
| JsonParser.ReadElem | pjsip/pjlib-util/src/pjlib-util/json.c:201-290 | The recursive parser computes the grammar, with its failures |
| JsonParser.ReadChildren | pjsip/pjlib-util/src/pjlib-util/json.c:101-126 | The child loop computes the grammar: commas are skipped wherever they stand |
| JsonParser.ParseBuffer | pjsip/pjlib-util/src/pjlib-util/json.c:298-342 | The root and the size left over |
| JsonWriter.FillChunk | pjsip/pjlib-util/src/pjlib-util/json.c:417-472 | A chunk of 64 bytes takes at least one character and holds exactly the escaped text |
| JsonWriter.Writer.WriteStringEscaped | pjsip/pjlib-util/src/pjlib-util/json.c:407-479 | All chunks together are exactly the escaped string; it fails exactly when they do not fit |
| JsonWriter.Writer.WriteElem | pjsip/pjlib-util/src/pjlib-util/json.c:535-602 | Writes exactly the text of an element, or fails exactly when it does not fit |
| JsonWriter.Writer.WriteJoined | pjsip/pjlib-util/src/pjlib-util/json.c:496-523 | Both loops over children, with separators between and after |
| JsonWriter.WriteBuffer | pjsip/pjlib-util/src/pjlib-util/json.c:350-383 | Succeeds if and only if the text and two more bytes fit the buffer; then the buffer holds the text and a zero byte |
| GetOpt.Run | pjsip/pjlib-util/src/pjlib-util/getopt.c:353-449 | Main result, in PERMUTE mode. Calling until -1 gives the events of a plain scan from left to right, and leaves argv[1..optind) as the elements options used up and argv[optind..) as the others |
| GetOptRender.CommandLineIsScanned | pjsip/pjlib-util/src/pjlib-util/getopt.c:353-729 | Main result. That scan finds the options and arguments the command line was written from: clustered letters, arguments attached and separate, optional ones present and absent, unknown letters, a missing argument and "--", with other elements in between |
| GetOptRender.KindIsDeclared | pjsip/pjlib-util/src/pjlib-util/getopt.c:568-729 | No colon, one or two after the first place of a letter in the option string mean no argument, a required one or an optional one |
| GetOpt.ScanInterleaves | pjsip/pjlib-util/src/pjlib-util/getopt.c:353-449 | Those two parts are an interleaving of the original arguments, each in its original order |
| GetOpt.ScanPermutes | pjsip/pjlib-util/src/pjlib-util/getopt.c:353-449 | So argv stays a permutation |
| GetOpt.Exchange | pjsip/pjlib-util/src/pjlib-util/getopt.c:201-250 | The in-place exchange ends and is exactly the rotation of two adjacent blocks |
| GetOpt.ShortBelow | pjsip/pjlib-util/src/pjlib-util/getopt.c:216-232 | Swapping the shorter lower block to the top leaves a smaller rotation with the same result |
| GetOpt.ShortAbove | pjsip/pjlib-util/src/pjlib-util/getopt.c:233-249 | The same for the shorter upper block |
| GetOpt.SwapBlocks | pjsip/pjlib-util/src/pjlib-util/getopt.c:223-229 | The swap loops exchange two blocks and nothing else |
| GetOpt.Parser.GetOpt | pjsip/pjlib-util/src/pjlib-util/getopt.c:353-449 | One call returns the first event ahead, with its argument, and changes nothing else of the whole run; at -1 argv and optind are final |
| GetOpt.Parser.SkipOthers | pjsip/pjlib-util/src/pjlib-util/getopt.c:385-401 | Options move in front of the others skipped before, and the next others are skipped |
| GetOpt.Parser.SkipMarker | pjsip/pjlib-util/src/pjlib-util/getopt.c:403-419 | "--" counts as used up and everything after it as not an option |
| GetOpt.Parser.NextLetter | pjsip/pjlib-util/src/pjlib-util/getopt.c:568-729 | One option letter: its kind, its argument from the same or the next element, and the error cases |
| Sha1.HashParts | pjsip/pjlib-util/src/pjlib-util/sha1.c:206-228 | Main result. However a message is cut into calls below 2^29 bytes, the digest is that of RFC 3174 for the whole message |
| Sha1Example.AbcDigest | pjsip/pjlib-util/src/pjlib-util-test/encryption.c:36-45 | The digest of "abc" is the one of FIPS 180-1, computed through all 80 words and rounds |
| Sha1Example.StartingBytes | pjsip/pjlib-util/src/pjlib-util/sha1.c:193-204 | The five starting words, low byte first, are 01 23 45 67 and so on up, down again, and one more |
| Sha1.Context.Update | pjsip/pjlib-util/src/pjlib-util/sha1.c:206-228 | Extends the absorbed message by the data, whatever its length, though the transform overwrites the buffer |
| Sha1.Context.Final | pjsip/pjlib-util/src/pjlib-util/sha1.c:232-262 | The digest of the padded message; state, count and buffer of the context are zeroed |
| Sha1.HighIsRightIff | pjsip/pjlib-util/src/pjlib-util/sha1.c:211-214 | The high word of the bit count is right exactly for data below 2^29 bytes, or below 2^32 bytes when the low word overflows by itself |
| Sha1Block.Transform | pjsip/pjlib-util/src/pjlib-util/sha1.c:134-189 | The schedule in 16 words over the block gives the 80-word compression of RFC 3174, section 6.1 |
| Sha1Block.NextWord | pjsip/pjlib-util/src/pjlib-util/sha1.c:122-123 | The rotating 16-word window always holds the last 16 words of the schedule |
| Sha1Block.StepIsRound | pjsip/pjlib-util/src/pjlib-util/sha1.c:125-130 | The macros are the rounds of RFC 3174, with its logical functions |
| Hashing.FoldAppends | pjsip/pjlib-util/src/pjlib-util/sha1.c:206-228 | Folding whole blocks first and the rest later is folding all |
| Md5Block.Transform | pjsip/pjlib-util/src/pjlib-util/md5.c:182-264 | The 64 unrolled steps over four variables are the four rounds of RFC 1321, section 3.4 |
| Md5Block.LineIsOp | pjsip/pjlib-util/src/pjlib-util/md5.c:168-175 | The macro step with its optimized functions is the operation of RFC 1321 |
| Md5Block.FourLines | pjsip/pjlib-util/src/pjlib-util/md5.c:182-264 | Four lines with their exchanged variables are four operations, after which each variable has its role again |
| Md5Block.SecondBits | pjsip/pjlib-util/src/pjlib-util/md5.c:169 | F2, by way of F1, is the function G |
| Md5.Context.Update | pjsip/pjlib-util/src/pjlib-util/md5.c:73-116 | Extends the absorbed message by data of any 32-bit length |
| Md5.Context.Final | pjsip/pjlib-util/src/pjlib-util/md5.c:122-161 | The digest of the padded message, whether the padding takes one block or two |
| Md5.HighIsRight | pjsip/pjlib-util/src/pjlib-util/md5.c:80-83 | The carry test and the shift keep the two words at 8 times the length modulo 2^64 |
| Md5Example.AbcDigest | pjsip/pjlib-util/src/pjlib-util/md5.c:182-264 | The digest of "abc" is the one in the test suite of RFC 1321, computed through all 64 steps |
| Md5Example.StartingBytes | pjsip/pjlib-util/src/pjlib-util/md5.c:58-67 | The four starting words, low byte first, are the bytes of RFC 1321, section 3.3 |
| HmacSha1.MacParts | pjsip/pjlib-util/src/pjlib-util/hmac_sha1.c:24-83 | Main result. Keyed once and fed in parts, the result is the HMAC of RFC 2104 of the whole text |
| HmacSha1.Context.Init | pjsip/pjlib-util/src/pjlib-util/hmac_sha1.c:24-63 | A key of any length below 2^29 bytes gives the pads of RFC 2104 |
| HmacSha1.Context.Final | pjsip/pjlib-util/src/pjlib-util/hmac_sha1.c:71-83 | The outer hash of the inner digest |
| HmacMd5.MacParts | pjsip/pjlib-util/src/pjlib-util/hmac_md5.c:24-85 | The same for HMAC-MD5 |
| HmacMd5.Context.Final | pjsip/pjlib-util/src/pjlib-util/hmac_md5.c:73-85 | The outer hash of the inner digest |
| Crc32.Calculate | pjsip/pjlib-util/src/pjlib-util/crc32.c:151-229 | Main result. For every data, cut, alignment and byte order the table form and the bit form give the same checksum |
| Crc32.TableContext.Update | pjsip/pjlib-util/src/pjlib-util/crc32.c:156-183 | The loops over bytes and aligned words advance the register of the bit-by-bit form by exactly the data |
| Crc32.TableContext.Final | pjsip/pjlib-util/src/pjlib-util/crc32.c:185-188 | The checksum in the byte order of a little-endian machine |
| Crc32.BitContext.Update | pjsip/pjlib-util/src/pjlib-util/crc32.c:199-223 | The bit-by-bit loop is the division of the specification |
| Crc32.WordStep | pjsip/pjlib-util/src/pjlib-util/crc32.c:166-174 | Adding a word and dividing 32 bits is four single-byte steps |
| Crc32.TableStep | pjsip/pjlib-util/src/pjlib-util/crc32.c:162-164 | A table step on either machine is eight bits of division |
| Crc32.StatesAreSwapped | pjsip/pjlib-util/src/pjlib-util/crc32.c:84-89 | The big-endian state is always the byte swap of the little-endian one |
| CrcTables.LittleIsEight | pjsip/pjlib-util/src/pjlib-util/crc32.c:27-80 | Every entry of the table is eight steps of division |
| CrcTables.BigIsSwapped | pjsip/pjlib-util/src/pjlib-util/crc32.c:91-144 | Every entry of the other table is its byte swap |
| CrcBits.CrcAppends | pjsip/pjlib-util/src/pjlib-util/crc32.c:199-223 | Updating with a and then b is updating with both |
| CrcBits.CheckValue | pjsip/pjlib-util/src/pjlib-util-test/encryption.c:441-443 | The checksum of "123456789" is CBF43926 |
| TelnetSystem.QuietSystemsAgree | pjsip/pjlib-util/src/pjlib-util/cli_telnet.c:479-617 | Main result, over every interleaving of two sessions on first-in first-out channels and any number of requests: when no command is under way both ends agree on every option in both directions, enabled or disabled |
| TelnetSystem.RequestIsDecided | pjsip/pjlib-util/src/pjlib-util/cli_telnet.c:479-617 | Main result. An option that one end alone asks for, once, ends up enabled at both ends if the configuration of the other allows it, and disabled at both otherwise, as soon as no command is under way |
| TelnetSystem.AnswersAre | pjsip/pjlib-util/src/pjlib-util/cli_telnet.c:532-617 | What a session answers to every verb, having the option and not having it, by verb and configuration |
| TelnetSystem.RequestsAre | pjsip/pjlib-util/src/pjlib-util/cli_telnet.c:479-513 | A session asks with WILL for itself and with DO for its peer |
| TelnetSystem.FewCommands | pjsip/pjlib-util/src/pjlib-util/cli_telnet.c:479-617 | If each end asks at most once for a direction of an option, at most four commands are ever sent about it |
| TelnetSystem.ThreeStates | pjsip/pjlib-util/src/pjlib-util/cli_telnet.c:73-83 | Two sessions on one connection reach only three of the six states, at either end |
| TelnetSession.OnlyThreeStates | pjsip/pjlib-util/src/pjlib-util/cli_telnet.c:479-617 | So does one session with any peer: whatever commands it gets and whenever it asks |
| TelnetSystem.AskProjects | pjsip/pjlib-util/src/pjlib-util/cli_telnet.c:479-513 | A request is one step of its own negotiation and none of the others |
| TelnetSystem.TakeProjects | pjsip/pjlib-util/src/pjlib-util/cli_telnet.c:532-617 | So is a received command |
| TelnetPair.TakeKeepsInv | pjsip/pjlib-util/src/pjlib-util/cli_telnet.c:532-617 | An end that has or expects the option last said "enable", and if the other end heard that and does not have it, it has said "disable" |
| TelnetPair.TakeKeepsBounded | pjsip/pjlib-util/src/pjlib-util/cli_telnet.c:532-617 | Eleven situations are all there are when each end asks at most once |
| TelnetSession.Session.SendEnableOption | pjsip/pjlib-util/src/pjlib-util/cli_telnet.c:479-513 | The switch makes the move of the specification and leaves all other options alone |
| TelnetSession.Session.ReceiveEnableOption | pjsip/pjlib-util/src/pjlib-util/cli_telnet.c:532-573 | The same, by the configuration of the option |
| TelnetSession.Session.ReceiveDisableOption | pjsip/pjlib-util/src/pjlib-util/cli_telnet.c:580-617 | The same |
| TelnetSession.Session.OnCommand | pjsip/pjlib-util/src/pjlib-util/cli_telnet.c:619-637 | DO and DONT concern the local state, WILL and WONT the peer state |
| TelnetSession.Session.OnAccept | pjsip/pjlib-util/src/pjlib-util/cli_telnet.c:1645-1662 | A new session sends its four requests, one for each direction of an option at most |
| Base64.DecodeUndoesEncode | pjsip/pjlib-util/src/pjlib-util/base64.c:58-168 | Main result. Decoding gives back what was encoded |
| Base64.GroupsAreNumbers | pjsip/pjlib-util/src/pjlib-util/base64.c:58-79 | Three bytes are a 24-bit number, encoded as its four digits to base 64; fewer are filled up with zeros and padded with "=" |
| Base64.AlphabetIs | pjsip/pjlib-util/src/pjlib-util/base64.c:27-35 | The digits are A to Z, a to z, 0 to 9, + and /, by character code |
| Base64.NoiseIsIgnoredIff | pjsip/pjlib-util/src/pjlib-util/base64.c:140-146 | Characters outside the alphabet change nothing if and only if the text without its padding does not end in one, or the others make up whole groups of four |
| Base64.NoiseChangesNothing | pjsip/pjlib-util/src/pjlib-util/base64.c:140-146 | So characters outside the alphabet may be put in or taken out anywhere, padding included, as long as that holds before and after |
| Base64.EncodedLength | pjsip/pjlib-util/include/pjlib-util/base64.h:43 | The text has four characters for every three bytes begun and fits the macro |
| Base64.DecodedFits | pjsip/pjlib-util/include/pjlib-util/base64.h:49 | The decoded bytes fit the macro for every text |
| Base64.MacroIsExact | pjsip/pjlib-util/src/pjlib-util/base64.c:164 | For text in the alphabet the macro is exact, so the assertion at the end fails for a buffer of that size |
| Base64.EncodeBuffer | pjsip/pjlib-util/src/pjlib-util/base64.c:81-121 | The loop writes the encoded text, or refuses a buffer below the macro |
| Base64.DecodeBuffer | pjsip/pjlib-util/src/pjlib-util/base64.c:124-168 | The loop writes the decoded bytes within the buffer, or refuses one below the macro |
| PercentEscape.CopyEscaped | pjsip/pjlib-util/src/pjlib-util/string.c:74-101 | Gives the length if and only if the escaped text fits, and writes nothing at or past the maximum |
| PercentEscape.UndoneIff | pjsip/pjlib-util/src/pjlib-util/string.c:53-72 | Unescaping undoes the escaping of every text if and only if the percent sign is escaped |
| PercentEscape.UndoneHexIff | pjsip/pjlib-util/src/pjlib-util/string.c:25-51 | With the check for digits: if and only if the percent sign is escaped or every hexadecimal digit is |
| PercentEscape.MeaningIsRead | pjsip/pjlib-util/src/pjlib-util/string.c:25-72 | Whoever escaped it: a text in which every escaped byte is written with digits of either case is unescaped to what it stands for, by both functions |
| PercentEscape.UnescapedMeans | pjsip/pjlib-util/src/pjlib-util/string.c:25-51 | What is unescaped is the meaning of every text, stray percent signs included |
| PercentEscape.EscapedMeans | pjsip/pjlib-util/src/pjlib-util/string.c:74-101 | What is escaped stands for the text it was made from |
| Hex.DigitValues | pjsip/pjlib/include/pj/ctype.h:159-167 | A hexadecimal digit of either case has its value, and no other character is one |
| PercentEscape.CopyUnescaped | pjsip/pjlib-util/src/pjlib-util/string.c:53-72 | The loop computes that unescaping within the length of the source |
| PercentEscape.Unescaped | pjsip/pjlib-util/src/pjlib-util/string.c:25-51 | The same with the check for digits |
| CharSetRuns.Run | pjsip/pjlib-util/src/pjlib-util/scanner_cis_bitwise.c:26-68 | Main result. After any sequence of init, dup, add, delete, invert and merge operations on up to 32 sets of one buffer, every match agrees with the array form and with what the operations on that set alone account for |
| CharSetRuns.UsedUp | pjsip/pjlib-util/src/pjlib-util/scanner_cis_bitwise.c:32-48 | A position is free exactly while fewer than 32 sets were made |
| CharSetRuns.BothForms.EditBuffer | pjsip/pjlib-util/src/pjlib-util/scanner.c:47-112 | An operation on one set of the buffer makes it what the operation says and leaves all others alone |
| CharSetRuns.BothForms.EditArrays | pjsip/pjlib-util/src/pjlib-util/scanner.c:47-112 | The same for the arrays |
| CharSets.Buffer.Init | pjsip/pjlib-util/src/pjlib-util/scanner_cis_bitwise.c:32-48 | Takes a free position, whose set is empty though it is not cleared, or fails exactly when all 32 are in use |
| CharSets.Buffer.Dup | pjsip/pjlib-util/src/pjlib-util/scanner_cis_bitwise.c:50-68 | A new set with the same codes; no other set changes |
| CharSets.Buffer.AddRange | pjsip/pjlib-util/src/pjlib-util/scanner.c:47-56 | Adds the codes of a range to one set; no other set of the buffer changes |
| CharSets.Buffer.AddStr | pjsip/pjlib-util/src/pjlib-util/scanner.c:69-75 | Adds the codes of a string |
| CharSets.Buffer.AddCis | pjsip/pjlib-util/src/pjlib-util/scanner.c:77-84 | Adds another set of the buffer, or the same one |
| CharSets.Buffer.DelRange | pjsip/pjlib-util/src/pjlib-util/scanner.c:86-92 | Removes a range |
| CharSets.Buffer.DelStr | pjsip/pjlib-util/src/pjlib-util/scanner.c:94-100 | Removes the codes of a string |
| CharSets.Buffer.Invert | pjsip/pjlib-util/src/pjlib-util/scanner.c:102-112 | Turns every code over but zero |
| CharSets.ArraySet.AddRange | pjsip/pjlib-util/src/pjlib-util/scanner.c:47-56 | Adds the codes of a range to the array of the set |
| CharSets.ArraySet.AddCis | pjsip/pjlib-util/src/pjlib-util/scanner.c:77-84 | Adds another array, or the same one |
| CharSets.ArraySet.Invert | pjsip/pjlib-util/src/pjlib-util/scanner.c:102-112 | Turns every code over but zero |
| CharSets.BitAfterSet | pjsip/pjlib-util/include/pjlib-util/scanner_cis_bitwise.h:73 | Setting one position of a cell leaves the others |
| CharSets.BitAfterClear | pjsip/pjlib-util/include/pjlib-util/scanner_cis_bitwise.h:82 | Clearing one position of a cell leaves the others |

## Left out

- Qt and pjsua files (`mainwindow.cpp`, `VoIP.cpp`, `MyCall.cpp`, `runguard.cpp`): user interface and foreign calls.
- `http_client.c`, `pcap.c`, `stun_simple.c`, `xml.c`, `cli.c`, `cli_console.c`: input and output, or easier members.
- Sockets, ioqueue, pools, mutexes and logging of the modelled files: abstract steps or inputs.
- DNS server: choosing answers for a request (`dns_server.c:439-556`) and its record list; printing AAAA records, which the code refuses.
- Resolver: creation and destruction, socket errors, reports on name servers, changes of settings during a run, timers that fire after their node was reused.
- Resolver cache: that a hash table entry lies in a buffer (`hbuf`) of the cached response it was first stored with, and stays there when another response replaces that one under the same key (`resolver.c:1255-1292`); `ResolverMachine.ReadersAreSafe` is about the responses, not about that storage.
- CharSetRuns.Run: the array form has no limit of 32 sets; it is compared on the sets that the sliced form grants.
- SRV: host names resolved afterwards, addresses from the additional section, and the callbacks of `dns_callback`, whose error paths can call back several times or not at all.
- JsonParser.ReadElem: the position, line and column of an error are not modelled, only that the parse fails.
- JsonWriter.Writer.WriteElem: numbers that are not integers are not written, because their text is that of C float formatting; the parser reads them.
- JsonRoundTrip.WriteThenParse: names and strings without a name that need escapes are shut out because the code does not read them back; `JsonLimits` has the exact condition.
- GetOpt.Run: long options, the modes REQUIRE_ORDER and RETURN_IN_ORDER that an option string beginning with `+` or `-` asks for, and a caller that moves optind back.
- Sha1.Context.Update: data of 2^61 bytes or more, for which the 64-bit product of the length wraps.
- HmacSha1.Context.Init: for keys of 2^29 bytes or more nothing is said of the digest, because the bit count can be wrong (`Sha1.HighIsRightIff`).
- Telnet: parsing of the bytes of a command, the line editor, echo and command history.
- CharSets: strings with bytes of 128 and more, which index the cells with a negative number.
- SRV, base64 and getopt sizes that overflow a C `int`.
