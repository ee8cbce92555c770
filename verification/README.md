# tr-ircd: the event-driven half, modelled and proved

This project models the parts of the IRC daemon that react to events: bytes on a server link, clients and
servers that leave, users that accept or block each other, lookups for new connections, readiness of
sockets, the introduction of servers, and the reference counts of listeners and configuration items. Each
part is a Dafny module. Code that updates state in place is a class whose methods follow the C functions;
every such method is tied to a function on values, and the laws are proved about those functions and over
every sequence of events.

| file | what it models |
|---|---|
| `LinkedLists.dfy` | lists of entries, shared by the other modules |
| `Rc4.dfy` | the stream cipher (src/rc4.c) |
| `Framing.dfy` | splitting a server link into lines, with the switch to RC4 (server/s_packet.c) |
| `Netsplit.dfy` | exit of clients and servers, counters, lists, reclaiming (server/s_exit.c) |
| `SplitHorizon.dfy` | who is told about a split, and what a new link is told (server/s_exit.c, protocol/native.c) |
| `Flooding.dfy` | an introduction that spreads over a tree of servers (protocol/native.c) |
| `MirroredLists.dfy` | ACCEPT and DCCALLOW lists (server/s_accept.c, server/s_dcc.c) |
| `IdentReply.dfy` | the ident reply parser and the stored user name (server/s_auth.c) |
| `AuthRequests.dfy` | lookups for new connections (server/s_auth.c) |
| `ConnectLayer.dfy` | outgoing connects and their timeouts (server/s_bsd.c) |
| `Readiness.dfy` | the handler table that every backend serves (src/fd.c) |
| `PollBackend.dfy`, `SelectBackend.dfy`, `DevpollBackend.dfy`, `EpollBackend.dfy` | the four backends (server/s_bsd_*.c) |
| `Listeners.dfy` | listeners and their reference counts (server/s_listener.c) |
| `ConfPurge.dfy` | configuration items across a rehash (newconf/config.c, server/s_conf.c, src/confitem.c) |

`dafny verify dfyconfig.toml` checks the whole project.

## How it is modelled

- **Framing.** The reference receiver takes the wire one byte at a time and never looks ahead. The code
  deciphers whole chunks in place, rescans held bytes, and deciphers the rest of a chunk when the line handler
  answers RC4_NEXT_BUFFER. The line handler is any function of whether the link is keyed and of the lines so
  far; it sets FLAGS_RC4IN together with that answer and does not key a keyed link again. The copy of the
  held tail (server/s_packet.c:349) is a move, since source and target may overlap. `restbuf` has the size
  4 * READBUF_SIZE that the code reckons with (line 281), which is less than line 246 allocates.
- **Teardown.** A depth per server witnesses that `servptr` is a tree; nothing in the code reads it. Records
  are known by numbers that are not given out twice.
- **Callbacks that re-enter.** Dispatch loops, the ident sweep and connect callbacks call code that may
  change the tables again. That code is an arbitrary script of calls; a call that breaks the stated discipline
  (for example registering a closed descriptor, which the code asserts against) is not made, and the discipline
  itself is proved to be exactly what is needed. A dispatch round keeps a log of the handlers taken, the calls
  made and those refused; `Readiness.Due` names the calls that no backend refuses.
- **Runs.** A run returns the states before, between and after its steps; a `Follows` predicate (`Happens` in
  Netsplit) says in plain terms what each step makes of the state, apart from the functions that compute it.
- **The kernel, the resolver, the clock and the sockets** are parameters: what is reported ready, whether
  connect() blocks, when a reply comes, what time it is. fd_close and delete_adns_queries cancel what is
  pending, the resolver does not call back before the query returns, and fresh memory is zero.
- **Counters.** Count.server starts at one in the daemon, for the server itself; the model counts the others.
  The command handlers that introduce remote servers and set user modes (SERVER, OPER, MODE) are not part of this
  model: a client that joins brings its modes along and raises each counter that its exit lowers, Count.oper and,
  but for our own users, Count.invisi included.
  `dropped`, `refused` and the `Repeats` counter in Netsplit, `leaked` in Listeners and the logs of ended requests
  and calls are kept by the model only.
- **`revents`** is kept as two bits, which branch of the dispatch loop is taken; hangup and error set both.

## Where the obvious claim is false

Each of these has an exact condition, and an input with which it fails, for the code as it is.

- Byte totals of a server link are bytes on the wire exactly when no chunk arrived while a tail was held
  (`Framing.CountedIsWire`); a line of one byte in two reads counts three (`Framing.HeldByteCountsTwice`).
- send_message chops a message from its end without a lower bound: for one that is empty or all CR, LF and NUL
  the loop reads in front of the buffer (src/send.c:118-119). `Framing.SendMessage` is proved for all others.
- Each server of a split gets its own SQUIT, not only the top one (`SplitHorizon.SplitNotice` says which).
- Clients of an HTTP listener stay when exit_client is called on them (`Netsplit.Ircd.ExitClient` says when).
- Count.unknown is the length of unknown_list exactly as long as no failure path has dropped a client
  (`Netsplit.Ircd.Run`, `Netsplit.UnknownExactIff`); one failed SSL setup breaks it (`Netsplit.UnknownCanDrift`).
- Count.invisi is the number of invisible clients exactly as long as no client sends USER twice before it registers,
  and usercnt of a server the number of its users exactly as long as no user is introduced for it from the wrong
  direction; all other counters are always right (`Netsplit.Ircd.Run`, `Netsplit.CountsExactIff`). One repeated USER
  leaves Count.invisi one too high, one refused introduction usercnt one too low (`Netsplit.RepeatUser`,
  `Netsplit.RefuseOne`).
- A burst names exactly the servers outside the link's subtree if and only if no server that has exited is
  still waiting to be reclaimed (`SplitHorizon.BurstExact`, and `SplitHorizon.BurstBeforeReclaim` where one is).
- A leading `~` or `^` of an ident reply survives exactly when something that is dropped stands before it
  (`IdentReply.MarkSurvives`, `IdentReply.MarkBehindSpace`).
- poll: a read handler that closes its descriptor leaves comm_index 0 behind, and if the same report takes the
  write branch, slot 0 of the IRC array loses its write interest, and nothing else changes
  (`PollBackend.WriteAfterCloseIff`, `PollBackend.ClobberedOne`, `PollBackend.SlotZeroLosesItsInterest`). For the
  rest of the round only descriptors that pointed to slot 0, or that a handler made a call on, may disagree with
  their slots (`PollBackend.Poll.CommSelect`).
- poll, /dev/poll: fd_close works on the IRC array or device; closing a descriptor that has handlers on the HTTP
  one leaves an entry behind (`CalledKeepsIff` and `HttpCloseStrands` in `PollBackend` and `DevpollBackend`).
- epoll: the write interest can outlive its handler until the next report of the descriptor
  (`EpollBackend.SettledExactIff`, `EpollBackend.HangupLingers`). Everything is registered with `ep`, so nothing
  is ever reported for the HTTP list's own epoll descriptor (`EpollBackend.NoHttpReports`,
  `EpollBackend.HttpIsNotHeard`).
- A connect callback that on a timeout neither closes its descriptor nor sets its write handler leaves
  comm_connect_tryconnect armed without a callback, and the daemon ends in the assertion of that function when the
  socket becomes writable (`ConnectLayer.TimedOutKeepsIff`, `ConnectLayer.WriterLeftOver`).
- The ident sweep fetches the next entry before it releases a client; if that makes the next client exit, the
  sweep goes on with a freed entry (`AuthRequests.Auth.Sweep` says exactly when, `AuthRequests.SuccessorCanGo`
  is such a case).
- add_listener looks up with an uninitialised address: whatever that is, the address asked for is listened on
  only if no other listener has the port (`Listeners.AddedListensAlways`, `Listeners.AddCanMiss`). That no address is
  opened twice is bind()'s doing, not the lookup's (`Listeners.AddedOneEach`).
- The count of a listener is the number of its clients exactly if no SSL setup through it failed, no HTTP client of
  it went away, and none was handed back for another connection; a reference that is lost so keeps the listener for
  good (`Listeners.RefsExactIff`, `Listeners.LeakedStays`, `Listeners.OneFailedSetupLeaks`, `Listeners.OneHandedBackLeaks`).
- exit_client writes the exited flag of a remote client after it has freed the record (server/s_exit.c:294-296);
  this is plain in the code, and the model of it ends with the release.

## Model

| member | source | states |
|---|---|---|
| `Rc4.ProcessStream` | src/rc4.c:73-92 | in place, the bytes become the reference cipher text and nothing else of the buffer changes |
| `Rc4.CryptAppend` | src/rc4.c:73-92 | processing two stretches one after the other is processing them together |
| `Rc4.CryptRoundTrip` | src/rc4.c:73-92 | processing twice from the same state gives the plain bytes back |
| `Rc4.CryptAt` | src/rc4.c:73-92 | byte i is xored with the key byte that i steps of the generator give |
| `Rc4.InitState` | src/rc4.c:43-70 | the key schedule in place is the reference schedule, and each byte stands in the table exactly once |
| `Rc4.ScheduleIs` | src/rc4.c:56-68 | the reference schedule starts with every byte in its place; a step moves the index on by the key, cyclically, and the table, and exchanges two entries |
| `Rc4.StepExchanges` | src/rc4.c:81-86 | a step of the generator moves both indices on and exchanges two entries of the table |
| `Rc4.KeyByteIs` | src/rc4.c:87 | the key byte is the entry at the sum of the two that were exchanged |
| `Rc4.AfterInjective` | src/rc4.c:73-92 | whatever is processed, each byte stays in the table exactly once |
| `Framing.Link.ProcessBytecount` | server/s_packet.c:214-231 | kilobytes and bytes together grow by the length, with fewer than 1024 bytes left over |
| `Framing.Link.JoinHeld` | server/s_packet.c:277-282 | the chunk is put behind the held tail within restbuf, without touching the tail |
| `Framing.Link.ScanLine` | server/s_packet.c:298-307 | the scan finds the first terminator, or none |
| `Framing.Link.TakeLine` | server/s_packet.c:308-345 | one line is delivered and, if the handler keys the link, the rest of the chunk is deciphered once |
| `Framing.Link.HoldTail` | server/s_packet.c:346-350 | the unterminated rest is held |
| `Framing.Link.ServerDopacket` | server/s_packet.c:269-360 | the state is the reference receiver's after the bytes of the chunk |
| `Framing.Link.BinaryDopacket` | server/s_packet.c:251-267 | a keyed link deciphers the chunk on entry, and then the same |
| `Framing.Link.ReceiveChunks` | server/s_packet.c:166-212 | for every way of cutting the stream into chunks: lines, tail and cipher are those of one pass over all bytes |
| `Framing.FeedAllAppend` | server/s_packet.c:269-360 | the reference receiver does not depend on chunk boundaries |
| `Framing.RunIsLine` | server/s_packet.c:294-351 | each maximal terminated stretch is delivered, after exactly those that end before it |
| `Framing.LineIsRun` | server/s_packet.c:294-351 | each delivered line is such a stretch |
| `Framing.Terminators` | server/s_packet.c:298-307 | the stretches of RunIsLine and LineIsRun end at, and start behind, the bytes 10 and 13 and contain neither |
| `Framing.FramesAppend` | server/s_packet.c:294-351 | lines and tail of a concatenation from those of the parts |
| `Framing.FeedIsFraming` | server/s_packet.c:294-351 | without a switch, lines and tail of the deciphered stream are delivered and held |
| `Framing.SwitchIsFraming` | server/s_packet.c:251-256 | after the line that keys the link every byte passes the cipher once and in order |
| `Framing.ExitIsFraming` | server/s_packet.c:316-320 | a link whose handler answers CLIENT_EXITED at a line has delivered exactly the lines up to that one, and nothing that follows counts, in clear or enciphered |
| `Framing.ClearExit` | server/s_packet.c:316-320 | the same on a fresh link in clear, in terms of its bytes |
| `Framing.KeyedExit` | server/s_packet.c:251-256 | the same on a keyed link |
| `Framing.ReceiveExit` | server/s_packet.c:166-212 | the code: for every cutting into chunks the link has exited with exactly the lines up to the one that closed it |
| `Framing.SendMessage` | src/send.c:117-132 | in place, trailing CR, LF and NUL are chopped, what is left is cropped at index 510, and a LF and NUL follow |
| `Framing.WiredIs` | src/send.c:117-132 | what goes out of a message ends with its last byte that is none of CR, LF and NUL, or is its first 511 bytes |
| `Framing.WiredExactIff` | src/send.c:117-126 | a message goes out as it is exactly if nothing is chopped and it has at most 511 bytes |
| `Framing.FramingUndoesSending` | src/send.c:121-132 | the lines that go out for messages, chopped and cropped as they are, are framed back into those lines |
| `Framing.LinkDelivers` | src/send.c:143-147 | messages in clear, the message at whose line the link is keyed, and messages enciphered: the reference receiver delivers all their lines, each once and in order |
| `Framing.SessionTailShort` | server/s_packet.c:346-350 | wherever such a session is cut, less than a line of 512 bytes is held back, so the bound on held tails is met |
| `Framing.ReceiveSession` | server/s_packet.c:166-212 | the code on such a session: for every cutting into reads the same lines are delivered, nothing is held back, and no line outgrows restbuf |
| `Framing.CountedIsWireAndHeld` | server/s_packet.c:277-284 | the byte count is the bytes on the wire plus every held tail once more per chunk |
| `Framing.CountedIsWire` | server/s_packet.c:277-284 | the byte count is the bytes on the wire exactly if no tail was held at the start of a chunk |
| `Framing.HeldByteCountsTwice` | server/s_packet.c:277-284 | an input, on a fresh link, with which the byte count is not the bytes on the wire |
| `Netsplit.Ircd.ExitRecursion` | server/s_exit.c:71-107 | everything behind the server leaves and is released, users and servers before the server they are on; counters, lists and the tree agree again; when its lists are empty, as in the second recursion from exit_one_client, nothing changes |
| `Netsplit.Ircd.DropUsers` | server/s_exit.c:94-98 | the loop over serv->users releases exactly the users of the server |
| `Netsplit.Ircd.DropServers` | server/s_exit.c:99-104 | the loop over serv->servers releases exactly what is behind it |
| `Netsplit.Ircd.ExitOneClient` | server/s_exit.c:304-432 | all behind the client is released and it leaves itself, with exactly the messages due to each link |
| `Netsplit.Ircd.UnlinkServer` | server/s_exit.c:343-348 | the server leaves its uplink's list and the counts |
| `Netsplit.Ircd.UnlinkOther` | server/s_exit.c:407-424 | users and services leave their server's list and the counts |
| `Netsplit.Ircd.Squits` | server/s_exit.c:330-339 | one SQUIT per link but the source and the server itself |
| `Netsplit.Ircd.Unlist` | server/s_exit.c:157-206 | the local lists and counts lose the client |
| `Netsplit.Ircd.ExitClient` | server/s_exit.c:127-298 | a second exit, an exit of ourselves and one of an httpd client change nothing, and the first exit of a client of an HTTP listener only marks it as closing; otherwise exactly the subtree leaves, local clients are queued once, and the invariant holds |
| `Netsplit.Ircd.RemoveExitedClients` | server/s_exit.c:434-448 | every queued client is released once, and the queue is empty |
| `Netsplit.Ircd.Release` | src/client.c:231-250 | the record leaves the global list and is freed |
| `Netsplit.Ircd.Join` | server/s_user.c:265-328 | a user or server that is introduced from the right direction is entered once in every table, list and counter |
| `Netsplit.Ircd.RefuseUser` | server/s_user.c:286-309 | a user from the wrong direction, or whose server is not there, is freed, and every table is as before but for usercnt of that server |
| `Netsplit.Ircd.SendUser` | server/s_user.c:381-427 | USER before registration sets +i and raises Count.invisi, whether or not it was set |
| `Netsplit.Ircd.Connect` | src/client.c:61-113 | a new connection is on unknown_list and counted there |
| `Netsplit.Ircd.Greet` | src/client.c:258-270 | the client is put on the global list, and every invariant is kept |
| `Netsplit.Ircd.RegisterClient` | server/s_user.c:204-240 | a client of our own that registers, with the user mode that USER has set, leaves unknown_list and its count and is entered like any other |
| `Netsplit.Ircd.AbortClient` | server/s_bsd.c:262-271 | a failure path unlinks and frees the client and leaves Count.unknown as it was |
| `Netsplit.Ircd.Do` | server/s_exit.c:127-448 | any step does to clients, records, messages and the queue of the exited what is said of it (`Happens`), and keeps every invariant; Count.unknown, Count.invisi and each usercnt move away from what they count by exactly the steps named (a failure path, a repeated USER, a refused introduction) |
| `Netsplit.Ircd.Run` | server/s_exit.c:127-448 | over any run of connections, USER, registrations, introductions accepted and refused, failures, exits and reclaims, each of which does what is said of it: tree, lists and records agree after every step; Count.unknown is right exactly if no failure path dropped a client, Count.invisi exactly if no USER was repeated, usercnt of each server exactly if no introduction for it was refused, and all other counters always |
| `Netsplit.AllBehindGone` | server/s_exit.c:94-104 | when both loops have ended, what was released is exactly the subtree |
| `Netsplit.NothingBehind` | server/s_exit.c:317-329 | a server with empty lists has nothing behind it |
| `Netsplit.CountLess` | server/s_exit.c:311-316 | counters that are right stay right when one client leaves |
| `Netsplit.LocalExitKeeps` | server/s_exit.c:152-290 | the exit of a local client keeps every invariant |
| `Netsplit.RemoteExitKeeps` | server/s_exit.c:291-295 | the exit of a remote client keeps every invariant |
| `Netsplit.ReclaimKeeps` | server/s_exit.c:443-446 | reclaiming keeps every invariant |
| `Netsplit.ConnectedKeeps` | src/client.c:61-113 | a new connection keeps every invariant |
| `Netsplit.RegisteredKeeps` | server/s_serv.c:325-357 | registration, with or without +i set before, keeps every invariant and takes the client off unknown_list and its count |
| `Netsplit.UserSentKeeps` | server/s_user.c:388-408 | USER, as often as it comes, keeps every invariant |
| `Netsplit.RefusedKeeps` | server/s_exit.c:407-410 | a refused introduction keeps every invariant, with usercnt of one server behind by one more |
| `Netsplit.CountsExactIff` | server/s_exit.c:311-316 | Count.invisi is at least what it counts, equal exactly if no USER was repeated; usercnt of a server at most, equal exactly if no introduction for it was refused; all others are equal |
| `Netsplit.CountersAre` | server/s_exit.c:311-316 | each global counter is the number of clients of its kind: users, operators, servers, services, and, apart from repeats of USER, invisible ones |
| `Netsplit.LocalCountersAre` | server/s_exit.c:157-206 | so are the counters of directly linked users, servers, U-lined servers and services, and the lists of the first two have that length |
| `Netsplit.LocalListsAre` | server/s_exit.c:157-206 | the local lists hold exactly the local users, servers and operators |
| `Netsplit.RepeatUser` | server/s_user.c:388-408 | a run from the start: after a client has sent USER twice, Count.invisi is one more than there are invisible clients |
| `Netsplit.RefuseOne` | server/s_user.c:299-309 | a run from the start: after a refused introduction a server has no users and a usercnt of minus one |
| `Netsplit.AbortedKeeps` | server/s_serv.c:618-626 | a failure path keeps every invariant, with one more client dropped |
| `Netsplit.UnknownExactIff` | server/s_user.c:210-215 | Count.unknown is at least the length of unknown_list, equal exactly if nothing was dropped; the list is exactly the clients that have not registered, those of HTTP listeners aside |
| `Netsplit.UnknownCanDrift` | server/s_bsd.c:286-297 | a connection whose SSL setup fails leaves a count of one with nobody on the list |
| `Netsplit.JoinKeeps` | server/s_user.c:326-328 | an introduction from the right direction keeps every invariant |
| `SplitHorizon.LostExactly` | server/s_exit.c:94-104 | the servers named in the split are exactly those of the subtree, each once, descendants first |
| `SplitHorizon.SplitNotice` | server/s_exit.c:329-339 | every other direct link but the source receives one SQUIT per lost server, descendants first, and nobody a QUIT |
| `SplitHorizon.UserNotice` | server/s_exit.c:376-384 | a user that exits on its own: each remaining link but the one it is behind receives exactly one QUIT for it if it was not killed, and otherwise nothing |
| `SplitHorizon.SilentExit` | server/s_exit.c:376-384 | a service or an unregistered client that exits is announced to nobody |
| `SplitHorizon.AnnounceReceived` | server/s_exit.c:330-339 | what one link receives of all the messages sent |
| `SplitHorizon.FromIsLink` | server/s_exit.c:335-338 | `from` is the direct link exactly for the servers and users behind it |
| `SplitHorizon.ContinueServerEstab` | protocol/native.c:292-327 | the burst names each listed server once that does not come from the link |
| `SplitHorizon.BurstExact` | protocol/native.c:297-301 | the burst names exactly the servers outside the link's subtree if and only if no exited server is pending |
| `SplitHorizon.BurstBeforeReclaim` | protocol/native.c:297-301 | a run from the start after which a new link is told of a server that has exited |
| `SplitHorizon.BurstComplementsSplit` | protocol/native.c:297-301 | exiting the link removes exactly the servers that the burst left out |
| `Flooding.InformRemoteServers` | protocol/native.c:223-267 | one introduction per link but the source, with the hop count one higher, up to a link without N-line |
| `Flooding.Across` | protocol/native.c:232-236 | in a tree, crossing a link keeps to one side |
| `Flooding.StartKeeps` | protocol/native.c:232-265 | the first introductions reach apart subtrees |
| `Flooding.DeliverKeeps` | protocol/native.c:232-265 | every delivery keeps that, tells one more server, and tells it its distance |
| `Flooding.FloodReachesAllOnce` | protocol/native.c:223-267 | every run ends, and each server but the origin has been told exactly once, with its distance as hop count |
| `MirroredLists.DeleteFirst` | server/s_accept.c:64-75 | the first entry for the user is removed |
| `MirroredLists.DeleteAll` | server/s_accept.c:89-93 | every entry for the user is removed |
| `MirroredLists.RemoveReferences` | server/s_accept.c:80-138 | the nested loops are the purge of the user from both tables |
| `MirroredLists.LinkKeeps` | server/s_accept.c:52-55 | adding at both ends keeps the tables inverse |
| `MirroredLists.UnlinkKeeps` | server/s_accept.c:60-78 | deleting at both ends keeps the tables inverse |
| `MirroredLists.ForbidDrops` | server/s_accept.c:60-78 | exactly that pair is gone, at both ends |
| `MirroredLists.PurgeKeeps` | server/s_accept.c:80-138 | the purge of a user keeps the tables inverse |
| `MirroredLists.GoneLeaves` | server/s_accept.c:80-138 | exactly the pairs with that user are gone, at both ends |
| `MirroredLists.AllowKeeps` | server/s_accept.c:42-55 | the limit holds and duplicates do not arise, both ends included |
| `MirroredLists.AllowAdds` | server/s_accept.c:42-55 | both ends gain the entry exactly if both users are there, it is not on the list and the list has room; otherwise nothing changes |
| `MirroredLists.CheckedKeeps` | server/s_accept.c:154-176 | a blocked message warns about a new pair only |
| `MirroredLists.ExitedKeeps` | server/s_exit.c:401-402 | an exit keeps all three relations and the record of warnings |
| `MirroredLists.Directory.AcceptClient` | server/s_accept.c:37-58 | with both users there and room below 20, the user is on the accept list and its reverse list afterwards; no other entry changes |
| `MirroredLists.Directory.DenyClient` | server/s_accept.c:60-78 | exactly that pair is gone from the accept list and its reverse list |
| `MirroredLists.Directory.AddDccallow` | server/s_dcc.c:37-58 | with both users there and room below 10, the user is on the DCCALLOW list and its reverse list afterwards; no other entry changes |
| `MirroredLists.Directory.DelDccallow` | server/s_dcc.c:60-78 | exactly that pair is gone from the DCCALLOW list and its reverse list |
| `MirroredLists.Directory.CheckAccept` | server/s_accept.c:140-177 | a message passes exactly if the recipient is remote, lacks +P, the sender is privileged or accepted; a blocked one is remembered and warned about exactly if it was not before |
| `MirroredLists.Directory.AllowDcc` | server/s_dcc.c:239-249 | the answer is membership in the list, and so in the reverse list |
| `MirroredLists.Directory.ExitUser` | server/s_exit.c:401-402 | no list of anybody mentions the user, and all other pairs stay |
| `MirroredLists.Directory.Run` | server/s_accept.c:37-177 | over any run, each step of which does what is said of it, the relations stay inverse and bounded and no pair is warned about twice |
| `IdentReply.CutAt` | server/s_auth.c:362-367 | a strchr cut splits the C string at the first occurrence |
| `IdentReply.GetValidIdent` | server/s_auth.c:349-401 | the pointer returned is the user field of the reference parse, NULL exactly if there is none |
| `IdentReply.PortIs` | server/s_auth.c:382-389 | a port counts exactly if behind blanks and at most one sign there are digits that are not all zero |
| `IdentReply.UsableIs` | server/s_auth.c:382-393 | a reply is used exactly if both ports count and USERID occurs somewhere in its third field |
| `IdentReply.ParseFinds` | server/s_auth.c:349-401 | every well-formed USERID reply with nonzero ports and a system field without colon yields its user field |
| `IdentReply.ParseSound` | server/s_auth.c:349-401 | every reply that is accepted is of that form |
| `IdentReply.CopiedIsCropped` | server/s_auth.c:545-553 | the copy loop is: cut at the first `@`, drop unwanted characters, crop |
| `IdentReply.UsernameIs` | server/s_auth.c:542-554 | the name starts behind the leading `~` and `^`, ends before the first `@`, and is the first ten characters between that are no blank, colon or bracket, in order |
| `IdentReply.StoreIdent` | server/s_auth.c:536-565 | the stored name is that of the reference, or "unknown" |
| `IdentReply.MarkSurvives` | server/s_auth.c:542-553 | the name starts with a mark if and only if one follows dropped characters only |
| `IdentReply.MarkBehindSpace` | server/s_auth.c:542-543 | a space before the mark keeps it |
| `AuthRequests.Auth.StartAuth` | server/s_auth.c:406-426 | the new request waits for the resolver, and for ident if there is a socket |
| `AuthRequests.StartedWaits` | server/s_auth.c:122-129 | the new request waits for the resolver with its deadline set, ident is in progress exactly if there is a socket that is not done, and other requests are untouched |
| `AuthRequests.IdentOverKeeps` | server/s_auth.c:269-285 | an ident lookup that is over releases the client exactly if the resolver has answered; else the request waits on with only that changed |
| `AuthRequests.DnsOverKeeps` | server/s_auth.c:207-264 | a resolver reply releases the client exactly if ident is over; else the request waits on with only that changed |
| `AuthRequests.TriedKeeps` | server/s_auth.c:476-509 | whatever becomes of the connect, the request waits on or was released with nothing pending |
| `AuthRequests.ExitedKeeps` | server/s_exit.c:155-156 | an exit discards the request of the client and nothing else |
| `AuthRequests.EndedKeeps` | server/s_auth.c:258-263 | a request that ends leaves no callback behind |
| `AuthRequests.LetLive` | server/s_auth.c:443-460 | after a release another request is still there exactly if its client is not among those that exit |
| `AuthRequests.SafeSweep` | server/s_auth.c:439-461 | the sweep meets no freed entry if released clients make nobody exit but themselves |
| `AuthRequests.Auth.EndIdent` | server/s_auth.c:558-576 | closing the ident socket and what follows |
| `AuthRequests.Auth.ConnectCallback` | server/s_auth.c:476-577 | the connect callback with the first read |
| `AuthRequests.Auth.DnsCallback` | server/s_auth.c:207-264 | the client is gone from the pending queries; its request is released exactly if ident was not in progress, and else waits on with only that changed; other requests stay, those of clients that exit aside |
| `AuthRequests.Auth.DeleteIdentdQueries` | server/s_auth.c:617-635 | the loop discards the requests of the client |
| `AuthRequests.Auth.Sweep` | server/s_auth.c:432-463 | the sweep goes on with a freed entry if and only if the list, the deadlines and the exits say so; otherwise exactly the requests past their deadline are released, and others go only with a client that exits |
| `AuthRequests.SuccessorCanGo` | server/s_auth.c:439-461 | two requests, started from nothing, with which the sweep meets a freed entry |
| `AuthRequests.Auth.Do` | server/s_auth.c:207-650 | each event ends, starts or changes exactly the requests that are named for it (`Follows`), unless it is a sweep that goes on with a freed entry |
| `AuthRequests.Auth.Run` | server/s_auth.c:207-650 | over any interleaving, up to the first sweep that goes on with a freed entry, each event does what is said of it: each request is live and waiting, or was released or discarded exactly once; releases only with nothing pending or past the deadline; every callback still possible belongs to a live request; fd >= 0 exactly while ident is in progress. Such a sweep is reported, with the condition that holds when it starts |
| `ConnectLayer.SettledKeepsIff` | server/s_bsd.c:512-528 | the callback runs once with the timer disarmed, and nothing is left armed exactly if it closes the descriptor, or nothing was armed but a write handler that it replaces |
| `ConnectLayer.SettledOnce` | server/s_bsd.c:512-528 | whatever the callback does, its call has ended, once, and the timer was disarmed before |
| `ConnectLayer.BegunKeeps` | server/s_bsd.c:463-507 | the new call is pending with something armed, or has ended |
| `ConnectLayer.BegunTells` | server/s_bsd.c:463-507 | COMM_ERR_BIND when bind() fails, else as in TriedTells; while the resolver works nothing ends |
| `ConnectLayer.TriedKeeps` | server/s_bsd.c:653-681 | connected, failed, or waiting for the socket under a timer |
| `ConnectLayer.TriedTells` | server/s_bsd.c:653-681 | the next call to end is told COMM_OK when connect() succeeds and COMM_ERR_CONNECT when it fails; when it blocks none ends and the writer is armed |
| `ConnectLayer.WritableTells` | server/s_bsd.c:653-681 | the same when the socket has become writable |
| `ConnectLayer.AnsweredKeeps` | server/s_bsd.c:600-643 | a resolver reply ends the call or starts the connect under a timer |
| `ConnectLayer.AnsweredTells` | server/s_bsd.c:600-643 | COMM_ERR_DNS when the resolver fails, else as in TriedTells |
| `ConnectLayer.TimedOutKeepsIff` | server/s_bsd.c:588-592 | a timeout leaves everything right exactly if the callback closes the descriptor or sets its write handler |
| `ConnectLayer.TimedOutOnce` | server/s_bsd.c:438-446 | a timeout ends the call of its descriptor, whatever the callback does |
| `ConnectLayer.TimedOutTells` | server/s_bsd.c:588-592 | COMM_ERR_TIMEOUT when the deadline has passed |
| `ConnectLayer.WriterLeftOver` | server/s_bsd.c:588-592 | a connect, from a descriptor just opened, after which the assertion of comm_connect_tryconnect fails |
| `ConnectLayer.Comm.ConnectCallback` | server/s_bsd.c:512-528 | callback and timer are cleared before the callback runs, and its call ends with the status given |
| `ConnectLayer.Comm.Sweep` | server/s_bsd.c:417-448 | whatever the callbacks do, after the pass every call whose deadline had passed has ended, with COMM_ERR_TIMEOUT unless an earlier callback closed its descriptor; nothing is left armed if on a timeout callbacks close or set the write handler |
| `ConnectLayer.Comm.Do` | server/s_bsd.c:653-656 | an event ends in the assertion exactly if the write handler or the resolver's answer finds no callback; otherwise it tells the callback the status that is due and touches no other descriptor (`Follows`) |
| `ConnectLayer.Comm.Run` | server/s_bsd.c:417-681 | over any run, whatever the callbacks do, each event does what is said of it and each call runs its callback at most once; if they close their descriptor or set its write handler on a timeout, the assertion never fails and a call that has not ended has something armed |
| `Readiness.ReplayAppend` | src/fd.c:87-128 | the meaning of two rounds of events is that of one after the other |
| `Readiness.CallMeans` | src/fd.c:87-128 | what each call makes of the handler of each descriptor in each direction |
| `Readiness.HandlerRuns` | server/s_bsd_poll.c:242-255 | a handler that is there when it is taken makes each call of its script, in order, unless there was a reason not to |
| `Readiness.RegistersAgain` | server/s_packet.c:208-209 | a handler that registers itself again on the list of its descriptor is there after the round, unless the descriptor is concerned again |
| `PollBackend.KernelIsAskedExactly` | server/s_bsd_poll.c:216-227 | what poll() is asked about a descriptor, on the array of its list, from the invariant that SetDirKeeps and CalledKeeps keep |
| `PollBackend.SlotFound` | server/s_bsd_poll.c:73-85 | a descriptor without a slot always finds one |
| `PollBackend.SetDirKeeps` | server/s_bsd_poll.c:90-132 | an update keeps descriptors and slots in bijection, the bits equal to the handlers and maxindex at the last used slot |
| `PollBackend.CalledKeeps` | server/s_bsd_poll.c:164-186 | a call keeps the agreement, also that of all descriptors but some, and does to the handlers what it says |
| `PollBackend.CalledKeepsIff` | src/fd.c:107-128 | a call keeps the agreement exactly if a descriptor with handlers stays on its array |
| `PollBackend.HttpCloseStrands` | src/fd.c:107-128 | from the start, a descriptor opened, registered to read on the HTTP array and closed breaks the agreement |
| `PollBackend.WriteAfterCloseIff` | server/s_bsd_poll.c:249-255 | the write branch on a closed descriptor keeps the agreement exactly if slot 0 does not wait to write |
| `PollBackend.ClosedWriteKeeps` | server/s_bsd_poll.c:249-255 | the write branch on a closed descriptor leaves all slots right, and every descriptor but the owner of slot 0 |
| `PollBackend.ClobberedOne` | server/s_bsd_poll.c:249-255 | when slot 0 is hit, only the owner of that slot loses its write bit; all others agree and no handler changes |
| `PollBackend.SlotZeroLosesItsInterest` | server/s_bsd_poll.c:249-255 | an input with which slot 0 is freed although its owner waits to write |
| `PollBackend.Poll.SlotIn` | server/s_bsd_poll.c:73-85 | the first free slot: all before it are used |
| `PollBackend.Poll.UpdateSlots` | server/s_bsd_poll.c:90-132 | the array after the update, maxindex lowered over free slots to a used one |
| `PollBackend.Poll.Register` | server/s_bsd_poll.c:164-186 | comm_setselect as its specification says |
| `PollBackend.Poll.Take` | server/s_bsd_poll.c:242-255 | a branch of the loop: the handler is taken out and, if there was one, its calls are made |
| `PollBackend.Poll.CommSelect` | server/s_bsd_poll.c:201-258 | whatever handlers do, all slots are right throughout, each handler is taken for a report of this round and once, and makes the calls of its script in order (`Plays`); every report is served unless a handler made a call on the descriptor; all descriptors agree with their slots unless slot 0 is disarmed for another, which takes a report in both directions and a handler that closes, and then still all that did not point to slot 0 and that no handler called on |
| `SelectBackend.KernelIsAskedExactly` | server/s_bsd_select.c:175-198 | what select() is asked, read off the invariant that SelectedKeepsIff, CalledKeeps and FireKeeps keep |
| `SelectBackend.SelectedKeepsIff` | server/s_bsd_select.c:131-153 | comm_setselect keeps the four sets right exactly for the calls a caller may make |
| `SelectBackend.CalledKeeps` | src/fd.c:49-128 | comm_setselect, fd_open and fd_close keep the four sets right and highest_fd the highest open descriptor |
| `SelectBackend.FireKeeps` | server/s_bsd_select.c:209-228 | taking a handler keeps the sets right, open or closed |
| `SelectBackend.Select.Take` | server/s_bsd_select.c:209-228 | a branch of the loop: the handler is taken out and, if there was one, its calls are made |
| `SelectBackend.Select.CommSelect` | server/s_bsd_select.c:167-231 | whatever handlers do, the sets are exact throughout, each handler is taken for a report of this round and once, and makes the calls of its script in order (`Plays`); every report is served unless a handler made a call on the descriptor |
| `DevpollBackend.KernelIsAskedExactly` | server/s_bsd_devpoll.c:221-239 | what the device holds outside of handlers, read off the invariant that CalledKeepsIff, TakenKeeps and SettledKeeps keep |
| `DevpollBackend.CalledKeepsIff` | server/s_bsd_devpoll.c:182-204 | a call keeps mask and device right exactly if a descriptor that the kernel holds stays on its device, also while a handler runs |
| `DevpollBackend.HttpCloseStrands` | src/fd.c:107-128 | from the start, a descriptor opened, registered to read on the HTTP device and closed breaks the agreement |
| `DevpollBackend.SettledKeeps` | server/s_bsd_devpoll.c:263-268 | the update after a handler makes everything exact again |
| `DevpollBackend.Devpoll.UpdateEvents` | server/s_bsd_devpoll.c:84-139 | mask and device after an update, written only where needed |
| `DevpollBackend.Devpoll.Take` | server/s_bsd_devpoll.c:259-270 | the handler is taken, runs, and its direction is brought up to date; meanwhile at most that bit is asked too much |
| `DevpollBackend.Devpoll.CommSelect` | server/s_bsd_devpoll.c:252-286 | after every report the device is exact, handlers are taken for reports only and make the calls of their script in order (`Plays`), and every report with a handler is served unless a handler made a call on the descriptor |
| `EpollBackend.CalledKeeps` | server/s_bsd_epoll.c:96-150 | a call keeps pflags equal to the kernel's mask and above the handlers |
| `EpollBackend.SettledExactIff` | server/s_bsd_epoll.c:223-240 | the end of a step asks the kernel exactly, unless and only unless the write interest lingers |
| `EpollBackend.HangupLingers` | server/s_bsd_epoll.c:196-230 | a hangup after which OUT stays in the kernel without a write handler |
| `EpollBackend.NoHttpReports` | server/s_bsd_epoll.c:175-182 | epoll_wait on the HTTP list's descriptor has nothing to report |
| `EpollBackend.HttpIsNotHeard` | server/s_bsd_epoll.c:145 | a read handler registered for the HTTP list sits with ep |
| `EpollBackend.Epoll.Register` | server/s_bsd_epoll.c:96-150 | comm_setselect with its choice of operation |
| `EpollBackend.Epoll.Dispatch` | server/s_bsd_epoll.c:193-242 | one report: exact or lingering, and lingering only after a report in both directions without write interest before; handlers that are taken make the calls of their script in order |
| `EpollBackend.Epoll.Take` | server/s_bsd_epoll.c:197-218 | the handler is taken out and, if there was one, its calls are made; pflags are not touched |
| `EpollBackend.Epoll.CommSelect` | server/s_bsd_epoll.c:167-244 | no interest is ever lost, what was exact stays exact unless it lingers, handlers are taken for reports only and make the calls of their script in order (`Plays`), and every report with a handler is served unless a handler made a call on the descriptor; polling the HTTP list does nothing |
| `Listeners.ExitedKeeps` | server/s_exit.c:283-288 | the asserted positive count holds; a listener is freed only inactive and without references |
| `Listeners.ConnectedKeeps` | server/s_bsd.c:239-297 | a connection is counted, for a new client or an HTTP client that is handed back; the reference of the latter, and of a client whose SSL setup fails, stays behind |
| `Listeners.LostKeeps` | server/s_bsd.c:262-271 | a client that vanishes leaves its reference |
| `Listeners.SteppedKeeps` | server/s_bsd.c:254-297 | every step keeps the invariant, and leaves exactly as many references behind as it frees or moves clients without giving theirs back |
| `Listeners.SteppedFollows` | server/s_listener.c:55-300 | every step makes of listeners, list, clients and references what is said of it (`Follows`), and nothing else |
| `Listeners.RefsExactIff` | server/s_bsd.c:239-297 | after any run from the start the count is at least the clients, and equal exactly if no SSL setup through the listener failed, no HTTP client of it went away and none was handed back |
| `Listeners.LeakedStays` | server/s_exit.c:283-288 | a listener with a lost reference is never freed, whatever follows |
| `Listeners.OneFailedSetupLeaks` | server/s_bsd.c:286-297 | a run of three steps that leaves a closed listener with a reference and no client |
| `Listeners.OneHandedBackLeaks` | src/httpd/httpd_main.c:191-211 | a run in which one HTTP client connects twice and is counted twice |
| `Listeners.FindFinds` | server/s_listener.c:180-197 | an open match is preferred, a closed one found, nothing else |
| `Listeners.FindLast` | server/s_listener.c:187-196 | a closed match that is returned is the last on the list |
| `Listeners.AddedKeeps` | server/s_listener.c:220-262 | adding keeps counts, list and lifetimes, whatever the lookup hits |
| `Listeners.AddedAdds` | server/s_listener.c:220-262 | what add_listener leaves: nothing changes for port 0, for an open match of the lookup and for an address that does not parse; the last closed match, or else a new listener, is opened if the socket can be set up and nothing listens there, and is closed otherwise |
| `Listeners.AddedListensIff` | server/s_listener.c:223-262 | the address asked for is listened on exactly if the lookup misses, is right by chance, or it was before |
| `Listeners.AddedListensAlways` | server/s_listener.c:223-262 | whatever the uninitialised address is, the address asked for is listened on afterwards exactly if it was before or no listener has the port with another address |
| `Listeners.AddedOneEach` | server/s_listener.c:122-141 | no address is opened twice, whatever the lookup hits; where it misses a listener that is open, the new one is freed and all others stay as they were |
| `Listeners.SteppedOneEach` | server/s_listener.c:220-300 | no step makes two listeners open on one address |
| `Listeners.AddCanMiss` | server/s_listener.c:223-231 | an input with which nothing is opened |
| `Listeners.AllClosedRetires` | server/s_listener.c:288-300 | every listener left that is not for HTTP is closed, inactive and referenced |
| `Listeners.AllClosedCloses` | server/s_listener.c:288-300 | close_listeners closes every listener that is not for HTTP, frees those of them without references, and leaves the others and their order as they are |
| `Listeners.Server.Free` | server/s_listener.c:55-77 | the listener leaves the list and is freed |
| `Listeners.Server.CloseListener` | server/s_listener.c:267-283 | closed and inactive if it is referenced, and freed otherwise; nothing else changes |
| `Listeners.Server.CloseListeners` | server/s_listener.c:288-300 | the loop over the list leaves HTTP listeners as they are and all others closed, inactive and referenced, or freed |
| `Listeners.Server.AddListener` | server/s_listener.c:220-262 | the state is that of AddedKeeps and AddedAdds, whatever the lookup hits |
| `Listeners.Server.AddConnection` | server/s_bsd.c:239-297 | the listener has one reference more and the client points to it, or is gone if its SSL setup failed; new clients and those handed back |
| `Listeners.Server.Run` | server/s_listener.c:55-300 | over any run, each step of which does what is said of it, counts cover clients, listeners are freed once and unreferenced, no client points to a freed one, lost references stay lost, and no address is listened on twice |
| `ConfPurge.Conf.Purge` | newconf/config.c:315-341 | the in-place loop is: keep client items in use, mark what is in use, free the rest |
| `ConfPurge.Conf.Flush` | server/s_conf.c:318-336 | the in-place loop is: drop what is marked, free it if unused |
| `ConfPurge.Conf.Parse` | server/s_conf.c:347-359 | additions go to the front |
| `ConfPurge.PurgedKeeps` | newconf/config.c:323-341 | no item in use is freed, and each other one once; what stays is marked, and only CONF_CLIENT items stay on the list |
| `ConfPurge.FlushedKeeps` | server/s_conf.c:318-336 | marked items leave the list, and are freed exactly if no client holds them |
| `ConfPurge.RehashedKeeps` | server/s_boot.c:68-72 | after a rehash the list is the additions, last first and as parsed; old unused items were freed once; used ones are marked; if the file opens once or never, the additions are those of one pass, or nothing changes |
| `ConfPurge.Conf.DoRehash` | newconf/config.c:299-371 | the code of a rehash: list, freed items and marks as in RehashedKeeps |
| `ConfPurge.AttachedKeeps` | src/confitem.c:201-221 | attaching keeps every count equal to the holders and the list free of marked items |
| `ConfPurge.Conf.AttachConf` | src/confitem.c:201-221 | the client holds the item afterwards, and is counted, exactly if it did before or the item is not marked; nothing else changes |
| `ConfPurge.DetachedKeeps` | src/confitem.c:149-176 | detaching keeps them too: the last client of a marked item frees it, and the list does not mention it |
| `ConfPurge.Conf.DetachConf` | src/confitem.c:149-176 | a holder is no holder any more, and the item is freed exactly if it is marked and that was the last; nothing else changes |
| `ConfPurge.Conf.Run` | src/confitem.c:149-221 | over any run, each step of which does what is said of it, no item that a client holds is freed, and none is freed twice |

## Left out

- Compression of server links (ZIP_NEXT_BUFFER, unzip_buffer): the decompressor is a foreign call.
- client_dopacket and the line buffers of clients: they only count bytes and hand lines on.
- End of file and errors of read() on a server link: they lead to exit_client, which Netsplit models.
- Channels, invitations, silence lists, history, WATCH, hash tables, user ids and free_user in exit_one_client: side tables without bearing on tree, counters or lists.
- Messages that make the receiving link exit while a split is announced: sending is an effect without re-entry.
- ircstp statistics, reconnect holds and split mode in exit_client.
- User modes that change after a client has joined (MODE, OPER): a mode is counted when the client joins or sends USER, and uncounted when it leaves; the handlers that change modes are not part of this model.
- Servers whose introduction is refused: their handler is not part of this model; where it drops the link, that is an exit.
- Overflow of atoi in the ident parser: numbers are unbounded.
- The text of SERVER messages and IDs in protocol/native.c: only who is told, and the hop count.
- Services: exits handle them, but no code shown makes a client one, so none joins in a run.
- The loss of a link in do_inform_remote_servers when an N-line is missing: the loop stops there, its exit is Netsplit's.
- File name checks of server/s_dcc.c.
- Flush handlers in comm_checktimeouts, `flags.closing`, which nothing sets, and the loop bound highest_fd, beyond which nothing is open.
- Connect callbacks that start another connect before they return, or change handlers of other descriptors.
- What bind() refuses besides an address that is listened on, such as one that a wildcard covers: part of whether a socket can be set up.
- Timeouts that comm_setselect sets, and errors of poll, select, ioctl and epoll_wait.
- kqueue and sigio backends.
- Connection classes and attach limits; the parser itself: its additions are a parameter, and it clears CONF_ILLEGAL before it adds an item.
- httpd's own use of free_listener and delist_and_remove_conf.
- AuthRequests.Auth.ConnectCallback: does not model the user name that a reply stores, because IdentReply does.
