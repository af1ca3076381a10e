# libvirt-sandbox: a verification model

This project models, in Dafny 4.11, the parts of libvirt-sandbox in which a
mistake is hard to see in any one function, and proves what they promise
together.

**The console protocol.** A sandboxed application talks to the user through two
programs: the host console (`libvirt-sandbox-console-rpc.c`) and the init
program in the guest (`eventloop` in `libvirt-sandbox-init-common.c`), with one
byte stream in each direction and a shared packet format
(`libvirt-sandbox-rpcpacket.c`, `libvirt-sandbox-protocol.x`, XDR of RFC 4506).

- `Xdr`, `Protocol`, `Flow`: the wire format, runs of messages, and bytes in
  flight.
- `HostMachine`, `HostInvariant`, `HostTheorems`: the host as a value, one
  function for each C function, an invariant that every event keeps whatever the
  peer sends, and theorems over all of its runs.
- `GuestMachine`, `GuestInvariant`, `GuestTheorems`: the same for the guest.
- `GuestTurns`, `GuestService`: one turn of the guest's loop as a value, and what it
  does for each descriptor that poll reports.
- `Session`, `SessionInvariant`, `SessionOut`, `SessionIn`: both joined by two
  streams, in every interleaving and with every split of reads and writes; until
  the console is in raw mode the terminal between them may swallow bytes and show
  other bytes than SYNC. The invariant of all runs.
- `SessionTheorems`, `SessionOutput`, `SessionProgress`, `SessionShutdown`,
  `SessionCut`: what follows from it: order, completeness, output while running, handshake, that the handshake can always
  be carried through, that shutdown ends and exactly when it can, and exactly when
  the stream towards the guest stays framed.
- `SessionRuns`: concrete runs from the start in which the code does not do what
  it is meant to do.
- `RpcPacket`, `HostConsole`, `GuestLoop`: the programs as they are programmed,
  objects with arrays and fields updated in place; every callback of the one and
  the loop of the other is shown to be a run of the machine above.
  `Refinement` carries those runs over to sessions.

**The raw console.** `RawMachine` and `RawConsole` model the stream path of
`libvirt-sandbox-console-raw.c`: two bounded byte queues.

**Configuration.** `Text`, `ConfigTypes`, `KeyFiles`, `ConfigSave`, `ConfigLoad`,
`ConfigRoundTrip`, `ConfigDefaults`, `ConfigObject`, `NetworkOptions` and
`NetworkTexts` model saving and loading of an interactive configuration and the
network option string.

**Names and mounts.** `DeviceNames` models the three loops of the machine builder
that name the same devices, `GuestMounts` and `DiskTags` the guest's readers of
mounts.cfg and disks.cfg, `UnmountOrder` and `MakeDirs` the order of unmounting and of making directories.

## Where the code does not do what it is meant to do

Each of these is part of the model, with the exact condition and, for the two
consoles, a run from the start that shows it.

- The stderr callback of the host passes the offset where the length belongs
  (`libvirt-sandbox-console-rpc.c:1041-1045`). `DrainForm` selects between this
  and the form of the stdout callback; as written no byte of standard error is
  ever written locally (`HostTheorems.StderrNeverDrains`). The console can then
  finish if and only if there was none (`HostTheorems.ShutdownExactly`,
  `SessionShutdown.ShutdownCanComplete`), and it can go on reading if and only if
  fewer than 1024 bytes of it are queued (`HostTheorems.BackPressureExactly`).
  Runs: `SessionRuns.ShutdownHangs` with one byte, `SessionRuns.ConsoleWedges`
  with 1024.
- When EXIT is dispatched the host discards tx even if a part of it was sent.
  The stream towards the guest is then framed if and only if tx was empty or
  unsent (`SessionCut.FramedUnlessCut`), and a run shows the application being
  given a byte that nobody typed (`SessionCut.CutInputIsWrong`).
- After the end of input, or a failed write to the application, the guest never
  arms rx again (`libvirt-sandbox-init-common.c:1079-1082`, `:1098-1099`). It then
  does not read QUIT, and its loop ends if and only if a send fails, the device
  hangs up or the signal pipe fails (`GuestTheorems.DeafExactly`,
  `GuestTheorems.DeafForever`; run: `SessionRuns.QuitUnread`).
- The guest reads standard error only in a turn in which standard output has no
  data, since a packet of the one leaves no room for the other
  (`GuestService.OutputsServed`). As long as standard output always has data,
  standard error is never read (`GuestService.ErrorsWait`).
- The status in EXIT is that of the child reaped last. It is the application's
  own if and only if no child was reaped between the application and the building
  of EXIT, or the last of those left the same status
  (`SessionTheorems.ExitIsLast`; run: `SessionRuns.OtherStatus`).
- The raw console resets the stdout source pointer after a local write, also when
  stderr made the call (`libvirt-sandbox-console-raw.c:516`). Without stdout the
  first write that leaves something in the queue is therefore the last one
  (`RawMachine.PartialWriteSticks`, `RawMachine.StuckForever`; run:
  `RawMachine.BecomesStuck`).
- A configuration with filter references, with an include without a source,
  without a command, over the loaders' bounds, or with a RAM size that a gint does
  not carry, is not given back by loading (`ConfigRoundTrip.RoundTrip` has the
  exact condition).

## Model

| member | source | states |
|---|---|---|
| Xdr.U32RoundTrip | libvirt-sandbox/libvirt-sandbox-rpcpacket.c:65-68 | an unsigned int survives encoding and decoding |
| Xdr.I32RoundTrip | libvirt-sandbox/libvirt-sandbox-protocol.x:32-41 | a signed int or enumeration survives encoding and decoding, negative ones included |
| Protocol.HeaderRoundTrip | libvirt-sandbox/libvirt-sandbox-protocol.x:32-37 | the four header fields survive in their order |
| Protocol.FrameRoundTrip | libvirt-sandbox/libvirt-sandbox-rpcpacket.c:58-141 | every message that fits is accepted by the length check and decoded to itself, with its total length |
| Protocol.LengthsAccepted | libvirt-sandbox/libvirt-sandbox-rpcpacket.c:65-92 | an encoded length is accepted, and decoded to itself, if and only if it counts the length word and at most 262144 bytes more |
| Flow.QueueTake | libvirt-sandbox/libvirt-sandbox-console-rpc.c:727-743 | bytes whose length word announces exactly them are the next message that was sent, and no byte of the one after it |
| RpcPackets.RpcPacket.constructor | libvirt-sandbox/libvirt-sandbox-rpcpacket.c:38-46 | a new packet is empty, or awaits a length word |
| RpcPackets.RpcPacket.DecodeLength | libvirt-sandbox/libvirt-sandbox-rpcpacket.c:58-98 | the in-place length check agrees with the value one, extends the length in use by the bytes announced, and keeps offset <= length <= buffer size; less than a length word is refused |
| RpcPackets.RpcPacket.DecodeHeader | libvirt-sandbox/libvirt-sandbox-rpcpacket.c:114-141 | header and payload position agree with the decoded frame; of a header that is too short the fields that fit are stored |
| RpcPackets.RpcPacket.EncodeHeader | libvirt-sandbox/libvirt-sandbox-rpcpacket.c:155-203 | the buffer starts with a length word of 20 and the header |
| RpcPackets.RpcPacket.EncodePayloadRaw | libvirt-sandbox/libvirt-sandbox-rpcpacket.c:280-315 | data that fits is appended and the length word rewritten; data that does not fit changes nothing |
| RpcPackets.RpcPacket.EncodePayloadExit | libvirt-sandbox/libvirt-sandbox-rpcpacket.c:206-247 | the exit status is appended and the length word rewritten |
| RpcPackets.RpcPacket.DecodePayloadExit | libvirt-sandbox/libvirt-sandbox-rpcpacket.c:250-277 | the exit status is read, or refused when four bytes are missing |
| RpcPackets.RpcPacket.EncodePayloadEmpty | libvirt-sandbox/libvirt-sandbox-rpcpacket.c:318-341 | the packet is finished without a payload |
| RpcPackets.RpcPacket.BuildRaw | libvirt-sandbox/libvirt-sandbox-init-common.c:561-612 | a packet is built if and only if the data fits, and its bytes are the encoded message |
| RpcPackets.RpcPacket.BuildExit | libvirt-sandbox/libvirt-sandbox-init-common.c:614-650 | the exit packet's bytes are the encoded exit message |
| RpcPackets.RpcPacket.ReadBack | libvirt-sandbox/libvirt-sandbox-console-rpc.c:727-743 | reading a built packet in two phases gives back its header, payload and length |
| HostInvariant.NextOk | libvirt-sandbox/libvirt-sandbox-console-rpc.c:414-1085 | every callback keeps the host's invariant, whatever bytes the peer sends |
| HostInvariant.FinishOk | libvirt-sandbox/libvirt-sandbox-console-rpc.c:454-457 | finishing leaves QUIT as the only packet, as the last of the messages |
| HostTheorems.StatesMoveForward | libvirt-sandbox/libvirt-sandbox-console-rpc.c:414-463 | over any run states only move forward until the console is detached |
| HostTheorems.BackPressure | libvirt-sandbox/libvirt-sandbox-console-rpc.c:734-742 | while running, rx is armed if and only if both queues hold fewer than 1024 bytes; no queue exceeds 1023 bytes and one payload |
| HostTheorems.BackPressureExactly | libvirt-sandbox/libvirt-sandbox-console-rpc.c:993-1063 | when rx is held back, local writes can arm it again if and only if stderr is drained as meant or fewer than 1024 bytes of it are queued |
| HostTheorems.BackPressureEnds | libvirt-sandbox/libvirt-sandbox-console-rpc.c:993-1001 | and under the same condition in every run: until rx is armed a local write is possible, and it is armed at the latest with the last byte taken |
| HostTheorems.WedgedForever | libvirt-sandbox/libvirt-sandbox-console-rpc.c:1041-1063 | as written, with 1024 bytes of stderr queued no run receives another message: the console is never told of the exit |
| HostTheorems.StateMeaning | libvirt-sandbox/libvirt-sandbox-console-rpc.c:745-805 | the errors for an unexpected state never fire, SYNC is built once, signals are given at most once, and what STOPPING and FINISHED mean |
| HostTheorems.QueuedCanBeWritten | libvirt-sandbox/libvirt-sandbox-console-rpc.c:482-501 | running or stopping, any part of what is queued can be written at once |
| HostTheorems.StreamsServed | libvirt-sandbox/libvirt-sandbox-console-rpc.c:482-526 | input can be typed exactly when running with tx empty and no end of input; tx can always be sent and rx always be filled |
| HostTheorems.EscapeCloses | libvirt-sandbox/libvirt-sandbox-console-rpc.c:925-966 | the escape character as the first byte closes the console, without an error and with nothing of that read passed on; no other read does |
| HostTheorems.ShutdownTerminates | libvirt-sandbox/libvirt-sandbox-console-rpc.c:969-1074 | from STOPPING, unless stderr is queued as written, every run without a failure leaves STOPPING exactly with the last byte taken, however writes are split and with whatever in between; until then a write is possible |
| HostTheorems.ShutdownExactly | libvirt-sandbox/libvirt-sandbox-console-rpc.c:1003-1074 | a console that is stopping can finish if and only if stderr is drained as meant or none is queued |
| HostTheorems.QuitCloses | libvirt-sandbox/libvirt-sandbox-console-rpc.c:802-805 | sending all of QUIT closes the console without an error, sending a part does not |
| HostTheorems.StderrNeverDrains | libvirt-sandbox/libvirt-sandbox-console-rpc.c:1031-1074 | as written, no run of any events writes a byte of standard error, and once some is queued FINISHED is never reached |
| HostTheorems.StderrLost | libvirt-sandbox/libvirt-sandbox-console-rpc.c:1041-1045 | as written, a console that is stopping can finish if and only if no standard error was ever received |
| GuestInvariant.NextOk | libvirt-sandbox/libvirt-sandbox-init-common.c:948-1275 | every branch of the loop keeps the guest's invariant: packets in order, one EXIT, input delivered in order |
| GuestInvariant.PostExitOk | libvirt-sandbox/libvirt-sandbox-init-common.c:948-969 | EXIT is built when the application is done, into an empty tx, with the status stored last |
| GuestInvariant.BuildsIntoEmptyTx | libvirt-sandbox/libvirt-sandbox-init-common.c:1000-1004 | a packet is built only when tx is empty, and then only one: the answer to the handshake, output, or the exit status |
| GuestTheorems.DeafExactly | libvirt-sandbox/libvirt-sandbox-init-common.c:1067-1099 | while the loop goes on, reading from the host has stopped if and only if a write to the application failed or the last message was the end of input; only data is followed by another message |
| GuestTheorems.DeafForever | libvirt-sandbox/libvirt-sandbox-init-common.c:889-905 | from then on no run dispatches a message, QUIT included, and the loop ends if and only if a send fails, the device hangs up or the signal pipe fails |
| GuestTheorems.ReapsLogged | libvirt-sandbox/libvirt-sandbox-init-common.c:948-969 | the logged statuses are those of the reaping events in order; which one is the application's, and how many there were when it was done, are those of the events |
| SessionIn.ActionKeeps | libvirt-sandbox/libvirt-sandbox-console-rpc.c:823-919 | every action of host, guest and terminal keeps the invariant of the session |
| SessionIn.RunOk | libvirt-sandbox/libvirt-sandbox-init-common.c:841-1290 | the invariant holds of every state of every run |
| SessionTheorems.MessagesArriveInOrder | libvirt-sandbox/libvirt-sandbox-console-rpc.c:832-874 | in both directions the messages dispatched are the first of those sent, however reads and writes are split |
| SessionTheorems.OutputIsPrefix | libvirt-sandbox/libvirt-sandbox-console-rpc.c:969-1011 | what the host wrote locally is a prefix of what the guest read from the application, on each stream |
| SessionTheorems.OutputIsComplete | libvirt-sandbox/libvirt-sandbox-console-rpc.c:677-688 | when the host is finished, or was closed normally after "exited", all output was written and the application is done |
| SessionOutput.OutputReachesUser | libvirt-sandbox/libvirt-sandbox-console-rpc.c:969-1011 | in every run in which the host has not failed, running or stopping, local writes alone show all standard output that it has received |
| SessionOutput.ErrorsReachUser | libvirt-sandbox/libvirt-sandbox-console-rpc.c:1031-1074 | the same of standard error, drained as meant |
| SessionOutput.OutputIsOffered | libvirt-sandbox/libvirt-sandbox-console-rpc.c:493-501 | as long as something received is not written, a write of any part of it is possible |
| SessionTheorems.InputIsPrefix | libvirt-sandbox/libvirt-sandbox-init-common.c:1069-1083 | the application is given a prefix of what was typed; its input is closed only after all of it; the guest never holds rx and pending input |
| SessionTheorems.InputIsComplete | libvirt-sandbox/libvirt-sandbox-init-common.c:1069-1083 | while host and guest run, what was typed is what the application was given, what the guest holds and what is on its way: no input is lost |
| SessionTheorems.NoProtocolFaults | libvirt-sandbox/libvirt-sandbox-init-common.c:989-1047 | no run reaches the error exits for bad bytes, lengths, headers or procedures, nor the second building of SYNC |
| SessionTheorems.CommandStartsAfterHandshake | libvirt-sandbox/libvirt-sandbox-init-common.c:1014-1047 | the command is started at most once, by the host's SYNC byte, when the guest's tx is empty and its own SYNC was taken |
| SessionTheorems.ExitIsLast | libvirt-sandbox/libvirt-sandbox-init-common.c:614-650 | serials are consecutive, EXIT is last and sent only when the application is done; "exited" reports the status reaped last before it, the application's own if and only if no later child left another |
| SessionShutdown.ShutdownTerminates | libvirt-sandbox/libvirt-sandbox-console-rpc.c:677-688 | once the application is done, every run without a failure has a bounded number of productive actions; until the console is closed, normally and with all output written, another one is possible |
| SessionShutdown.ShutdownCanComplete | libvirt-sandbox/libvirt-sandbox-console-rpc.c:802-805 | a run in which the application is done and nothing has failed can be completed with all output written if and only if stderr is drained as meant or the application wrote none |
| SessionProgress.HandshakeCanComplete | libvirt-sandbox/libvirt-sandbox-console-rpc.c:759-800 | every run in which nothing has failed can be continued until the command starts, whatever was swallowed or echoed |
| SessionProgress.HandshakeGoesOn | libvirt-sandbox/libvirt-sandbox-console-rpc.c:777-800 | in raw mode no action sets the handshake back unless something fails, and until the command is started one is possible that brings it closer to its end |
| SessionCut.PartIsNotWhole | libvirt-sandbox/libvirt-sandbox-rpcpacket.c:84-92 | packets followed by a part of one are never a sequence of packets |
| SessionCut.FramedUnlessCut | libvirt-sandbox/libvirt-sandbox-console-rpc.c:445-457 | when EXIT is dispatched, what has left for the guest is whole packets if and only if tx was empty or unsent |
| SessionCut.CutInputIsWrong | libvirt-sandbox/libvirt-sandbox-console-rpc.c:454-457 | a run in which the application is given a byte of QUIT in place of the byte typed |
| SessionRuns.ShutdownHangs | libvirt-sandbox/libvirt-sandbox-console-rpc.c:1041-1045 | a run in which one byte of standard error keeps the console from ever finishing |
| SessionRuns.ConsoleWedges | libvirt-sandbox/libvirt-sandbox-console-rpc.c:1055-1063 | a run in which 1024 bytes of standard error stop the console from reading for good |
| SessionRuns.OtherStatus | libvirt-sandbox/libvirt-sandbox-init-common.c:956-963 | a run in which the application leaves 256 and the host is told 0 |
| SessionRuns.QuitUnread | libvirt-sandbox/libvirt-sandbox-init-common.c:1079-1099 | a run in which the console is closed, all of QUIT is there, and the guest does not read it |
| HostConsoles.HostConsole.SetState | libvirt-sandbox/libvirt-sandbox-console-rpc.c:414-463 | the object changes state as the machine does |
| HostConsoles.HostConsole.UpdateEvents | libvirt-sandbox/libvirt-sandbox-console-rpc.c:465-602 | stdin is watched when running with nothing to send and no end of input, stdout and stderr when running or stopping with something queued, the stream for input when there is an rx and for output when there is a tx |
| HostConsoles.HostConsole.DispatchProc | libvirt-sandbox/libvirt-sandbox-console-rpc.c:613-700 | a frame is dispatched as by the machine; an error leaves the object alone |
| HostConsoles.HostConsole.ProcessPacketRx | libvirt-sandbox/libvirt-sandbox-console-rpc.c:703-756 | a received packet is processed as by the machine |
| HostConsoles.HostConsole.ProcessPacketTx | libvirt-sandbox/libvirt-sandbox-console-rpc.c:777-820 | a sent packet is processed as by the machine |
| HostConsoles.HostConsole.StreamReadWrite | libvirt-sandbox/libvirt-sandbox-console-rpc.c:823-915 | given what the receives and the send return: the receive loop, and then, unless it met the end of the stream or closed the console, one send of exactly the next bytes of tx; all of it is a run of the machine |
| HostConsoles.ReadingStops | libvirt-sandbox/libvirt-sandbox-console-rpc.c:832-874 | the receive loop stops only where there is nothing to receive into, the stream blocks, fails or ends, or the console is closed; it takes the first bytes and loses none |
| HostConsoles.ReadingIsGreedy | libvirt-sandbox/libvirt-sandbox-console-rpc.c:832-874 | a stream that always gives something is read until it is empty or rx is gone |
| HostConsoles.TurnStops | libvirt-sandbox/libvirt-sandbox-console-rpc.c:832-850 | one receive takes as many bytes as the stream gives, fit rx, and are there |
| HostConsoles.HostConsole.WaitTimer | libvirt-sandbox/libvirt-sandbox-console-rpc.c:759-774 | the handshake timer does what the machine's does |
| HostConsoles.HostConsole.StdinRead | libvirt-sandbox/libvirt-sandbox-console-rpc.c:925-966 | local input, its end, the escape character and a failed read do what the machine says |
| HostConsoles.HostConsole.StdoutWrite | libvirt-sandbox/libvirt-sandbox-console-rpc.c:969-1028 | a local write does what the machine says |
| HostConsoles.HostConsole.StderrWrite | libvirt-sandbox/libvirt-sandbox-console-rpc.c:1031-1091 | so does the stderr callback, in both forms |
| HostConsoles.HostConsole.Detach | libvirt-sandbox/libvirt-sandbox-console-rpc.c:1155-1209 | detaching empties the object and its sources |
| HostConsoles.RunThen | libvirt-sandbox/libvirt-sandbox-console-rpc.c:832-874 | one more event extends a run, the bytes it takes and the bytes it sends |
| GuestLoops.GuestLoop.AppoutReadable | libvirt-sandbox/libvirt-sandbox-init-common.c:1227-1250 | application output, or its end, does what the machine says |
| GuestLoops.GuestLoop.ChildReaped | libvirt-sandbox/libvirt-sandbox-init-common.c:948-969 | a reaped child does what the machine says |
| GuestLoops.GuestLoop.AppinWritable | libvirt-sandbox/libvirt-sandbox-init-common.c:1207-1226 | input taken by the application does what the machine says |
| GuestLoops.GuestLoop.HostBytes | libvirt-sandbox/libvirt-sandbox-init-common.c:985-1108 | bytes from the host do what the machine says, in every loop state |
| GuestLoops.GuestLoop.PollOnce | libvirt-sandbox/libvirt-sandbox-init-common.c:866-1280 | given what poll, the reads and the writes report, one turn does exactly the events of the turn as a value |
| GuestLoops.GuestLoop.EventLoop | libvirt-sandbox/libvirt-sandbox-init-common.c:841-1290 | with a report for each turn, the loop does exactly the events of these turns; it is a run of the machine that has taken the first of the incoming bytes |
| GuestService.OutputsServed | libvirt-sandbox/libvirt-sandbox-init-common.c:901-905 | while tx is empty a reported standard output is read, and its end noticed; standard error too, unless data of standard output has just filled tx |
| GuestService.StdinServed | libvirt-sandbox/libvirt-sandbox-init-common.c:1207-1226 | input held for the application is offered when it is reported writable: the next bytes are taken, or the rest is dropped |
| GuestService.HostOutServed | libvirt-sandbox/libvirt-sandbox-init-common.c:1111-1136 | a packet in tx is offered when the host device is reported writable: the next bytes are taken, or tx is dropped and the loop ends |
| GuestService.HostInServed | libvirt-sandbox/libvirt-sandbox-init-common.c:970-984 | a host device that is polled and reported readable is read: the next bytes are received, or its end is noticed |
| GuestService.OutputIsRead | libvirt-sandbox/libvirt-sandbox-init-common.c:866-1280 | with standard output reported and the host device taking a byte in every turn, output or its end is read after at most as many turns as tx has bytes left and one more |
| GuestService.ErrorsWait | libvirt-sandbox/libvirt-sandbox-init-common.c:1227-1275 | as long as standard output always has data, no byte of standard error is read |
| GuestLoops.ProcessAlike | libvirt-sandbox/libvirt-sandbox-init-common.c:986-1098 | what a complete packet does depends only on its bytes |
| Refinement.HostRunIsSession | libvirt-sandbox/libvirt-sandbox-console-rpc.c:823-915 | a callback of the host object on the session's streams is a run of the session |
| Refinement.GuestRunIsSession | libvirt-sandbox/libvirt-sandbox-init-common.c:841-1290 | turns of the guest's loop on the session's streams are a run of the session |
| RawMachine.NextOk | libvirt-sandbox/libvirt-sandbox-console-raw.c:384-520 | every callback keeps bytes and sources in order |
| RawMachine.BytesConserved | libvirt-sandbox/libvirt-sandbox-console-raw.c:384-520 | in each direction bytes accepted are bytes passed on and bytes queued, in at most 4096 places, until the console is closed |
| RawMachine.EscapeCloses | libvirt-sandbox/libvirt-sandbox-console-raw.c:453-487 | the escape character as the first byte closes the console, without an error and with nothing of that read passed on; no other read does |
| RawMachine.PartialWriteSticks | libvirt-sandbox/libvirt-sandbox-console-raw.c:490-520 | a local write that leaves something queued makes the console stuck if and only if it has no stdout |
| RawMachine.BecomesStuck | libvirt-sandbox/libvirt-sandbox-console-raw.c:510-517 | a run from the start after which a console without stdout is stuck |
| RawMachine.StuckForever | libvirt-sandbox/libvirt-sandbox-console-raw.c:287-307 | a stuck console never delivers another byte |
| RawMachine.MovesUnlessStuck | libvirt-sandbox/libvirt-sandbox-console-raw.c:245-335 | in every run queued output can be delivered if and only if the console is not stuck, and with stdout it never is |
| RawConsoles.MoveDown | libvirt-sandbox/libvirt-sandbox-console-raw.c:428-432 | memmove keeps the bytes after the first n, in order |
| RawConsoles.RawConsole.UpdateEvents | libvirt-sandbox/libvirt-sandbox-console-raw.c:245-335 | sources are created and removed as the machine says |
| RawConsoles.RawConsole.StreamReadWrite | libvirt-sandbox/libvirt-sandbox-console-raw.c:384-445 | the callback does what the machine says |
| RawConsoles.RawConsole.LocalRead | libvirt-sandbox/libvirt-sandbox-console-raw.c:453-487 | so does local input |
| RawConsoles.RawConsole.LocalWrite | libvirt-sandbox/libvirt-sandbox-console-raw.c:490-520 | so does local output |
| KeyFiles.GroupNamesDiffer | libvirt-sandbox/libvirt-sandbox-config.c:2499-2678 | no two records of any kind or index share a group |
| ConfigSave.SaveToKeyFile | libvirt-sandbox/libvirt-sandbox-config.c:2850-2866 | the new file names the class and version, holds every record in its own group, and has no other groups |
| ConfigSave.SaveConfig | libvirt-sandbox/libvirt-sandbox-config.c:2680-2753 | into a file that holds the group "api", as its only caller hands it over: every record is added in its own group, and nothing else changes |
| ConfigSave.Step | libvirt-sandbox/libvirt-sandbox-config.c:2493-2681 | writing one record leaves every other one as it was |
| ConfigObjects.SandboxConfig.LoadConfig | libvirt-sandbox/libvirt-sandbox-config.c:2343-2491 | the loops that load agree with the loading function, errors included |
| ConfigObjects.LoadFromKeyFile | libvirt-sandbox/libvirt-sandbox-config.c:2756-2803 | an object of the class that the file names, loaded from it; a missing or unknown class, one that is no configuration, and a failure to load are refused |
| ConfigObjects.LoadNetworkRecord | libvirt-sandbox/libvirt-sandbox-config.c:2219-2339 | one network with its loops over addresses and routes agrees with the loading function, errors included |
| ConfigObjects.LoadMountRecord | libvirt-sandbox/libvirt-sandbox-config.c:1984-2104 | so does one mount with its loop over includes |
| ConfigObjects.LoadLeading | libvirt-sandbox/libvirt-sandbox-config-interactive.c:129-146 | a list that ends with the first missing record, as the arguments do: up to that one, at most so many, or the first error |
| ConfigObjects.LoadPresent | libvirt-sandbox/libvirt-sandbox-config.c:2434-2455 | a list in which records may be missing, as environment variables and disks: those that there are, or the first error |
| ConfigRoundTrip.UsageBack | libvirt-sandbox/libvirt-sandbox-config.c:2027-2035 | a RAM size survives if and only if it is below 2^31 or is 2^64 - 1 |
| ConfigRoundTrip.RoundTrip | libvirt-sandbox/libvirt-sandbox-config-interactive.c:103-175 | loading a saved configuration, whose addresses are parsed as they were printed, into a new object gives it back if and only if it meets the stated bounds |
| ConfigRoundTrip.FileRoundTrip | libvirt-sandbox/libvirt-sandbox-config.c:2756-2803 | the same of the loader that first asks for the class: what it makes of a saved file is the configuration, under the same bounds |
| ConfigDefaults.MissingInNetwork | libvirt-sandbox/libvirt-sandbox-config.c:2228-2256 | a network without "dhcp" has DHCP, without its group there is none, and other missing keys are NULL |
| ConfigDefaults.MissingKeepsDefault | libvirt-sandbox/libvirt-sandbox-config.c:2343-2412 | a setting that is not in the file keeps its default; a missing security label is NULL |
| ConfigDefaults.MountsFound | libvirt-sandbox/libvirt-sandbox-config.c:2425-2432 | gaps are skipped: every mount that is there is loaded, in order |
| ConfigObjects.SaveAndLoad | libvirt-sandbox/libvirt-sandbox-config.c:2756-2866 | the same of the two programs, one after the other |
| NetworkOptions.ParamsJoin | libvirt-sandbox/libvirt-sandbox-config.c:936 | splitting loses nothing, yields at most 50 parameters, and only the 50th can hold a comma |
| NetworkOptions.AcceptedMeans | libvirt-sandbox/libvirt-sandbox-config.c:945-1134 | DHCP if and only if "dhcp" is given, and then no addresses or routes; routes only with addresses; both in the given order |
| NetworkTexts.AddressGiven | libvirt-sandbox/libvirt-sandbox-config.c:998-1056 | "address=A/P%B" adds the address with primary A, prefix length P and broadcast B, in its place; without "/P" the length is 24, without "%B" there is no broadcast; it is accepted if and only if A and B are addresses |
| NetworkTexts.RouteGiven | libvirt-sandbox/libvirt-sandbox-config.c:1057-1117 | "route=T/P%G" adds the route to T by gateway G, which must be given |
| NetworkTexts.LastGiven | libvirt-sandbox/libvirt-sandbox-config.c:958-997 | the last "source=", "mac=" and "filter=" count; without one there is none |
| NetworkTexts.SettingGiven | libvirt-sandbox/libvirt-sandbox-config.c:965-990 | "filter.N=V" adds the parameter N, in upper case, with the value V, in its place |
| NetworkTexts.SettingRefused | libvirt-sandbox/libvirt-sandbox-config.c:972-979 | a setting without "=" is refused |
| NetworkTexts.UnknownRefused | libvirt-sandbox/libvirt-sandbox-config.c:1118-1123 | a parameter of no kind is refused |
| NetworkTexts.OthersAddNothing | libvirt-sandbox/libvirt-sandbox-config.c:945-1125 | a parameter of another kind adds no address, route or setting |
| NetworkTexts.ParamsOfJoin | libvirt-sandbox/libvirt-sandbox-config.c:936 | parameters without commas that are joined by commas are split into the same parameters |
| NetworkTexts.UpperIs | libvirt-sandbox/libvirt-sandbox-config.c:981 | upper case changes the letters a to z and nothing else |
| NetworkOptions.OrderIsFree | libvirt-sandbox/libvirt-sandbox-config.c:945-1134 | whether parameters are accepted does not depend on their order |
| ConfigObjects.ParseParams | libvirt-sandbox/libvirt-sandbox-config.c:945-1134 | the loop with its three flags accepts exactly what the order-free condition accepts, and yields the network described |
| ConfigObjects.SandboxConfig.AddNetworkOpts | libvirt-sandbox/libvirt-sandbox-config.c:927-1143 | success appends exactly that network, failure leaves the list alone |
| DeviceNames.WriteMountCfg | libvirt-sandbox/libvirt-sandbox-builder-machine.c:278-350 | the text has one line for each mount, numbered per kind |
| DeviceNames.ConstructDiskCfg | libvirt-sandbox/libvirt-sandbox-builder.c:443-490 | the text has one line for each disk |
| DiskTags.SetupDiskTags | libvirt-sandbox/libvirt-sandbox-init-common.c:67-115 | the loop of the guest that reads the file and cuts its lines in place finds the links of the file |
| DiskTags.DiskLineSurvives | libvirt-sandbox/libvirt-sandbox-builder.c:467-474 | a line is read back as written if and only if its tag holds no tab or newline, its device no newline, and it fits 1023 bytes |
| DiskTags.DiskTagsAgree | libvirt-sandbox/libvirt-sandbox-builder.c:463-486 | from builder to guest: one link for each disk, from its tag to the device that is built from that disk, which no other device is named like with at most 256 disks and images |
| DeviceNames.ConstructDevices | libvirt-sandbox/libvirt-sandbox-builder-machine.c:501-628 | root file system if there is no mount for "/", config, disks, then mounts |
| DeviceNames.LinesNameDevices | libvirt-sandbox/libvirt-sandbox-builder-machine.c:309-335 | each line of mounts.cfg that needs a device names one that is built from that mount |
| DeviceNames.DeviceNamesAgree | libvirt-sandbox/libvirt-sandbox-builder-machine.c:552-625 | all names differ if and only if there are at most 256 disks and images; with at most 26 they are letters |
| GuestMounts.CutLine | libvirt-sandbox/libvirt-sandbox-init-qemu.c:240-250 | cutting the shared buffer in place leaves the four fields as strings of it |
| GuestMounts.LineSurvives | libvirt-sandbox/libvirt-sandbox-builder-machine.c:333-346 | a line is read back as written if and only if no field holds a separator and it fits 1023 bytes |
| GuestMounts.MountRoot | libvirt-sandbox/libvirt-sandbox-init-qemu.c:222-300 | the loop finds the first entry for "/", or falls back |
| GuestMounts.MountOthers | libvirt-sandbox/libvirt-sandbox-init-qemu.c:392-413 | the loop mounts every other entry in order |
| GuestMounts.GuestMountsConfig | libvirt-sandbox/libvirt-sandbox-init-qemu.c:222-300 | from builder to guest: first mount for "/" as root, fallback exactly when the builder added that device, all others once and in order |
| GuestMounts.FallbackServesRoot | libvirt-sandbox/libvirt-sandbox-init-qemu.c:298-300 | without a mount for "/" the guest mounts the read-only device with which the builder serves the root directory |
| GuestMounts.EntriesDescribe | libvirt-sandbox/libvirt-sandbox-builder-machine.c:309-335 | the entries that the guest parses back say of each mount, by its kind, the device or path, the type and the options that belong to it |
| UnmountOrder.SortIs | libvirt-sandbox/libvirt-sandbox-init-common.c:735-776 | the order is a permutation of the mount table, longest names first |
| UnmountOrder.DeepestFirst | libvirt-sandbox/libvirt-sandbox-init-common.c:735-776 | no directory comes before a mount point below it |
| UnmountOrder.UmountFs | libvirt-sandbox/libvirt-sandbox-init-common.c:744-797 | whatever umount refuses, an entry stays mounted if and only if it or something below it was refused; nothing stays if nothing is refused |
| MakeDirs.Filesystem.MountMkdir | libvirt-sandbox/libvirt-sandbox-init-qemu.c:86-115 | every directory above the path is made before it; it fails if and only if one of them is missing and refused, and then those above that one were made; nothing else changes |
| MakeDirs.AboveIs | libvirt-sandbox/libvirt-sandbox-init-qemu.c:89-98 | what is above a path are its beginnings, each above the next |
| MakeDirs.AboveIsAll | libvirt-sandbox/libvirt-sandbox-init-qemu.c:89-98 | and all of them |

## Left out

- The tty branch of the guest's loop, which sets tx without looking at it: the application has pipes here.
- The raw console's direct-pty callbacks, which write from the other direction's buffer: only the stream path is modelled.
- HostConsoles.HostConsole.Detach: does not model that the code only gives up its references to the local sources (`libvirt-sandbox-console-rpc.c:1175-1182`), so that one that is still attached to the main loop can fire once more; here they are gone.
- RawConsoles.RawConsole.Detach: the same of the raw console (`libvirt-sandbox-console-raw.c:755-761`).
- Configurations of other classes than the interactive one, which have loaders and savers of their own: `ConfigObjects.LoadFromKeyFile` only names the class.
- Attaching a console again after it was detached: the logs and theorems are about one attachment.
- Failures of the terminal calls that detaching and attaching make, and of the encoders, which cannot fail on data of these sizes.
- libvirt, GLib, poll, pty, termios and process calls: they appear as arbitrary results, partial counts and orders.
- One turn of the guest's loop services its descriptors in a fixed order; `GuestTurns` has that order; the machine of the guest allows any order and any number of sends after QUIT, which includes it.
- Reading on at once after a length word blocks the guest in the code; it is a separate event here.
- The text of a NULL and of an empty queue is not distinguished, since the code never keeps an empty queue that is not NULL.
- GuestLoops.GuestLoop.EventLoop: the loop is modelled for any given number of turns, since it need not end.
- ConfigSave.SaveConfig: that saving frees the strings of the environment table is memory management and left out.
- Over-mounting, where a mount hides another one's path, and races with other processes during unmounting.
- Links of disk tags that the file system refuses, as for a tag that is used twice, and device names of more than 159 disks, in which a letter is the character zero.
- Escaping, encodings and comments of key files: a key file is a map of groups to maps of keys.
- Numbers in key files and options are digits only: leading blanks and signs are not modelled.
- Names of enumeration values and of mount classes other than the four, and address parsing: the environment supplies them.
- An include in a file without "dst" makes the code use a NULL name; it is an error here.
- DeviceNames.DeviceNamesAgree: a letter that is the character zero, with more than 158 disks, would end the C string; here it is a character like others.
- The mode 755 without a leading zero that the guest passes for bind mounts, and the devices of networks, consoles and memory.
- Kernel, initrd, modules, decompression, security labels, start and stop, the command line tool: not modelled.
