# Verified model of the shells, servers and consoles

A Dafny model of the repository's protocol logic, with proofs. It covers the numbered-pipe shell in its original and
its generalised form, the two multi-user servers built on it, and the two web consoles with their SOCKS 4A proxy.

How it is built:

- **Shell engine.** `Routing` gives the meaning of a line without descriptor numbers: which pipe, file or socket every
  command gets. `Kernel` is a process with a descriptor table, an allocator that may return any unused number, and a
  record of every launch with its whole table. `ShellCore` and `NpShell` are the two implementations, proved against
  `Routing`; `Leftovers` says exactly which lines leave a pipe behind.
- **Servers.** `Registry` has both registries and the simulation between them, `RegistryRuns` their whole runs.
  `Sections`, `LockMachine` and `LockSafety` run the multi-process server store by store under every interleaving of
  processes and signal handlers; `Handover` and `StaleFlush` say
  to whom waiting messages are handed. `SharedMemory` is the segment with the loops that change it. `Ownership`,
  `ServerLedger` and `SingleServer` are the single-process server with every descriptor accounted for; `ServerWorld` is
  the same server without descriptor numbers. `ClientLines`, `ClientNames` and `ServerLoop` feed it the bytes its clients
  send; `TypedLines` says what the lines in those bytes do.
- **Consoles.** `Prompts` is prompt detection, `ConsoleModel` and `WebConsole` are the browser connection and its
  sessions under any order of completions, `ConsoleSessions` tells them from what their sockets answered, `Escapes` and `SocksEscapes` the two ways text gets into a page,
  `ConsolePages` what its reader then sees, `Socks` the requests and replies (the SOCKS 4A extension to section 1,
  CONNECT, of the SOCKS4 protocol).
- **Text.** `Parser` and `Printer` are command lines, `Requests` the servers' lines with user pipes in them,
  `Decimals` the numerals both servers read and write.

Where a stated guarantee is false of the code, the code is modelled as it is, an input shows the failure, and the exact
condition is proved:

- `Leftovers.RoutedExactly`: lines are routed as promised exactly if no empty command opens a segment or comes between a
  command that leaves an ordinary pipe and the next that runs, and no pipe is sent to the own segment or an earlier one;
  `Leftovers.CleanExactly` says which of these lines leave a pipe in the map.
- `SingleServer.Server.ExecuteLine`: descriptors are conserved exactly if `<N` finds its pipe just when the first command
  has arguments. A failed `<N` is closed twice (`ServerWorld.FailedReceiveUntidy`), an unused one never.
- `RegistryRuns.AgreeExactlyWhenNamesFit`: both servers stay in step exactly if names are shorter than 64 bytes and hold
  no zero byte; the shared buffer cuts others after the duplicate check.
- `Handover.HandedToOwner`: messages reach the login they were accepted for exactly if the process that flushes has not
  left (`StaleFlush.MessageAstray`).
- `Prompts.AttemptsArePrompts`: every prompt is answered exactly if no read completes two (`Prompts.TwoAtOnceLoseOne`).
- `Prompts.DetectorsAgreeExactly`: the two prompt detectors differ exactly at a prompt shared with an answered chunk.

Parameters stand for what the program asks the outside: whether a file could be opened (`openOk`, `opens`),
what a command file held (`loads`), which operation completes or what `select` reports next (`events`), which process
takes its next step (`actions`).

## Model

| member | source | states |
|---|---|---|
| Commands.BuildLinePlan | projects/02-rwg-server/shell_core.h:325-341 | every command gets the number of its segment, counted across the session, and the plan says how many segments the line has |
| Commands.BuildWaitability | projects/02-rwg-server/shell_core.h:218-236 | the shell waits for a command unless the last command of its segment is a numbered pipe |
| Commands.WaitsExactly | projects/02-rwg-server/shell_core.h:218-236 | a command runs unwaited if and only if ordinary pipes lead from it to one that ends in `|N` or `!N` |
| Commands.SegmentationsAgree | projects/02-rwg-server/shell_core.h:218-236 | the two loops cut a line alike: commands with one segment number share one wait flag, false exactly if the segment ends in a numbered pipe |
| Commands.SegmentNumbersConsecutive | projects/02-rwg-server/shell_core.h:325-341 | segment numbers of a line are consecutive, from 1 to the count, none skipped |
| Parser.IsNumberPipeToken | projects/02-rwg-server/shell_core.h:73-95 | true exactly for a marker followed by groups of digits joined by single plus signs |
| Parser.MarkedExactly | projects/02-rwg-server/shell_core.h:73-95 | the grammar of marked tokens and its character-by-character form are the same set |
| Parser.ParseNumberPipeCount | projects/02-rwg-server/shell_core.h:101-114 | the sum of the groups when every group and the total fit an int, and no count otherwise |
| Parser.ParseTokens | projects/02-rwg-server/shell_core.h:148-192 | the loop over tokens computes the left-to-right meaning of the line, including a `>` without a file and a count that throws |
| Printer.ParsePrint | projects/02-rwg-server/shell_core.h:148-192 | parsing undoes printing for every list of commands the syntax can express |
| Printer.ParsedIsPrintable | projects/02-rwg-server/shell_core.h:148-192 | everything a parse yields is expressible: plain words, only the last command leads nowhere |
| Printer.UnderstoodAgain | projects/02-rwg-server/shell_core.h:148-192 | printing what was understood of any line and reading it again changes nothing |
| Printer.ParseLine | projects/02-rwg-server/shell_core.h:148-192 | a whole line of text, split at white space, gives the commands its tokens mean |
| Printer.LineRoundTrip | projects/02-rwg-server/shell_core.h:137-192 | the same for whole lines of text, split at white space |
| Requests.IsUserPipeToken | projects/02-rwg-server/np_single_proc.cpp:135-149 | true exactly for the marker followed by digits |
| Requests.ParseCommands | projects/02-rwg-server/np_single_proc.cpp:151-190 | a line means the commands it has without its user pipes and, of each kind, the last pipe written; a number beyond an int is refused |
| Requests.PipesAnywhere | projects/02-rwg-server/np_single_proc.cpp:175-178 | a user pipe may stand anywhere but after `>`: the commands stay the same |
| Requests.LastTieCounts | projects/02-rwg-server/np_single_proc.cpp:175-178 | of several user pipes of one kind on a line the last one counts, wherever it stands |
| Requests.RequestReadsBack | projects/02-rwg-server/np_single_proc.cpp:151-190 | reading undoes writing, for every list of commands with every pair of user pipes |
| Requests.RequestUnderstoodAgain | projects/02-rwg-server/np_single_proc.cpp:151-190 | whatever a line asks for can be written down and is understood the same again |
| Routing.SessionRouted | projects/02-rwg-server/shell_core.h:497-545 | in every session of well-formed lines, as `RoutedExactly` needs them, each segment's first command reads one pipe written by exactly the commands that sent to the segment, or none; later commands read a feeding predecessor's pipe or none; what waits is addressed ahead |
| Routing.RunLineSound | projects/02-rwg-server/shell_core.h:497-545 | one well-formed line, with whatever descriptors the caller lends, keeps the routing invariant of the session |
| Routing.BuiltinSound | projects/02-rwg-server/shell_core.h:289-323 | a builtin uses up a segment and drops the pipe addressed to it, and keeps the invariant |
| Routing.SessionRecords | projects/02-rwg-server/shell_core.h:397-446 | in every session, whatever came before: a command's segment is counted on from all segments used, builtins included; it runs unless it has no arguments or its file cannot be opened; a forced output comes before a file, a file before a pipe, a pipe before the caller's output; errors follow the output into a `!N` pipe and go to the caller otherwise; a lent input is the first command's |
| Routing.BuiltinDropsItsPipe | projects/02-rwg-server/shell_core.h:298-323 | in every session a builtin uses one segment, removes exactly the pipe sent to that segment, and in any continuation no command has that segment and nobody reads what was sent to it |
| Routing.StepSound | projects/02-rwg-server/shell_core.h:505-536 | one turn of the command loop keeps the invariant inside a well-formed line, empty commands included |
| Leftovers.CleanExactly | projects/02-rwg-server/shell_core.h:497-545 | a line keeps every waiting pipe addressed ahead if and only if no segment starts with an empty command while its pipe waits or may come, and no count points backwards or at its own segment |
| Leftovers.EmptyStartLeaves | projects/02-rwg-server/shell_core.h:507-514 | a segment that starts with an empty command leaves its pipe in the map for good |
| Leftovers.BackwardSendLeaves | projects/02-rwg-server/shell_core.h:435-446 | a count of zero or less leaves a pipe nobody will read |
| Leftovers.RoutedExactly | projects/02-rwg-server/shell_core.h:497-545 | a line keeps every sound session routed, whatever it is lent and whichever files can be opened, if and only if every segment starts with a real command, no pipe is sent to the own segment or an earlier one, and no empty command stands between a command that leaves an ordinary pipe and the next that runs |
| Leftovers.UnsafeUnsound | projects/02-rwg-server/shell_core.h:507-514 | an unsafe line breaks the promise in a session that reaches it from the start |
| Leftovers.StrayRead | projects/02-rwg-server/shell_core.h:506-536 | behind an empty command, the next command that runs reads the pipe left before the gap, whatever its segment |
| Leftovers.EmptyCommandMisroutes | projects/02-rwg-server/shell_core.h:507-514 | `ls | |1 cat`: the command of the second segment reads what nobody sent to it |
| Kernel.Process.Pipe | projects/02-rwg-server/shell_core.h:128-135 | two unused numbers, the two ends of a pipe that has never existed |
| Kernel.CloseFd | projects/02-rwg-server/shell_core.h:116-121 | a set descriptor variable is closed and unset, an unset one is left alone; closing a closed number is counted |
| Kernel.ClosePipe | projects/02-rwg-server/shell_core.h:123-126 | both ends are closed, once each when they were open |
| ShellCore.DiscardIncomingPipe | projects/02-rwg-server/shell_core.h:289-296 | exactly the two ends of the pipe to that segment are closed and its entry erased; everything else stays |
| ShellCore.ExecuteShellBuiltin | projects/02-rwg-server/shell_core.h:298-323 | setenv and printenv act on the environment, count one more segment and drop exactly the pipe addressed to it; anything else changes nothing |
| ShellCore.AttachIncomingNumberedPipe | projects/02-rwg-server/shell_core.h:343-357 | the read end becomes the input unless there is one, the other descriptors of the pipe are closed once, the entry is gone |
| ShellCore.TargetPipe | projects/02-rwg-server/shell_core.h:435-439 | the pipe of the target segment, made on first use and found afterwards |
| ShellCore.PrepareIoPlan | projects/02-rwg-server/shell_core.h:397-446 | exactly one output route, in the order forced output, file, ordinary pipe, numbered pipe, caller's output; a file that cannot be opened closes the input |
| ShellCore.CloseNumberedPipesInChild | projects/02-rwg-server/shell_core.h:366-373 | the child closes exactly the numbered pipes |
| ShellCore.CloseExtraFdsInChild | projects/02-rwg-server/shell_core.h:375-381 | the child closes the listed descriptors above the standard ones |
| ShellCore.BindStandard | projects/02-rwg-server/shell_core.h:451-459 | the three standard descriptors are bound to the planned routes |
| ShellCore.RunChildProcess | projects/02-rwg-server/shell_core.h:448-488 | the table the child starts its command with, exactly |
| ShellCore.ForkCommand | projects/02-rwg-server/shell_core.h:522-525 | one more launch, with the planned routes, holding none of the shell's plumbing |
| ShellCore.ReleaseParent | projects/02-rwg-server/shell_core.h:533-535 | the parent closes what only the child needs and carries the next input over |
| ShellCore.RunCommand | projects/02-rwg-server/shell_core.h:506-536 | one command of a line does what the abstract step does, and closes nothing twice |
| ShellCore.ExecuteExternalCommands | projects/02-rwg-server/shell_core.h:497-545 | a line moves the shell exactly as the abstract session says; no descriptor is closed twice; open descriptors are the old ones, less a lent input taken, with the numbered pipes the map now names |
| ShellCore.CloseShellState | projects/02-rwg-server/shell_core.h:547-552 | every numbered pipe is closed once and nothing else |
| NpShell.ConservativeExtension | projects/01-npshell/shell_core.h:367-463 | with the default configuration the later engine takes the same steps as the original shell's: same launches, pipes, numbers and counter |
| NpShell.PlaySound | projects/01-npshell/shell_core.h:254-289 | every session of the original shell whose lines of commands are well formed is routed as promised |
| NpShell.ShellSession.constructor | projects/01-npshell/shell_core.h:300-301 | a session starts with no numbered pipe and no executed segment |
| NpShell.ShellSession.PrepareIoPlan | projects/01-npshell/shell_core.h:428-463 | one output route, in the original's order |
| NpShell.ShellSession.CloseOwnIo | projects/01-npshell/shell_core.h:492-506 | the child closes its copies of the plan's descriptors and no others |
| NpShell.ShellSession.RunChildProcess | projects/01-npshell/shell_core.h:465-490 | the table the child starts its command with, exactly |
| NpShell.ShellSession.TryRunBuiltin | projects/01-npshell/shell_core.h:331-347 | setenv, printenv and exit drop exactly the pipe addressed to them; the first two count one more segment |
| NpShell.ShellSession.ExecuteExternalCommands | projects/01-npshell/shell_core.h:367-410 | a line moves the session as the abstract shell says and closes nothing twice |
| NpShell.ShellSession.Run | projects/01-npshell/shell_core.h:254-289 | over a whole session, every command started holds exactly descriptors 0, 1 and 2, bound to the routes of its line; nothing is closed twice; the shell itself keeps only 0, 1, 2 and its numbered pipes |
| Registry.LeastUnused | projects/02-rwg-server/np_single_proc.cpp:415-422 | the least id from 1 to 30 that nobody has |
| Registry.FirstOffline | projects/02-rwg-server/np_multi_proc.cpp:520-534 | the first slot that is not online |
| Registry.Simulates | projects/02-rwg-server/np_single_proc.cpp:238-329 | every login, logout, name the shared buffer keeps, tell, yell, receive and send is decided alike by both servers, tells the same users the same things, and keeps the registries in step |
| Registry.Cut | projects/02-rwg-server/np_multi_proc.cpp:91-93 | what a buffer keeps of a text: everything before its first zero byte, one byte less than the buffer at most, and as much as that allows |
| Registry.LoginAgrees | projects/02-rwg-server/np_multi_proc.cpp:517-537 | a login takes the same id in both servers, or is turned away by both |
| Registry.LogoutAgrees | projects/02-rwg-server/np_single_proc.cpp:435-450 | a logout ends the same pipes in both servers |
| Registry.NameAgrees | projects/02-rwg-server/np_multi_proc.cpp:297-324 | a name that the shared buffer keeps, shorter than 64 bytes and without a zero byte, is accepted by both or by neither |
| Registry.PipeAgrees | projects/02-rwg-server/np_multi_proc.cpp:357-412 | `<N` and `>N` find the same pipes in both servers |
| RegistryRuns.RunKeepsLinks | projects/02-rwg-server/np_single_proc.cpp:424-450 | in every run ids lie in 1..30 and both ends of every user pipe are online |
| RegistryRuns.RunKeepsNames | projects/02-rwg-server/np_single_proc.cpp:238-255 | in every run two clients share a name only if neither has chosen one |
| RegistryRuns.LoginTakesLeastId | projects/02-rwg-server/np_single_proc.cpp:415-478 | a new client gets the least free id, and is turned away exactly when all thirty are taken |
| RegistryRuns.PipesAreStandingSends | projects/02-rwg-server/np_single_proc.cpp:307-327 | a user pipe exists exactly while the last thing that happened to it is an accepted send |
| RegistryRuns.ReceiveConsumesOneSend | projects/02-rwg-server/np_single_proc.cpp:284-305 | every accepted receive consumes exactly one earlier send of the current logins, and no send is consumed twice |
| RegistryRuns.SendAlternates | projects/02-rwg-server/np_single_proc.cpp:307-327 | a send is accepted exactly when no earlier one still stands |
| RegistryRuns.ServersAgree | projects/02-rwg-server/np_multi_proc.cpp:297-446 | over whole runs with names of at most 63 bytes and no zero byte both servers reply alike and stay in step |
| RegistryRuns.AgreeExactlyWhenNamesFit | projects/02-rwg-server/np_multi_proc.cpp:303-312 | a rename keeps every pair of agreeing registries in agreement if and only if the name is shorter than 64 bytes and holds no zero byte |
| Sections.MicroUnderway | projects/02-rwg-server/np_multi_proc.cpp:81-89 | a locked region nobody disturbs ends, store by store, with exactly its one-step effect |
| Sections.CleanupUnderway | projects/02-rwg-server/np_multi_proc.cpp:539-558 | the loop that clears the flags of a user, one peer at a time |
| Sections.AssignUnderway | projects/02-rwg-server/np_multi_proc.cpp:517-537 | the scan for a free slot and the two stores that fill it |
| Sections.FlushUnderway | projects/02-rwg-server/np_multi_proc.cpp:144-157 | the loop that hands the queue over, one message at a time |
| LockMachine.ReachInv | projects/02-rwg-server/np_multi_proc.cpp:81-89 | the invariant of the lock under every interleaving of processes and handlers: the lock word, who is inside, how far the region is, who owns which slot |
| LockMachine.NextKeeps | projects/02-rwg-server/np_multi_proc.cpp:81-89 | one test-and-set, store, release, start of a region or interruption keeps it |
| LockSafety.MutualExclusion | projects/02-rwg-server/np_multi_proc.cpp:81-89 | never two places inside a locked region, a handler counted apart from the program it interrupts |
| LockSafety.ServingIdsDistinct | projects/02-rwg-server/np_multi_proc.cpp:517-558 | processes between assignUser and cleanupUser hold distinct ids, and these are exactly the online slots |
| LockSafety.Serializable | projects/02-rwg-server/np_multi_proc.cpp:144-179 | every interleaving amounts to running its finished regions one after another, results included |
| LockSafety.CommitsOnlyGrow | projects/02-rwg-server/np_multi_proc.cpp:81-89 | what has been committed is never revised |
| LockSafety.PresenceAgrees | projects/02-rwg-server/np_multi_proc.cpp:357-412 | whatever the names, presence and pipes under the lock are those of the single-process server |
| LockSafety.PipesLinkOnlineUsers | projects/02-rwg-server/np_multi_proc.cpp:539-558 | in every reachable state a set flag joins two users each of whom is online or is just being cleaned up by the process inside; while nobody is inside, both are online |
| LockSafety.TakeConsumesOneMake | projects/02-rwg-server/np_multi_proc.cpp:357-412 | every flag taken was set by exactly one earlier region of the current logins, in every interleaving |
| LockSafety.RefinesSingleServer | projects/02-rwg-server/np_multi_proc.cpp:297-446 | as long as the shared buffer keeps the names, any interleaving decides every event as the single-process server would, and online names are unique |
| LockSafety.MessagesConserved | projects/02-rwg-server/np_multi_proc.cpp:144-179 | since a slot was last reset, messages handed over and then those queued are the accepted ones, cut at their first zero byte and to 2047 bytes, in order; a flush in progress has handed over a prefix; never more than 64 wait |
| Handover.HandedToOwner | projects/02-rwg-server/np_multi_proc.cpp:144-157 | whatever a flush hands over was accepted for one login, the one the slot serves, all of it and in order; it goes to the client of that login if and only if the flushing process has not run cleanupUser |
| StaleFlush.MessageAstray | projects/02-rwg-server/np_multi_proc.cpp:144-157 | a run in which a handler that comes after cleanupUser hands over what was accepted for the next client of its slot |
| StaleFlush.Section | projects/02-rwg-server/np_multi_proc.cpp:81-89 | from every reachable state with nobody inside, any section a process may run next can be run to its end alone, with its one-step effect |
| SharedMemory.SharedState.constructor | projects/02-rwg-server/np_multi_proc.cpp:55-59 | a fresh segment: nobody online, no flag, no message |
| SharedMemory.SharedState.AssignUser | projects/02-rwg-server/np_multi_proc.cpp:517-537 | the loop over the slots is the one-step login |
| SharedMemory.SharedState.ClearFlags | projects/02-rwg-server/np_multi_proc.cpp:546-555 | row and column of the user are cleared, and exactly the pipes that were there are listed |
| SharedMemory.SharedState.CleanupUser | projects/02-rwg-server/np_multi_proc.cpp:539-558 | the one-step logout, with the name to announce and the pipes to unlink |
| SharedMemory.SharedState.Rename | projects/02-rwg-server/np_multi_proc.cpp:297-316 | the duplicate scan of the whole name and the name as the buffer keeps it are the one-step rename |
| SharedMemory.SharedState.TakePipe | projects/02-rwg-server/np_multi_proc.cpp:359-373 | the flag is cleared exactly when the sender is online and it was set |
| SharedMemory.SharedState.MakePipe | projects/02-rwg-server/np_multi_proc.cpp:400-414 | the flag is set exactly when the receiver is online and it was not set |
| SharedMemory.SharedState.Deliver | projects/02-rwg-server/np_multi_proc.cpp:158-179 | the message goes behind the others, as its buffer keeps it, unless the 64 places are full; the pid to signal |
| SharedMemory.SharedState.Flush | projects/02-rwg-server/np_multi_proc.cpp:144-157 | all waiting messages, in order, and an empty queue |
| Ownership.OwnedExactly | projects/02-rwg-server/np_single_proc.cpp:42-67 | the open descriptors are exactly the standard, listening, client, numbered-pipe and user-pipe ones, and no descriptor has two owners |
| Ownership.ShellMoves | projects/02-rwg-server/np_single_proc.cpp:373-380 | a shell that changes only its own pipes leaves every other owner's descriptors as they were |
| ServerWorld.RunKeeps | projects/02-rwg-server/np_single_proc.cpp:505-555 | over every run, whatever is written, clients, sockets, shells and pipes stay in step and no pipe serves two purposes |
| ServerWorld.EveryClientRouted | projects/02-rwg-server/np_single_proc.cpp:345-383 | in every run the commands of a client whose own lines since it came are well formed are routed as promised, whatever the other clients write and whatever pipes they hand it |
| ServerWorld.FailedReceiveUntidy | projects/02-rwg-server/np_single_proc.cpp:284-295 | `cat <5` with nobody at number 5 is not tidy, so that by `ExecuteLine` it does not leave the descriptors intact |
| ServerWorld.NamesStayUnique | projects/02-rwg-server/np_single_proc.cpp:238-255 | over every run two clients share a name only if neither has chosen one |
| ServerWorld.UserPipeEndToEnd | projects/02-rwg-server/np_single_proc.cpp:282-329 | the last command of the sending line writes the very pipe that the first command of the receiving line reads |
| ServerWorld.StartedAreNoted | projects/02-rwg-server/np_single_proc.cpp:371-380 | over every run, what an input starts is what its client's shell notes as run, and each command is barred from every pipe then between users and every numbered pipe of its shell |
| ServerWorld.LineRecorded | projects/02-rwg-server/np_single_proc.cpp:361-380 | what becomes of each command of a line follows from the line, the client's socket and the pipes or /dev/null it is lent |
| ServerWorld.ReceiveRefused | projects/02-rwg-server/np_single_proc.cpp:284-295 | `<N` without a pipe: the writer alone hears which of both reasons, and the first command reads /dev/null |
| ServerWorld.SendRefused | projects/02-rwg-server/np_single_proc.cpp:307-319 | `>N` to nobody or over a pipe that stands: the writer alone hears which, and the last command writes to /dev/null |
| SingleServer.Server.constructor | projects/02-rwg-server/np_single_proc.cpp:65-67 | an empty server that owns its listening socket, with nothing else open above the standard descriptors |
| SingleServer.Server.SmallestUnusedId | projects/02-rwg-server/np_single_proc.cpp:415-422 | the least free id, or -1 |
| SingleServer.Server.AcceptClient | projects/02-rwg-server/np_single_proc.cpp:452-478 | a new client with the least free id, a default name and a fresh shell, or a connection closed again; greeting and announcement |
| SingleServer.Server.CleanupClientUserPipes | projects/02-rwg-server/np_single_proc.cpp:424-433 | every pipe from or to the user is closed once and forgotten, no other |
| SingleServer.Server.CleanupClient | projects/02-rwg-server/np_single_proc.cpp:435-450 | the client's socket, numbered pipes and user pipes are closed once each, the rest is untouched, the others are told |
| SingleServer.Server.AdvanceSegment | projects/02-rwg-server/np_single_proc.cpp:233-234 | a builtin counts one more segment of its client, drops exactly the pipe addressed to it, and changes no other client |
| SingleServer.Server.HasName | projects/02-rwg-server/np_single_proc.cpp:241-248 | whether any client has the name |
| SingleServer.Server.SetName | projects/02-rwg-server/np_single_proc.cpp:238-255 | the rename of the registry, its announcements, one segment |
| SingleServer.Server.TellUser | projects/02-rwg-server/np_single_proc.cpp:257-270 | the message to the target or the complaint to the sender, one segment |
| SingleServer.Server.YellAll | projects/02-rwg-server/np_single_proc.cpp:272-277 | the message to everybody, one segment |
| SingleServer.Server.ResolveInput | projects/02-rwg-server/np_single_proc.cpp:284-305 | a found pipe is lent and its write end closed; otherwise a complaint and /dev/null |
| SingleServer.Server.ResolveOutput | projects/02-rwg-server/np_single_proc.cpp:307-327 | a new pipe whose ends stay with the server; otherwise a complaint and /dev/null |
| SingleServer.Server.CloseUserPipeResolution | projects/02-rwg-server/np_single_proc.cpp:331-334 | the books balance afterwards if and only if no input was lent, or it was a pipe the first command took, or /dev/null it did not take |
| SingleServer.Server.CollectUserPipeFds | projects/02-rwg-server/np_single_proc.cpp:336-343 | exactly the ends of the user pipes |
| SingleServer.Server.PrepareLine | projects/02-rwg-server/np_single_proc.cpp:371-379 | the shell of the client, the descriptors its line is lent, and every end of a user pipe to be closed in its children |
| ServerLedger.NothingBarred | projects/02-rwg-server/np_single_proc.cpp:336-343 | whatever the server has open while a line runs, the children close it, or it is no end of a pipe between users and of no pipe that shell has ever made |
| SingleServer.Server.ExecuteLine | projects/02-rwg-server/np_single_proc.cpp:345-383 | a line of commands leaves nothing closed twice and nothing open that the server does not hold if and only if its `<N` succeeds just when the first command has arguments; then its effect is exactly the abstract one. Its commands start with their routes, in order; where pipes are kept apart, as `RunKeeps` says of every run, they hold beyond the standard descriptors no end of a pipe between users nor of a numbered pipe of their shell |
| SingleServer.Server.Serve | projects/02-rwg-server/np_single_proc.cpp:505-555 | over a whole run of such lines the server does and says what the world without descriptor numbers does, has started exactly the commands of that world with their routes and in order, each without an end of the pipes it is barred from, and has open exactly what it holds |
| ServerWorld.RegistryIsTraced | projects/02-rwg-server/np_single_proc.cpp:282-329 | the registry of a run is that of its registry events in order, so what is proved of every sequence of events, such as which send a receive consumes, holds of every run |
| ClientLines.JoinWords | projects/02-rwg-server/np_single_proc.cpp:200-209 | the words from a position on, joined by single spaces |
| ClientLines.JoinOneMore | projects/02-rwg-server/np_single_proc.cpp:200-209 | one more word adds one space and the word |
| ClientLines.ReadOrder | projects/02-rwg-server/np_single_proc.cpp:345-368 | the dispatch of a line: a carriage return dropped, `exit`, the builtins and their arguments, or commands; the event loop runs on it |
| ClientLines.OrderReadsBack | projects/02-rwg-server/np_single_proc.cpp:211-280 | every order that can be carried out can be written on a line, and the line is understood as exactly that order |
| ClientLines.FirstLine | projects/02-rwg-server/np_single_proc.cpp:492-495 | up to the first line end is the first line, whatever follows stays for later |
| ClientLines.ReadTwice | projects/02-rwg-server/np_single_proc.cpp:491-502 | a client's bytes read in two pieces have exactly the effect of the same bytes read at once |
| ClientLines.ServedItsLines | projects/02-rwg-server/np_single_proc.cpp:480-503 | whatever the fragmentation and whatever the others do, each client has been served exactly the lines of its own bytes since it came, each once and in order, up to an `exit`; what is kept of it is its unfinished line |
| ClientLines.RosterIsClients | projects/02-rwg-server/np_single_proc.cpp:415-478 | in every run the clients of the registry are those that came, by the least free id, and have not left |
| ClientNames.NamesUnique | projects/02-rwg-server/np_single_proc.cpp:238-255 | over all bytes clients may send, two of them share a name only if neither has chosen one |
| TypedLines.TypedOrder | projects/02-rwg-server/np_single_proc.cpp:346-348 | a line is understood alike with and without one carriage return at its end, the text repeated in notices included |
| TypedLines.BuiltinTakesEffect | projects/02-rwg-server/np_single_proc.cpp:211-280 | from bytes: when a client's line has its turn, `name`, `tell`, `yell` and `who` have exactly their effect, told by who is there: who hears what, what the names become, one segment used, no other client touched |
| TypedLines.ArrivalTakesEffect | projects/02-rwg-server/np_single_proc.cpp:452-478 | a connection gets the least free number, the default name and a fresh shell, is welcomed, and everybody hears of it; with thirty clients nothing happens |
| TypedLines.EndTakesEffect | projects/02-rwg-server/np_single_proc.cpp:435-450 | at the end of its input everything of a client is gone, with the pipes from and to it, and the others hear of it |
| TypedLines.ExitTakesEffect | projects/02-rwg-server/np_single_proc.cpp:491-502 | the same for a line `exit`, and nothing the client wrote behind it is carried out |
| TypedLines.TellNobodyFalls | projects/02-rwg-server/np_single_proc.cpp:257-259 | `tell` to something that does not begin like a number ends the server: no line is carried out after it |
| TypedLines.CommandsTakeTurn | projects/02-rwg-server/np_single_proc.cpp:151-190 | from bytes: a line of commands asks for just those commands with the users written behind `<` and `>`, each for its own end, and its own text |
| TypedLines.EnvironmentTakesTurn | projects/02-rwg-server/np_single_proc.cpp:366-369 | `setenv` or `printenv` alone uses up a segment; user pipes written beside it are neither taken nor made |
| TypedLines.SharedPipe | projects/02-rwg-server/np_single_proc.cpp:282-329 | from bytes: if a client writes a line with `>b` while no such pipe exists, and b later writes the next one with `<a`, both staying, then the first is carried out as a send to b and the second as a receive from a, everybody hears of both, and the last command of the one writes the pipe the first command of the other reads |
| ServerLoop.EventLoop.constructor | projects/02-rwg-server/np_single_proc.cpp:42-67 | nobody is there and nothing has happened |
| ServerLoop.EventLoop.AcceptClient | projects/02-rwg-server/np_single_proc.cpp:452-478 | a newcomer gets the least unused id and an empty buffer, or is turned away |
| ServerLoop.EventLoop.ExecuteLine | projects/02-rwg-server/np_single_proc.cpp:345-358 | one line has its effect; afterwards there is somebody to read on exactly unless it said `exit` or raised an exception |
| ServerLoop.EventLoop.HandleClientInput | projects/02-rwg-server/np_single_proc.cpp:480-503 | the loop over the buffer works off exactly the complete lines and keeps the rest; nothing after `exit` is carried out |
| ServerLoop.EventLoop.Run | projects/02-rwg-server/np_single_proc.cpp:505-555 | whatever select reports in whatever order |
| ServerLoop.RunServer | projects/02-rwg-server/np_single_proc.cpp:505-555 | from bytes to descriptors: for all bytes in any pieces and any interleaving, as long as the lines are tidy, the server has done and said what the world without descriptor numbers does for those lines, has started exactly its commands, none with an end of a pipe it is barred from, nothing was closed twice, and open is exactly what it holds |
| Prompts.FindPrompt | projects/03-http-cgi-console/console_components.cpp:450-452 | whether the text holds the two-character prompt |
| Prompts.ChunkTriggersExactly | projects/03-http-cgi-console/console_components.cpp:448-457 | however the stream is cut, a chunk triggers exactly when a prompt of the whole stream has its space in it |
| Prompts.AttemptsBounded | projects/03-http-cgi-console/console_components.cpp:448-457 | never more attempts than prompts received |
| Prompts.AttemptsArePrompts | projects/03-http-cgi-console/console_components.cpp:448-457 | every prompt gets its attempt if and only if no chunk completes two |
| Prompts.SplitDoesNotMatter | projects/03-http-cgi-console/console_components.cpp:448-457 | when no chunk completes two prompts the number of attempts does not depend on the cuts |
| Prompts.TwoAtOnceLoseOne | projects/03-http-cgi-console/console_components.cpp:448-457 | a stream and two ways to cut it that give one attempt and two |
| Prompts.PromptTail.ReceivedPrompt | projects/04-socks-proxy/console_components.hpp:280-288 | true exactly when everything since the last true result, with this chunk, holds a prompt; chunks may be empty |
| Prompts.TailSuffices | projects/04-socks-proxy/console_components.hpp:280-288 | one remembered character decides as well as the whole text |
| Prompts.Detect | projects/04-socks-proxy/console_components.hpp:280-288 | the detector fed chunk by chunk fires exactly where what was received since its last prompt holds one |
| Prompts.DetectorsAgreeExactly | projects/04-socks-proxy/console_components.hpp:280-288 | at every chunk the detector with one character finds a prompt if and only if the one with a flag does, except exactly where a prompt is shared between a chunk already answered and the next one |
| Prompts.SharedPromptIsLost | projects/04-socks-proxy/console_components.hpp:280-288 | `% %` and then a space: the second prompt is found by one console and missed by the other |
| ConsoleModel.OrderedDrain | projects/03-http-cgi-console/cgi_server.cpp:95-138 | never two writes in flight; until a write fails, what is written and then what is pending is everything ever enqueued, in order |
| ConsoleModel.ClosedExactlyWhenDone | projects/03-http-cgi-console/cgi_server.cpp:86-145 | without a write error the connection is closed exactly when every session has said goodbye and everything is written; nobody says goodbye twice; it is closed once |
| ConsoleModel.FailedWriteEnds | projects/03-http-cgi-console/cgi_server.cpp:124-137 | after a failed write the connection is closed and nothing more is written, whatever the sessions still show |
| ConsoleModel.CommandsFollowPrompts | projects/03-http-cgi-console/console_components.cpp:438-481 | commands sent are the first of the file, in order, one for each chunk with a prompt as far as the file goes, never more than prompts received |
| ConsoleModel.ColumnsAreStreams | projects/03-http-cgi-console/console_components.cpp:448-481 | whatever the timing of the other sessions, the column of a session gets its stream in order and the commands it sent |
| ConsoleModel.FinishedIsSilent | projects/03-http-cgi-console/console_components.cpp:483-498 | a finished session neither changes nor shows anything |
| ConsoleSessions.SessionsTold | projects/03-http-cgi-console/console_components.cpp:407-481 | for every history of completions in the order the sockets give them, a session waits for exactly the operation that history calls for, and its chunks, sent commands and end are those of the history |
| ConsoleSessions.ReadsExactlyWhen | projects/03-http-cgi-console/console_components.cpp:438-481 | in every reachable state an unfinished session waits to read if and only if it has connected and its latest command, if any, was written |
| ConsoleSessions.NothingLost | projects/03-http-cgi-console/console_components.cpp:438-460 | until a session ends, what it has received is exactly the sequence of chunks its socket gave, none ignored |
| ConsoleSessions.ColumnInOrder | projects/03-http-cgi-console/console_components.cpp:438-481 | what is enqueued for a session, text and commands in one order, is exactly what its completions show, whatever the other sessions do |
| ConsoleSessions.PageFirst | projects/03-http-cgi-console/cgi_server.cpp:54-66 | in every reachable state the first thing given to the browser connection is the page, and everything behind it is a script |
| ConsoleModel.ReachInv | projects/03-http-cgi-console/cgi_server.cpp:68-145 | the invariant of connection and sessions under every order of completions, also when a session finishes inside start |
| WebConsole.CgiHttpSession.Enqueue | projects/03-http-cgi-console/cgi_server.cpp:95-101 | the output goes to the end; a write begins if none was under way |
| WebConsole.CgiHttpSession.DoWrite | projects/03-http-cgi-console/cgi_server.cpp:103-138 | the next write, or the close of a drained connection |
| WebConsole.CgiHttpSession.OnWritten | projects/03-http-cgi-console/cgi_server.cpp:124-137 | a completed write leaves the queue; a failed one ends the connection |
| WebConsole.CgiHttpSession.CloseWhenDrained | projects/03-http-cgi-console/cgi_server.cpp:140-145 | closed at once if nothing is pending, by the last write otherwise |
| WebConsole.CgiHttpSession.RemoteDone | projects/03-http-cgi-console/cgi_server.cpp:86-93 | one session less; the last one closes |
| WebConsole.RemoteBatchSession.Start | projects/03-http-cgi-console/console_components.cpp:395-405 | the commands of the file, or the complaint and the end |
| WebConsole.RemoteBatchSession.OnRead | projects/03-http-cgi-console/console_components.cpp:438-460 | the chunk is shown, then a command is sent, or the next read begins, or the session ends |
| WebConsole.RemoteBatchSession.SendNextCommand | projects/03-http-cgi-console/console_components.cpp:462-481 | the next command of the file, or the end |
| WebConsole.RemoteBatchSession.Finish | projects/03-http-cgi-console/console_components.cpp:483-498 | once, and once only, the session says goodbye |
| WebConsole.ConsoleRequest.StartRemoteSessions | projects/03-http-cgi-console/cgi_server.cpp:68-84 | all sessions are counted before the first is started; without any the connection drains and closes |
| WebConsole.ConsoleRequest.Run | projects/03-http-cgi-console/cgi_server.cpp:54-84 | the objects, under any order of completions, are in the state the model reaches |
| Escapes.HtmlEscape | projects/03-http-cgi-console/console_components.cpp:61-94 | the loop computes the character-wise escape |
| Escapes.JsStringEscape | projects/03-http-cgi-console/console_components.cpp:96-120 | the loop computes the character-wise escape |
| Escapes.EscapedConcat | projects/03-http-cgi-console/console_components.cpp:61-120 | escaping distributes over concatenation |
| Escapes.HtmlShows | projects/03-http-cgi-console/console_components.cpp:61-94 | decoding the entities gives the text without carriage returns |
| Escapes.JsReadsBack | projects/03-http-cgi-console/console_components.cpp:96-120 | a literal ends exactly at its closing quote, whatever follows, and its value is the text without carriage returns |
| Escapes.BuildConsoleScript | projects/03-http-cgi-console/console_components.cpp:363-378 | the script of a piece of content |
| Escapes.ScriptAdds | projects/03-http-cgi-console/console_components.cpp:363-378 | a script, both its literals read as a browser reads them, names the element `s` and the number of its session and appends the escaped content to it, bold if it is a command |
| Escapes.ElementsDiffer | projects/03-http-cgi-console/console_components.cpp:363-378 | two sessions write to the same element if and only if they are the same session |
| Escapes.NoTagInside | projects/03-http-cgi-console/console_components.cpp:363-378 | escaped content holds no angle bracket, so it cannot end the script element |
| Escapes.FragmentsShowTheSame | projects/03-http-cgi-console/console_components.cpp:448-449 | what is displayed does not depend on read fragmentation |
| SocksEscapes.HtmlEscape | projects/04-socks-proxy/console_components.hpp:110-135 | the loop computes the character-wise escape |
| SocksEscapes.JsEscape | projects/04-socks-proxy/console_components.hpp:137-172 | the loop computes the byte-wise escape, with two hex digits for what cannot be printed |
| SocksEscapes.JsReadsBack | projects/04-socks-proxy/console_components.hpp:137-172 | a literal ends exactly at its closing quote and its value is the text without carriage returns, two-digit hex included |
| SocksEscapes.ShownText | projects/04-socks-proxy/console_components.hpp:308-314 | the two escapes of the output, undone by the browser, show the text without carriage returns |
| SocksEscapes.ShownCommand | projects/04-socks-proxy/console_components.hpp:296-297 | a command is shown in bold whatever it contains |
| SocksEscapes.NothingLeftToMisread | projects/04-socks-proxy/console_components.hpp:137-172 | no bracket, ampersand, line end or unprintable byte is left in the literal |
| SocksEscapes.FragmentsShowTheSame | projects/04-socks-proxy/console_components.hpp:270-271 | the values of the JavaScript literals, read one after the other and displayed, show the stream without its carriage returns however it was cut |
| ConsolePages.RenderedCarries | projects/03-http-cgi-console/console_components.cpp:363-378 | what is written to the browser for an output, read back, appends exactly its text to the element of its session |
| ConsolePages.ElementInOrder | projects/03-http-cgi-console/console_components.cpp:363-481 | from the bytes of all scripts: the element of a session holds exactly what its own completions show, text and commands in one order, nothing of the other sessions |
| ConsolePages.ColumnShowsStream | projects/03-http-cgi-console/console_components.cpp:438-498 | in every reachable state the column of a session, decoded, shows its stream and its complaint without carriage returns, however the stream was cut and interleaved |
| Socks.ParseIpv4 | projects/04-socks-proxy/socks_server.cpp:131-141 | four numbers modulo 256, zeros for anything that is not four pieces, an exception for a piece without a number |
| Socks.AddressRoundTrip | projects/04-socks-proxy/socks_server.cpp:79-84 | every four-byte address is found again from its text |
| Socks.BuildSocks4aRequest | projects/04-socks-proxy/console_components.hpp:365-380 | 4, 1, the two bytes of the port modulo 65536, 0.0.0.1, an empty user id and the host, each ended by a zero |
| Socks.ReadNullTerminated | projects/04-socks-proxy/socks_server.cpp:100-111 | everything before the next zero byte, leaving what follows; or the connection ends first |
| Socks.ReadSocksRequest | projects/04-socks-proxy/socks_server.cpp:113-129 | the request at the head of the stream and the unread rest; or the connection ends first |
| Socks.PlainRequestRead | projects/04-socks-proxy/socks_server.cpp:113-129 | in bytes: for every address but 0.0.0.x with x not 0, the request has no domain, port 256 * high + low, and exactly what follows the user id is left unread |
| Socks.NamedRequestRead | projects/04-socks-proxy/socks_server.cpp:113-129 | in bytes: for 0.0.0.x with x not 0, the zero-terminated name behind the user id is the domain |
| Socks.RequestReadsBack | projects/04-socks-proxy/socks_server.cpp:113-129 | every proper request is read back and exactly what follows it is left |
| Socks.ReadRequestsEncode | projects/04-socks-proxy/socks_server.cpp:113-129 | whatever is read is a proper request whose bytes are exactly those consumed |
| Socks.Negotiate | projects/04-socks-proxy/console_components.hpp:365-380 | the server's reader applied to the client's bytes and any suffix gives version 4, CONNECT, that port and that host, and leaves the suffix |
| Socks.WriteSocksReply | projects/04-socks-proxy/socks_server.cpp:143-158 | the eight bytes of a reply: zero, the code, the port, the address |

## Left out

- Waiting for and reaping children, blocking, pipe capacity, end of file and liveness: only launches and descriptor effects are modelled.
- The environment a child gets: `ShellState.env` is modelled, `clearenv` and `setenv` in the child are not.
- Exact wording of messages: notices are constructors that name everything the text mentions.
- The `who` table and the prompts: the segment `who` uses up is modelled, the rows are not.
- FIFO files, `holdFd` and the order of `mkfifo` and `unlink`: in the multi-process server the flag table is the state.
- Sending a broadcast is one look at the online users and one delivery each: in the registry it is idealised as one step; under the lock each delivery is a region of its own.
- `endpoint` of a new user is read without the lock in `serveClient`; the model takes it from the same login.
- Killing a process in the middle of a region: a region that has begun is not cut off.
- SingleServer.Server.TryShellBuiltin: what `printenv` writes to its client is a result of `ShellCore.ExecuteShellBuiltin` and not among the server's messages.
- The text of a notice is compared between the servers before the buffer for messages cuts it and before the queue of 64 may refuse it; `LockSafety.MessagesConserved` says what is kept.
- ServerLoop.EventLoop.ExecuteLine: speaks of tidy lines, like `SingleServer.Server.Serve`.
- ServerLoop.EventLoop.HandleClientInput: the same, for the lines completed by what was read.
- ServerLoop.RunServer: the same, for all lines.
- ServerLoop.EventLoop.Run: like `SingleServer.Server.Serve`, speaks of runs in which every line is tidy.
- ShellCore.ForkCommand: a command of one client may inherit descriptors of other clients that the caller did not list; only the shell's own plumbing, the lent descriptors and the listed ones are excluded, because the code closes no others.
- SingleServer.Server.Serve: speaks of runs in which every line is tidy; after an untidy line the server's books are wrong and `ExecuteLine` says so, but nothing is claimed about what happens then.
- A client's shell is copied into a `ShellState` object for the time of a line and stored back, instead of living inside the client; the `online` flag of a client is its presence in the map.
- The original shell's parser, which is the later one without `+`: only its engine is modelled.
- A sum of `+` groups beyond an int is undefined in the program; the model treats it like a group that is, as an exception.
- The read loop of the multi-process server: the same as the single-process one's, which is modelled.
- A read interrupted by a signal changes nothing and is not an event of the model.
- `ServerWorld.Who` stands for every builtin that only uses up a segment: `who`, and `name` or `tell` without arguments.
- `remotes_` of the CGI session is held by an object of its own, `WebConsole.ConsoleRequest`.
- Environment and file system of the original shell: its environment is kept in the same map as the later one's.
- The page templates, the panel, URL decoding, the HTTP request line and the CGI process: plumbing.
- The firewall, the time limit, BIND and the relay threads of the proxy: files, clock and threads.
- The SOCKS reply the console waits for: only its second byte matters to it.
- Characters beyond a byte do not occur in the consoles; `SocksEscapes` leaves them as they are.
