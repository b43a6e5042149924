# Verified model of the Grass transfer server

This project models the part of the Grass server and client in which threads, sockets and sessions meet,
and proves what holds in every run of it.

* **The transfer protocol** (`FtpState`, `Protocol*`). Each connection has one command thread and, per
  direction, worker threads created by `get` and `put`. They share one `ftp_data_t` under the mutex
  `clean_lock`. `Protocol` is a small-step transition system of the server side: every unlocked assignment
  and every instruction of `ftp_clean` is a step, results of system calls are chosen by the action, a
  cancelled worker dies only at a cancellation point (`pthread_mutex_lock` is none, section 2.9.5.2 of
  POSIX.1-2017 XSH), and workers are numbered in the order of their creation, so a run may start any
  number of them. `ProtocolInvariant` and `ProtocolPreservation` hold the joint invariant and its proof,
  `ProtocolTheorems` its consequences. `ProtocolDoom`, `ProtocolListener` and `ProtocolLeaks` give the exact
  conditions for what the code does not guarantee, `ProtocolWitness` builds runs in which it fails.
  `FtpData` is the same structure as a class whose methods run a critical section as a whole.
* **The byte transfer** (`Numbers`, `ByteTransfer`, `Download`): `file_send` and `file_recv` with their 32-bit
  and 64-bit arithmetic, over any split into chunks, joined by a channel that is a queue of bytes; and a
  whole get, from the size in the server's reply to the file on the client's side.
* **The text of commands and replies** (`Tokens`, `Reply`, `Replace`): `tokenize_cmd`, the replies to get
  and put and their parser on the client, `findAndReplaceAll`.
* **The command session** (`Errors`, `Session`, `CommandTable`, `LineEffects`, `SessionTheorems`, `Connection`):
  the command table, the dispatcher, the handlers that change the session, and whole runs of command lines.
  `Session` is the specification, `Connection` the class whose methods update the fields as the C++ code does
  and are proved equal to it. `LineEffects` says what each line does in terms of its words alone, and the
  theorems about runs speak of these words.
* **Session and protocol together** (`Commanded`): every worker thread goes back to a command line, which names
  its file.
* **The registry** (`Registry`): the server's list of connections.

What the code does not keep is stated exactly:

* The command thread joins a worker while it holds `clean_lock`. It can get past the join exactly if that worker
  is neither at its start nor waiting for the lock; this is decided when the command thread has the lock and
  finds the flag up, before the cancellation is sent (`JoinReturnsIff`). Otherwise both wait for ever. That
  deadlock is reachable (`DeadlockIsReachable`), final (`DeadlockIsFinal`), the only cyclic wait
  (`OnlyCyclicWait`), and the only way to get stuck (`ExactProgress`).
* `setup_ftp` tests `port_open` under the lock, but the flag that keeps the port alive is raised after the
  lock is released. In between, a worker of the other direction may tear the port down. After this race the
  command's worker calls `accept` on a closed socket (`AcceptOnClosedSocket`), and the clean-up closes the
  same number again (`ListenerClosedTwice`). In every run, `accept` is called on an open socket with port
  `ftp_port` exactly if there has been no race since `setup_ftp` last created one (`AcceptIff`), and exactly
  then the teardown closes an open one (`CloseIff`); until the next one is created the socket stays lost
  (`RaceLosesListener`).
* While `port_open` is false, `setup_ftp` creates a listening socket and overwrites `ftp_socket` and
  `ftp_port`, even if a worker of the other direction has still to accept. The old socket then stays open for
  ever, and nobody accepts any more on the port that worker's client was told (`LeftOpenForever`,
  `PutOrphansListener`). A socket is left behind exactly if an open one was overwritten (`LeftBehindIff`),
  that is, if one was created while the other direction was flagged and its socket not lost in a race
  (`ListenersAreExact`); nothing else outlives the connection (`NothingStaysOpen`). The announced port is
  right exactly if there was no such race and `setup_ftp` created no socket in between (`AnnouncedPort`).
* The reply to a get reads the size after the worker was started and without the lock; it is right exactly
  while that worker has not reset it (`ReplyIsExact`, `ReplyCanBeWrong`); when a port is announced
  at all is `ReplyPortIsExact`.
* A file of 2^31 bytes or more is sent in part or not at all, without an error (`SendsAllIff`). `file_recv`
  returns a complete size as it is exactly below 2^31 (`CompleteRunReturns`); the sizes the program passes come
  from `atoi`, and for these its result tells success from failure (`ResultTellsSuccess`). It does not notice
  a short write (`RecvStoresWhatArrived`, `ShortWriteSucceeds`).
* `cd` removes every occurrence of the root directory from the new path, and `logout` resets only the absolute
  directory: the two working directories may disagree (`CdMayDisagree`, `LogoutMayDisagree`). When they agree
  is stated for one call (`CdAgreesIff`, `LogoutAgreesIff`) and after any run (`AgreementAfterRun`).
* With an empty pattern `findAndReplaceAll` never ends (`EmptyPatternRunsForever`).

## Model

| member | source | states |
|---|---|---|
| ProtocolTheorems.SocketIsStable | src/ftp.cpp:78-142 | in every interleaving a worker whose ftp_connect has succeeded finds port_open true and the same, open transfer socket until it clears its own flag or is cancelled |
| ProtocolTheorems.LinkRun | src/ftp.cpp:199-214 | over any run a connected worker keeps the socket it connected to, or has begun its clean-up |
| ProtocolTheorems.OneWorkerPerDirection | src/ftp.cpp:158-214 | at most one worker per direction is not yet cleaned up; it is the registered one and has its flag up, so its own check_ftp never returns and the code behind it never runs |
| ProtocolTheorems.CleanupIsSafe | src/exit.cpp:62-71 | after thread_cleanup's two check_ftp calls every worker is gone and, in every continuation, no step takes or drops clean_lock or reads or writes the transfer data: any other contents give the same run |
| ProtocolTheorems.LeavingRun | src/exit.cpp:66-70 | with all workers gone, a run from the end of the connection commutes with replacing the transfer data by anything |
| ProtocolTheorems.LockDiscipline | src/ftp.cpp:49-61 | clean_lock is taken only when free and released only by its owner, no other step moves it, and no worker dies by cancellation while owning it |
| ProtocolTheorems.LockBalance | src/ftp.cpp:49-142 | over every run the acquisitions equal the releases, but for the one still held, the unlock before pthread_exit included |
| ProtocolTheorems.JoinedOnce | src/ftp.cpp:80-96 | a thread is joined at most once, only after cancelling it took effect, and never after it left through pthread_exit |
| ProtocolTheorems.OnlyCyclicWait | src/ftp.cpp:49-96 | a cycle of waiting threads, of any length, exists exactly if the command thread joins, with the lock, a worker that wants the lock; no other worker is on any cycle |
| ProtocolTheorems.ExactProgress | src/ftp.cpp:49-142 | the server side can do nothing but wait for a command exactly if all workers have ended and the command thread rests, or the join deadlock has drawn in every worker left |
| ProtocolTheorems.DeadlockIsFinal | src/ftp.cpp:79-96 | from the join deadlock every continuation stays in it |
| ProtocolDoom.JoinReturnsIff | src/ftp.cpp:49-96 | once the command thread has the lock and is going to cancel a worker, some continuation gets past the join exactly if that worker is neither at its start nor waiting for the lock; otherwise every continuation stays there |
| ProtocolDoom.JoinReturnsUnaided | src/ftp.cpp:80-96 | the join returns without any further instruction of a worker exactly if the worker is dead already, in fopen, in or about to start its transfer, or in the messages after it: a worker blocked in sendfile or recv is ended there |
| ProtocolDoom.CmdCleans | src/ftp.cpp:78-121 | the steps of ftp_clean, run by the command thread, give the values of Cleaned and CleanedKernel |
| ProtocolDoom.StopsTransfer | src/ftp.cpp:49-96 | check_ftp in the middle of a transfer cancels and joins the worker and cleans its direction |
| ProtocolDoom.ConnectionEnds | src/exit.cpp:62-71 | for any get there is a run in which the connection ends during the transfer, the worker cancelled and joined once |
| ProtocolWitness.DeadlockIsReachable | src/ftp.cpp:80-83 | for any two gets there is a run from the initial state into the join deadlock |
| ProtocolTheorems.SocketConservation | src/ftp.cpp:106-139 | whenever the lock is free, the accepted sockets still open (numbers above 1) are exactly the transfer socket if port_open, else none, and port_open implies sending or receiving |
| ProtocolTheorems.SocketClosedOnce | src/ftp.cpp:111-113 | close of the transfer socket always closes a descriptor that is open |
| ProtocolTheorems.FileConservation | src/ftp.cpp:84-104 | a direction's open files are exactly its stored handle, and a cleared flag means none |
| ProtocolTheorems.FilesOpenAndCloseInTurn | src/ftp.cpp:164-185 | fopen runs only when nothing is open in that direction, and fclose gets an open handle |
| ProtocolTheorems.WorkerUsesItsJob | src/cmd.cpp:398-419 | a worker opens the path and transfers the size set by the command that spawned it, on the socket it connected, whatever commands come later |
| ProtocolTheorems.WorkersWereAskedFor | src/cmd.cpp:394-458 | the workers ever started are, as a multiset, among the gets and puts of the run: none starts two |
| ProtocolTheorems.ReplyIsExact | src/cmd.cpp:456 | the size announced by a get is that of its file exactly if the worker has not reset it yet (or it is 0) |
| ProtocolWitness.ReplyCanBeWrong | src/cmd.cpp:454-456 | for every nonempty file there is a run in which the reply announces another size and the port -1 |
| ProtocolListener.AcceptIff | src/ftp.cpp:123-142 | in every run, a worker calls accept on an open listening socket whose port is ftp_port exactly if there has been no race since setup_ftp last created one; else that number is closed |
| ProtocolListener.CloseIff | src/ftp.cpp:106-109 | in every run, a teardown that begins will close an open listening socket exactly if there has been no race since setup_ftp last created one; else it closes a number that is closed already |
| ProtocolListener.ListenerClosedTwice | src/ftp.cpp:107-109 | for any get and put there is a run in which close(ftp_socket) is about to close a number that the connection has closed before |
| ProtocolLeaks.LeftOpenForever | src/ftp.cpp:34-47 | a listening socket that is open when setup_ftp creates another stays open on its port in every continuation, and ftp_socket never names it again |
| ProtocolLeaks.LeftBehindIff | src/ftp.cpp:63-75 | in every run a listening socket other than ftp_socket is open (numbers above 1) exactly if setup_ftp has overwritten an open one |
| ProtocolLeaks.ListenersAreExact | src/ftp.cpp:63-75 | in every run, ftp_socket is the only open listening socket (numbers above 1) exactly if setup_ftp created none while the other direction was flagged with its own socket not lost in a race |
| ProtocolLeaks.NothingStaysOpen | src/exit.cpp:62-71 | after thread_cleanup's two check_ftp calls no file is open, no accepted socket above 1, and no listening socket above 1 exactly if none was overwritten in the run |
| ProtocolLeaks.RebindsWhileClosed | src/ftp.cpp:66 | setup_ftp creates a listening socket only while the port is closed |
| ProtocolLeaks.LowNumbersStay | src/ftp.cpp:107-113 | a socket with the number 0 or 1 is never closed |
| ProtocolLeaks.AnnouncedPort | src/cmd.cpp:456 | the port announced in a reply is that of the open socket on which the command's worker accepts exactly if no race came before the reply and setup_ftp created no listening socket in between |
| ProtocolLeaks.PutOrphansListener | src/cmd.cpp:408-421 | for any get and put there is a run without the race in which the get is announced port 5000, and before its worker connects the put replaces the socket: the first one stays open for ever and nobody accepts on it |
| ProtocolListener.ReplyPortIsExact | src/cmd.cpp:421 | in every run, the reply to a transfer still flagged announces a port exactly if there was no race since the socket was created, unless a teardown is just resetting it; without a race a port is announced exactly while one is due, and -1 otherwise |
| ProtocolListener.RaceLosesListener | src/ftp.cpp:106-109 | after the race and its close, ftp_socket stays closed, whatever commands arrive, until setup_ftp creates another socket |
| ProtocolListener.AcceptOnClosedSocket | src/cmd.cpp:408-419 | for any get and put there is a run in which the put's worker accepts on the socket the get's worker has closed |
| ProtocolPreservation.StepKeeps | src/ftp.cpp:49-214 | every enabled step of every thread keeps the joint invariant on lock, workers, flags, sockets, files and jobs |
| ProtocolInvariant.InitInv | src/ftp.cpp:20-32 | the initial transfer data satisfies the joint invariant |
| ProtocolWitness.WorkerCleans | src/ftp.cpp:78-121 | the steps of ftp_clean, run by a worker without interference, give the values of Cleaned and CleanedKernel, a free lock and an exiting thread |
| ProtocolWitness.Setup | src/ftp.cpp:63-75 | the steps of setup_ftp, run without interference, give the fields of Listening, as FtpData.SetupFtp does |
| ProtocolWitness.Connect | src/ftp.cpp:123-142 | the steps of connect_ftp_server, run without interference, give the fields of Connecting, as FtpData.ConnectServer does |
| ProtocolWitness.GetRefused | src/cmd.cpp:431-441 | a get whose file is refused leaves its path behind and starts no worker |
| ProtocolWitness.TransferEnds | src/ftp.cpp:174-197 | after its transfer, whatever the result, a worker cleans its direction, frees the lock and exits |
| ProtocolWitness.FilenoFails | src/ftp.cpp:169-173 | a worker whose fileno fails does the same without a transfer |
| FtpState.RestIsCleaned | src/ftp.cpp:84-116 | executing ftp_clean's assignments one by one equals the closed form of its effect on fields and descriptors |
| FtpDataClass.FtpData.constructor | src/ftp.cpp:20-32 | the fields of a new connection |
| FtpDataClass.FtpData.FtpClean | src/ftp.cpp:78-121 | ftp_clean computes Cleaned on the fields and closes exactly what CleanedKernel says |
| FtpDataClass.FtpData.ResetLane | src/ftp.cpp:79-105 | the first part of ftp_clean closes the direction's file and clears its fields, and leaves everything else |
| FtpDataClass.FtpData.TearDown | src/ftp.cpp:106-116 | the teardown closes the listening and the transfer socket if their numbers are above 1 and resets all but the listening socket's number |
| FtpDataClass.FtpData.CheckFtp | src/ftp.cpp:49-61 | check_ftp cleans the direction if its flag is up, stops the registered thread if asked to, and otherwise changes nothing |
| FtpDataClass.FtpData.SetupFtp | src/ftp.cpp:63-75 | setup_ftp sets the fields to Listening, recording a new port and listening socket only if the port is closed, and fails exactly if creating them does |
| FtpDataClass.FtpData.ConnectServer | src/ftp.cpp:123-142 | connect_ftp_server sets the fields to Connecting, storing an accepted socket and opening the port only if it is closed, and fails exactly if accept does |
| FtpDataClass.BothCleaned | src/exit.cpp:64-65 | cleaning both directions commutes and leaves the initial fields but for the listening socket's number, the thread ids and the user |
| FtpDataClass.CleanOneSide | src/ftp.cpp:78-116 | cleaning one direction leaves the other's fields alone, and closes the shared socket exactly if the other is idle |
| ByteTransfer.FileSend | src/ftp.cpp:310-325 | file_send puts a beginning of the file into the socket, as long as the announced size (as an int) and the file allow, and returns its length, or an error if a call failed |
| ByteTransfer.SendsAllIff | src/ftp.cpp:310-325 | without a failing call the whole file is sent exactly if its size is at most 2^31-1; else a part or nothing is, and the result is no error |
| ByteTransfer.SendReturns | src/ftp.cpp:320-324 | file_send returns -121 exactly if a call failed, else the number of bytes sent |
| ByteTransfer.FileRecv | src/ftp.cpp:327-355 | file_recv writes the longest run of leading chunks that fits the size, never more, and its result says whether the run adds up to the size or what came next |
| ByteTransfer.RecvSucceedsIff | src/ftp.cpp:327-355 | file_recv returns the size exactly if the size is the total of some run of leading chunks written without failure; for size 0, if no recv fails |
| ByteTransfer.RecvErrors | src/ftp.cpp:334-353 | an unsuccessful file_recv returns -123 exactly if a write failed, or a recv after the first chunk, and -119 otherwise |
| ByteTransfer.WritesAllThatFits | src/ftp.cpp:334-349 | whatever the result, every leading chunk that keeps the total within the size is written, and never more than size bytes |
| ByteTransfer.ChunksAreSmall | src/ftp.cpp:331-334 | a recv asks for at most 256 bytes and at most the size |
| ByteTransfer.RecvStoresWhatArrived | src/ftp.cpp:341-345 | after success the file holds the bytes that arrived exactly if every write was full |
| ByteTransfer.ShortWriteSucceeds | src/ftp.cpp:341-354 | two bytes arrive, one is written, and the result is success |
| ByteTransfer.CompleteRunReturns | src/ftp.cpp:354 | for every size, what a complete run returns: the size exactly up to 2^31-1, and exactly which sizes look like an error |
| ByteTransfer.NegativeSizeFails | src/cmd.cpp:406 | a size announced as a negative number makes file_recv return an error on every stream shorter than 2^64-2^31 bytes |
| ByteTransfer.ResultTellsSuccess | src/client.cpp:140 | for every size that comes from atoi, a result that is not negative means exactly that the announced number of bytes arrived |
| Numbers.ThroughSize | src/cmd.cpp:406 | an int stored as a size_t converts back to itself, and is small exactly if it is not negative |
| ByteTransfer.NothingLost | src/ftp.cpp:310-355 | at every moment of every interleaving the bytes received and those queued in the channel make up the bytes sent, a beginning of file_send's stream |
| ByteTransfer.EndToEnd | src/ftp.cpp:218-243 | what file_send put into the channel goes to file_recv: for every file, interleaving and chunking, a successful receiver with full writes has the first bytes of the file, as many as announced to it |
| ByteTransfer.DrainedTransfer | src/ftp.cpp:218-243 | with the file's size announced, no failing call and everything sent and taken, both sides report success |
| Download.Delivers | src/ftp.cpp:218-243 | the guarantee of a whole get: success with full writes means the client has the file, and an undisturbed transfer succeeds |
| Download.Get | src/client.cpp:131-146 | the server's reply, its parse, file_send, the channel and file_recv composed: the client takes over port and size, and the transfer delivers the file |
| ReplyText.AtoiPrinted | src/client.cpp:124-140 | atoi recovers a printed number exactly if it is an int |
| ReplyText.AtoiReads | src/cmd.cpp:406 | atoi skips white space, takes a sign, stops at the first character that is no digit, and gives 0 without digits |
| ReplyText.GetReplyWords | src/cmd.cpp:456 | the words of a get reply, numbers at positions 2 and 4 |
| ReplyText.GetReplyRoundTrip | src/cmd.cpp:456 | tokenizing and parsing the reply to a get recovers exactly the port and the size printed, up to 2^31-1 |
| ReplyText.PutReplyRoundTrip | src/cmd.cpp:421 | tokenizing and parsing the reply to a put recovers exactly the port printed |
| ReplyText.ClientFtp.CheckResponse | src/client.cpp:112-151 | which replies start which worker, which fields they set, and that any other reply changes nothing |
| ReplyText.ReceiveGetReply | src/client.cpp:131-147 | printing a get reply and receiving it sets the client's port and size to the server's numbers |
| Tokens.StrTok | src/utils.cpp:204-214 | strtok delivers the next word and goes on behind it |
| Tokens.TokenizeCmd | src/utils.cpp:199-218 | tokenize_cmd fills its output with the first six words, newline dropped, or stops at the first one that is too long |
| Tokens.WordsOfLayout | src/utils.cpp:199-218 | tokenizing inverts laying words out with any positive runs of spaces between them and any at the ends |
| Tokens.WordsAreWords | src/utils.cpp:204-214 | every token is nonempty and free of spaces |
| Replace.FindAndReplaceAll | src/utils.cpp:95-107 | the loop ends for every nonempty pattern, even one inside the replacement, and computes the left-to-right replacement |
| Replace.FirstInIsFirst | src/utils.cpp:97-105 | the search finds an occurrence and skips none |
| Replace.ReplacedJoins | src/utils.cpp:95-107 | if a string is cut at the pattern from left to right, its result is the same pieces joined by the replacement, and the number of replacements is one less than that of the pieces |
| Replace.CanBeCut | src/utils.cpp:95-107 | every string can be cut that way |
| Replace.ReplacedByItself | src/utils.cpp:95-107 | replacing a pattern by itself gives the string back |
| Replace.ReplacedLength | src/utils.cpp:95-107 | the length changes by the number of replacements times the difference of the lengths |
| Replace.RemovalChangesNothing | src/utils.cpp:95-107 | removing the pattern changes nothing exactly if it does not occur |
| Replace.RemovalLeavesNothing | src/utils.cpp:95-107 | removing the pattern leaves nothing exactly of a row of copies of it |
| Replace.EmptyPatternRunsForever | src/utils.cpp:95-107 | with an empty pattern there is a next turn after any number of turns |
| CommandTable.LookupFindsEntry | src/cmd.cpp:12-28 | the names of the table are distinct, so looking a name up is a function that finds its own entry |
| CommandTable.NamedLine | src/cmd.cpp:40-74 | what becomes of a line that names a command, counting all of its words: the cap of six never makes a wrong arity look right |
| CommandTable.RunsIff | src/cmd.cpp:51-74 | a handler runs exactly if the line names a command, has its number of words, and the user is authenticated where needed |
| CommandTable.TableParams | src/cmd.cpp:12-28 | the table gives every handler as many arguments as it reads, and guards all but login, pass, ping and exit |
| LineEffects.LaidOutSays | src/utils.cpp:199-218 | any words that fit, laid out with spaces and a newline, are what the line says |
| LineEffects.EveryNameDispatches | src/cmd.cpp:12-28 | for each of the fifteen names written out: its number of arguments, its guard, and the handler that runs, with the line's own words |
| LineEffects.OtherNames | src/cmd.cpp:76-80 | a line with any other first word runs no handler |
| LineEffects.RunsCommand | src/cmd.cpp:51-74 | a handler that runs goes back to a line with its name and number of words, and an authenticated user where needed |
| LineEffects.RefusedLine | src/cmd.cpp:31-46 | what becomes of a line that is too long, has a word that is too long, is empty, or names no command |
| LineEffects.RefusedCommand | src/cmd.cpp:56-68 | a command with a wrong number of words, or without the authentication it needs, changes only the reply |
| LineEffects.LoginLine | src/cmd.cpp:86-95 | a login line keeps the name it supplies, and answers a too long one with an error |
| LineEffects.PassLine | src/cmd.cpp:97-135 | a pass line in every case: refused, or checked against the name kept, with the session and reply that follow |
| LineEffects.LogoutLine | src/cmd.cpp:201-207 | a logout line clears auth and puts pwd back to root, and changes nothing else |
| LineEffects.ExitLine | src/cmd.cpp:209-219 | an exit line sets exit |
| LineEffects.MkdirLine | src/cmd.cpp:235-285 | when mkdir refuses a name, and that otherwise it asks for that name in the working directory |
| LineEffects.CdLine | src/cmd.cpp:287-348 | when cd refuses, which path the shell is asked for, and what both directories become |
| LineEffects.GetLine | src/cmd.cpp:425-458 | which file a get sends, with which size, its errors, and its reply |
| LineEffects.PutLine | src/cmd.cpp:394-423 | where a put stores its file, the size parsed from the line, its errors, and its reply |
| LineEffects.OutputLine | src/cmd.cpp:221-233 | the remaining commands change only the reply |
| LineEffects.PathErrorTexts | src/utils.cpp:122-175 | what the client reads for each error code about paths |
| LineEffects.SizeErrorTexts | src/utils.cpp:122-175 | what the client reads for each error code about sizes |
| LineEffects.UserErrorTexts | src/utils.cpp:122-175 | what the client reads for each error code about names and passwords |
| SessionTheorems.AuthHistory | src/cmd.cpp:86-135 | over every run auth holds exactly if a credential check has succeeded since the last executed logout: some configured name begins the first 32 characters of the last login line's argument, and its password begins the pass line's argument |
| SessionTheorems.RunName | src/cmd.cpp:89 | the name kept for the check is, in its first 32 characters, that of the last login line |
| SessionTheorems.ReadyHistory | src/cmd.cpp:106-133 | a check is made only if a login line came after the last check |
| SessionTheorems.UserHistory | src/cmd.cpp:118 | over every run the user name is the one the last check that passed was made with |
| SessionTheorems.UserCanLogIn | src/cmd.cpp:86-135 | a login and a pass line with a configured user's name and password authenticate that user |
| SessionTheorems.ExitHistory | src/server.cpp:83-85 | over every run exit is set exactly if an exit line was reached |
| SessionTheorems.NewSession | src/server.cpp:36-56 | a new connection meets what the theorems about runs ask of a session |
| SessionTheorems.ChecksNeedLogins | src/cmd.cpp:86-135 | over every run the credential checks never outnumber the executed logins |
| SessionTheorems.AuthGuards | src/cmd.cpp:61-71 | without an authenticated user a line changes no directory, creates none and begins no transfer |
| SessionTheorems.PathsBeginWithRoot | src/cmd.cpp:262-340 | over every run pwd begins with root and is at most 128 characters longer, and so are the paths given to mkdir; a put's path begins with root |
| SessionTheorems.LengthChecksNeverWrap | src/cmd.cpp:318-321 | in every run the size_t length checks of cd and mkdir equal the exact difference |
| SessionTheorems.PutKeepsPaths | src/cmd.cpp:400-404 | the path of a put is pwd, a slash and the whole argument: its buffer never cuts it |
| SessionTheorems.CdAgreesIff | src/cmd.cpp:287-348 | a cd line that passes its checks makes pwd the shell's answer for pwd/arg, or root/arg if the argument begins with a slash; pwd then equals root followed by relative_pwd exactly if root does not occur again in it; any other cd changes neither |
| SessionTheorems.LogoutAgreesIff | src/cmd.cpp:201-207 | after a logout the two directories agree exactly if the relative one was empty |
| SessionTheorems.OthersKeepDirectories | src/cmd.cpp:30-83 | no other line changes either directory |
| SessionTheorems.RunMoves | src/cmd.cpp:204 | after any run pwd is what the shell answered to the last successful cd line, or root after a logout line, and relative_pwd what the last successful cd left of its path |
| SessionTheorems.AgreementAfterRun | src/cmd.cpp:337-340 | exactly when the two directories agree after a run, in terms of its successful cds and logouts |
| SessionTheorems.CdMayDisagree | src/cmd.cpp:337-340 | with root /r, a cd to r makes the directories disagree |
| SessionTheorems.LogoutMayDisagree | src/cmd.cpp:201-207 | with root /r, a cd to a followed by a logout does |
| Commanded.TurnBegins | src/cmd.cpp:394-458 | exactly which lines begin a transfer, and its direction, path and size in terms of their words |
| Commanded.EveryTransferHasItsLine | src/cmd.cpp:61-71 | every transfer a session has begun was begun by one of its lines, get or put by name, of an authenticated user, with the file it names |
| Commanded.WorkersWereCommanded | src/cmd.cpp:394-458 | if the protocol's requests are a session's transfers, every worker thread was begun by a line get or put, for the file and size that line gives |
| Commanded.WorkersNeedLogin | src/cmd.cpp:97-135 | no worker thread exists without a credential check that succeeded before its command, with no logout in between |
| ConnectionClass.CheckInvalidChars | src/utils.cpp:109-120 | true exactly if none of the first n forbidden characters occurs |
| ConnectionClass.Connection.constructor | src/server.cpp:36-56 | the fields of a new connection |
| ConnectionClass.Connection.CmdLogin | src/cmd.cpp:86-95 | the update of login, a too long name included |
| ConnectionClass.Connection.CmdPass | src/cmd.cpp:97-135 | the loop over the users authenticates exactly if some user's name and password begin those supplied |
| ConnectionClass.Connection.CmdLogout | src/cmd.cpp:201-207 | logout clears auth and resets the absolute directory only |
| ConnectionClass.Connection.CmdExit | src/cmd.cpp:209-219 | exit sets the exit flag and an empty reply |
| ConnectionClass.Connection.CmdMkdir | src/cmd.cpp:235-285 | the checks of mkdir in their order, and the path it asks for |
| ConnectionClass.Connection.CmdCd | src/cmd.cpp:287-348 | the checks of cd in their order, and both new directories |
| ConnectionClass.Connection.CmdGet | src/cmd.cpp:425-458 | the transfer a get begins, its errors and its reply |
| ConnectionClass.Connection.CmdPut | src/cmd.cpp:394-423 | the transfer a put begins, its errors and its reply |
| ConnectionClass.Connection.ProcessCmd | src/cmd.cpp:30-83 | the scan of the table has the effect of the one handler that a lookup by name finds, or the dispatcher's message |
| ConnectionClass.Connection.OneTurn | src/server.cpp:88-102 | one turn of the client loop has the effect of its line, and error_handler answers an error |
| ConnectionClass.Connection.HandleClient | src/server.cpp:76-112 | the client loop has the effect of the lines up to the first exit or the first reply that cannot be written |
| ConnectionClass.ExitIsFinal | src/server.cpp:83-85 | lines after an exit, or after a reply that could not be written, change nothing |
| Registry.ServerData.AddConnection | src/utils.cpp:17-21 | a connection is appended |
| Registry.ServerData.RemoveConnection | src/utils.cpp:23-30 | the compacting loop leaves what Without describes: no entry of the connection, and every other one as often as before, in order |
| Registry.ServerData.Perform | src/utils.cpp:17-30 | after any sequence of connects and clean-ups the list is that of the connections registered and not removed since, in the order of registration |
| Registry.ReplayIsSurvivors | src/utils.cpp:17-30 | after any interleaving of connects and clean-ups the list holds exactly those registered and not removed since, in the order of registration |
| Registry.ListedOnce | src/server.cpp:63-64 | with fresh addresses a connection is listed once if registered and not removed since, else not at all |

## Left out

- Creating, binding and connecting sockets (`setup_server_co`, `setup_client_co`): their results are chosen by the environment; the socket a failed setup leaves open is not counted.
- The client's threads, their interleaving with `check_input`, and the use of `client->lock` across threads; of the client only `check_response` is modelled.
- Shutdown by signals (`stop`, `stop_and_clean`), which cancels the command thread at arbitrary points.
- Shell commands (`ls`, `rm`, `grep`, `ping`, `date`) and the sorting in `w`: they only produce output, whose text is a parameter. `cd` gets the shell's answer from a resolver; that it never answers below root with a path longer than the one it was given is an assumption of the path theorems.
- `parse_grass`, the unused `tokenize_path`, `hijack_flow`, and the `main_socket` field.
- Memory layout: overlapping fields, missing terminators of full buffers, format strings, NUL bytes in input, and the cut of a long shell command in `execute_system_cmd`; strings are values. In particular `strncpy(tmp_username, arg, 33)` writes 33 bytes at every login, and in memory the last one is the byte behind `tmp_username`, which is `auth`; `AuthHistory` speaks of separate fields.
- A `read` that fails or delivers an empty line: lines are nonempty.
- An empty root directory: the session model demands a nonempty one, since `cd` would not return from `findAndReplaceAll`.
- A failing `pthread_create`; weak memory; a fair scheduler.
- What a cancelled transfer leaves in a socket that is then reused: transfer correctness is stated for a fresh channel.
- The two reads of the flags at the end of `ftp_clean` are one step: its own flag was just cleared and nobody can raise it there, so only the single read of the other flag matters.
- `Tokens.TokenizeCmd`: lines of 256 characters or more are not modelled, because their copy in the source has no terminator; the dispatcher never passes one, but `client_reader` may pass a longer reply.
- `ByteTransfer.FileSend`: the file does not change while it is sent, and sendfile returns 0 only at its end.
- `ByteTransfer.FileRecv`: streams of 2^64 - 256 bytes and more are not modelled, because the size_t total would wrap around; a write of 2^64 - 1 bytes is taken to fail.
- `ProtocolTheorems.SocketConservation`: counts descriptors above 1 only, because ftp_clean closes no others.
- `ReplyText.ClientFtp.CheckResponse`: replies of 256 to 511 characters, which `client_reader` passes as well, are not modelled, for the reason given for `TokenizeCmd`; get and put replies are shorter. Where atoi is undefined its value is a parameter.
- `ProtocolLeaks.AnnouncedPort`: a reply in the instant between a race and its teardown resetting the port is left out, because that port number may be given to a later socket.
- `ProtocolTheorems.SocketIsStable`: descriptor numbers are those of one connection. After a race, the second close of `ftp_socket` may hit a number that another connection was given in the meantime; this and `SocketConservation` speak of a process with one connection.
