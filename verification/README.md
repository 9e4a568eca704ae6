# A model of the pipeline shell, the multi-user server, the SOCKS session and two parsers

The repository holds a small shell with ordinary pipes (`|`) and numbered pipes (`|n`, `!n`: the output
goes to the first command n lines later), two multi-user servers built on that shell, in which users also
send pipes to each other (`>n`, `<n`), a SOCKS 4/4A server with a console that talks through it, and an
HTTP server. This project models that logic and proves what it is for; `dafny verify dfyconfig.toml`
checks it.

## How it is put together

- **The shell.** `Engine` is an abstract machine over commands: which pipe each process reads and
  writes, and what else it holds. It also says what that should be, without any bookkeeping: *line L
  feeds line L+n*. `Wiring` proves that the two agree for every sequence of commands at any lines;
  `Ownership` proves who holds an ordinary pipe and how long a numbered one lives; `Footprint` counts
  descriptors. `Descriptors` has descriptor tables and the system calls. `ShellProcess` has the real
  thing: a class that opens, copies and closes descriptors in itself and in its children, with a 32-bit
  line counter, proved to be the abstract machine command by command. A close or dup2 of a descriptor
  that is not open is ruled out by a precondition, so its absence is proved too.
- **Lines.** `Numbers`, `Tokens` and `LineParser` are `stoi`/`to_string`, `split` and `parse`; `Lines`
  joins the parser to the executor, gives the exact conditions under which a line is safe to run and
  under which one line does what two do, and has the shell's main loop; `TypedLines` says of typed lines
  that `|n` feeds the n-th line after.
- **The single-process server.** `UserPipes` has the slots, the names, the pipe records and one command
  with its user pipes, against the history of what was sent, received and cleared (`UserPipeHistory`).
  `UserLanes` and `UserLines` add every user's own numbered pipes and the loop over a line, over all
  users at once; `ServerLoop` has the main loop from start-up, over whatever connections, lines and
  hang-ups come, and says what every user has launched and is called from these turns alone.
  `Environment` has the environment that is put in for a turn and taken out after it, told from the
  turns as well. `ServerParser` is the extended parser, `ServerPrinting` its inverse.
- **The multi-process server.** `SharedTable` has the semaphore-guarded sections as atomic steps and
  their interleavings: a login is two sections of the master process, a receive is a check, a section of
  the child and a clearing. `SharedHistory` tells from a run what is recorded, marked and taken.
  `SharedMemorySections` has the sections themselves, on the shared arrays.
- **SOCKS.** `Relay` and `RelaySession` have the session as a step system and as an object with its
  completion handlers; `Addresses`, `Socks` and `SocksRules` have the requests and the address rules. The
  format is that of Ying-Da Lee's SOCKS 4 memo (section 1 CONNECT, section 2 BIND) with the 4A extension.
- **Parsers.** `Query` is the console's query string, `Markup` its escaping and `ScriptLiteral` the quoted
  script literal that the escaped text is written into, `Http` the request parser (request line as in
  section 3.1.1 of RFC 7230). `Texts` has the string functions with 64-bit positions.
- **Shared by all.** `Commands` (what a parser makes), `Bytes`, `Outcomes` (options and results).

## What turned out not to hold

- An empty command list (a line with nothing but `>`) moves the line counter past a pipe that is due and
  never closes it. The books stay straight if and only if no pipe was due
  (`ShellProcess.Shell.ExecuteCommands`; `Lines.ChainIffComplete` says which lines are fit to run). The
  lines `a |1` and `>` get there (`Lines.DuePipeCanBeSkipped`).
- For the same reason `A |n B` on one line is not always `A |n` and `B` on two: it is if and only if B is
  blank or makes a command (`Lines.OneLineIsTwoLines`).
- When a user's connection ends without `exit`, the single-process server does not clear the pipe records
  (Project 2/np_single_proc.cpp:106-109 loops over `j` and indexes with `i`), except that of a pipe from
  the user to the same user. The books stay straight if and only if no record with another user was set
  (`UserPipes.Server.Disconnect`). Two logins, a pipe from the first user to the second and the first
  one's hanging up leave the record behind (`UserPipes.StaleRecord`); a pipe to oneself does not
  (`UserPipes.LonePipe`).
- When all thirty slots are taken, the single-process server puts a new user into slot 0, which it never
  serves (`UserPipes.Server.Login`).
- In that server a failed `<n` in a command before `|` overwrites the pipe to the right (Project
  2/server_execute.cpp:143 and 151): the child keeps the inherited standard output
  (`UserPipes.Server.ExecuteCommand`). A failed `>n` leaves one descriptor open for good (same member).
- In the multi-process server a pipe that a check has found is still recorded at the clearing if and only
  if the sender did not leave in between (`SharedTable.FoundPipeStays`, `SharedTable.FoundPipeCanGo`).
- There the child of a receive may turn to /dev/null and the clearing drop a pipe all the same: after a
  check that found nothing, if and only if the pipe was sent between the child's section and the clearing
  and its sender stayed (`SharedTable.DroppedUnread`, `SharedTable.PipeCanBeMissed`). A child that is late
  also goes without a pipe that was found for it: it takes the sender's descriptor if and only if the last
  accepted send is after the last check that found nothing (`SharedTable.ChildTakesIff`). `cat <2 | cat <2`
  gets there with one pipe (`SharedTable.FoundPipeCanBeUnread`).
- A user of that server who sends before the slot is marked taken can get a pipe stuck: if and only if the
  receiver looks for it before the marking, the pipe waits on, but no child takes it and no clearing drops
  it until one of the two leaves (`SharedTable.StuckIff`, `SharedTable.PipeCanGetStuck`).
- A user who leaves before the slot is marked leaves it taken for good: a slot is taken with nobody in it
  if and only if that happened (`SharedTable.DeadIff`, `SharedTable.SlotCanDie`).
- A user who leaves takes no pipes along: the pending and waiting pipes stay open in the server
  (`UserLines.LineServer.Exit`).
- Once any user whose turn has passed has listed a name, its initial value is gone from the process
  environment for everybody (`Environment.Server.Turn`).
- A rule that spells out four octets, each with its dot, permits nothing (`SocksRules.PrefixRuleDecides`).
- A half-filled form slot takes over the fields of the slot before it (`Query.HalfFilledSlotCarries`). A
  form reads back as its filled slots if and only if every slot with a file name is filled
  (`Query.FormReadsBackIff`).
- A body line that begins with `Host` replaces the host of an HTTP request (`Http.BodyReplacesHost`). The
  request is recovered if and only if no such line is cut short and the last one names the same host
  (`Http.RequestRoundTrip`).
- Escaping leaves double quotes and backslashes alone, but the text goes into a double-quoted literal of
  the page's script. The page shows the text if and only if it holds neither
  (`ScriptLiteral.TextIsShownIff`).

## Model

| member | source | states |
|---|---|---|
| Wiring.RunIsWired | Project 2/execute.cpp:42-165 | over any linked sequence of commands, the first command of line L reads the one pipe written by exactly the earlier commands that named L, every other command reads its left neighbour, and no pipe has two readers |
| Wiring.RunTracks | Project 2/execute.cpp:42-165 | what every run keeps: pending lines are exactly the lines ahead that were named, no pipe plays two roles, writers of a pending pipe are exactly those that named its line |
| Wiring.RunOnTracks | Project 2/execute.cpp:42-165 | the same from any point on, each command at the line that the session has come to |
| Wiring.MoveTracks | Project 2/execute.cpp:70 | passing lines for which nothing is pending keeps all that |
| Wiring.StepPending | Project 2/execute.cpp:53-71 | one more command keeps the pending lines exact |
| Wiring.StepWriters | Project 2/execute.cpp:54-62 | one more command keeps the writers of each pending pipe exact |
| Wiring.StepReaders | Project 2/execute.cpp:147-165 | a pipe that has its reader is no longer open in the shell, so no second process can read it |
| Wiring.StepSeparate | Project 2/execute.cpp:42-72 | no pipe is both pending for two lines or pending and ordinary |
| Engine.RunAppend | Project 2/execute.cpp:42-72 | running two command lists in turn is running their concatenation |
| Ownership.OrdinaryPipeIsPrivate | Project 2/execute.cpp:74-145 | once command k+1 is launched, the write end of its pipe is only command k's standard output, the read end only command k+1's standard input, and the shell holds neither, whatever is pending |
| Ownership.NewIsPrivate | Project 2/execute.cpp:47-52 | a new ordinary pipe is held by no earlier process |
| Ownership.PrivateStays | Project 2/execute.cpp:74-145 | a later command inherits no end of an earlier ordinary pipe |
| Ownership.PendingLifetime | Project 2/execute.cpp:53-71 | an entry is pending from its first sender to its own line and no longer; if no number exceeds K, all keys lie in a window of K lines and there are at most K |
| Footprint.DescriptorsHeld | Project 2/execute.cpp:42-165 | between lines the shell holds its initial descriptors and two per pending pipe, hence at most 2K more |
| Footprint.CountAccounts | Project 2/execute.cpp:140-165 | a table that accounts for a set of pipes has exactly two descriptors for each beyond the initial ones |
| Descriptors.LeastFree | Project 2/execute.cpp:49 | a new descriptor is the least one that is not open |
| Descriptors.InputAccounts | Project 2/execute.cpp:121-127 | dup2 and the two closes move a pipe's read end to standard input, take both ends out of the table and touch nothing else |
| Descriptors.OutputAccounts | Project 2/execute.cpp:129-138 | the same for a write end and standard output, and standard error if asked |
| Descriptors.CloseAccounts | Project 2/execute.cpp:140-145 | the parent's two closes take exactly one pipe off the books |
| Descriptors.PipeAccounts | Project 2/execute.cpp:48-50 | `pipe` puts exactly one pipe on the books |
| Descriptors.AccountsRest | Project 2/execute.cpp:74-96 | what a table that accounts for some pipes holds above the standard descriptors |
| Descriptors.Process.Pipe | Project 2/execute.cpp:49 | two different new descriptors for the two ends |
| ShellProcess.SlotInsert | Project 2/execute.cpp:54-58 | 32-bit keys of pending lines stay apart when a line less than 2^31 ahead is entered, even after wrap-around |
| ShellProcess.SlotErase | Project 2/execute.cpp:158-165 | erasing the current key leaves exactly the later pending lines |
| ShellProcess.SlotLookup | Project 2/execute.cpp:149 | the map lookup finds a key exactly when its line is pending, and finds that line's pipe |
| ShellProcess.NumberedPipeChildIn | Project 2/execute.cpp:147-156 | the child's table after reading the due pipe, or unchanged |
| ShellProcess.PipeChildIn | Project 2/execute.cpp:121-127 | the child's table after reading its neighbour's pipe, or unchanged |
| ShellProcess.PipeChildOut | Project 2/execute.cpp:129-138 | the child's table after writing its pipe, or unchanged |
| ShellProcess.FileChildOut | Project 2/execute.cpp:108-109 | standard output is the file if it can be opened, and stays what it was if not |
| ShellProcess.Shell.PipeParent | Project 2/execute.cpp:140-145 | the parent closes the neighbour's pipe and nothing else |
| ShellProcess.Shell.NumberedPipeParent | Project 2/execute.cpp:158-165 | the parent closes and erases the due pipe and nothing else |
| ShellProcess.Shell.ExecutePipe | Project 2/execute.cpp:74-96 | the child at exec is the abstract process, and the parent drops exactly the pipes that were read |
| ShellProcess.Shell.ExecuteRedirect | Project 2/execute.cpp:98-119 | the same for a redirection |
| ShellProcess.Shell.PrepareOutput | Project 2/execute.cpp:46-67 | the pipe to write is a new one for `\|`, the target line's for a number, entered only if it is new |
| ShellProcess.Shell.Execute | Project 2/execute.cpp:46-68 | one pass of the loop is one step of the abstract machine, with the counter moved in step |
| ShellProcess.Shell.ExecuteCommands | Project 2/execute.cpp:42-72 | a line is a run of the abstract machine; the parent's descriptors are again its initial ones and two per pending pipe, if and only if the list is non-empty or no pipe was due |
| ShellProcess.Shell.constructor | Project 2/npshell.cpp:8-13 | a shell starts with no pipes, at line 0 |
| Numbers.StoiOfToString | Project 2/utils.cpp:62 | reading a printed number gives it back up to the range of int, and an error beyond |
| Numbers.ValueOfToString | Project 2/utils.cpp:62 | the value of the printed digits is the number |
| Numbers.StoiReads | Project 2/utils.cpp:62 | white space, a sign and a number, whatever stands behind its last digit, read as that number if it fits 32 bits, and as an error beyond |
| Numbers.StoiFails | Project 2/utils.cpp:62 | without a digit behind white space and sign nothing is read |
| Tokens.Split | Project 2/utils.cpp:31-45 | the tokens are the maximal runs without separator, in order |
| Tokens.FieldsKeepText | Project 2/utils.cpp:31-45 | nothing but separators is lost and nothing is reordered |
| Tokens.FieldsArePure | Project 2/utils.cpp:31-45 | no token is empty or holds a separator |
| Tokens.FieldsConcat | Project 2/utils.cpp:31-45 | splitting distributes over a separator |
| Tokens.FieldsOfJoin | Project 2/utils.cpp:31-45 | splitting undoes joining |
| LineParser.Parse | Project 2/utils.cpp:47-95 | the parser's loop, with the number parser's exceptions, against its recursive form |
| LineParser.RoundTrip | Project 2/utils.cpp:31-95 | any well-formed command list, printed as a line, splits and parses back to itself: links, words, file and numbers |
| LineParser.ParsePrinted | Project 2/utils.cpp:47-95 | the same from any state of the parser |
| Lines.ChainIffComplete | Project 2/execute.cpp:45-69 | the parsed commands are non-empty and keep the executor inside its list, with numbers that point forward, exactly on the token lists that pass two checks |
| Lines.RunnableIffComplete | Project 2/execute.cpp:45-52 | the parsed list is non-empty and does not end in an open pipe exactly when the token check says so |
| Lines.ParseContinues | Project 2/utils.cpp:47-95 | parsing links every command to its neighbours, and all numbers point forward exactly when the tokens' do |
| Lines.ParseConcat | Project 2/utils.cpp:47-95 | parsing a line that goes on after a link is parsing up to the link and then the rest |
| Lines.ParseMarked | Project 2/utils.cpp:51-91 | whether a number came before shows only in the first command's flag |
| Lines.StepIgnoresMark | Project 2/execute.cpp:147-156 | the code's test of that flag comes out the same exactly for a command without a neighbour's pipe, or one that had the flag; what the command reads and writes does not change at all |
| Lines.OneLineIsTwoLines | Project 2/utils.cpp:47-95 | `A \|n B` on one line and `A \|n`, `B` on two lines give the same counter, pending pipes and wiring of every child, if and only if B is blank or makes a command; the counter moves on for a line that makes none |
| Lines.OneLineIsWellFormed | Project 2/utils.cpp:47-95 | the one line is fit to run whenever the two are |
| Lines.DuePipeCanBeSkipped | Project 2/execute.cpp:70 | after `a \|1` a pipe is due at the next line, and the line `>` makes no command and moves the counter past it |
| Lines.AllCommandsLinked | Project 2/npshell.cpp:14-25 | the commands of any lines that fit form one linked sequence |
| Lines.InputIsWired | Project 2/npshell.cpp:14-25 | whatever lines are typed that fit, lines without a command among them, the processes are wired as the lines say, each at its line, and ordinary pipes are private |
| Lines.NpShell | Project 2/npshell.cpp:8-26 | the main loop does what the lines up to `exit` say, one after the other, as long as each fits the state it meets: its numbers read, the executor stays inside its list, and an empty list passes no due pipe |
| Lines.WellFormedInput | Project 2/npshell.cpp:14-25 | well-formed lines fit in every state, and together they run exactly their commands up to `exit` |
| TypedLines.NumberFeedsLine | Project 2/execute.cpp:53-71 | if a line ends in `\|n` and it and the next n - 1 lines count as one each, the first command typed n lines later reads the pipe that the line's last command writes |
| TypedLines.PrintedLineRuns | Project 2/npshell.cpp:14-25 | a command list written out as a line is run as that list, unless its first word is one of the shell's own three |
| TypedLines.OwnWordsRunNothing | Project 2/npshell.cpp:20-22 | a line that begins with one of these, and a blank one, runs nothing; only `exit` ends the input |
| UserPipeHistory.Alternation | Project 2/server_execute.cpp:140-188 | for each ordered pair, sends and receives strictly alternate: between two sends the pipe was received or one of the two left, and every receive has exactly one uncleared send before it |
| UserPipeHistory.OutstandingDiffer | Project 2/server_execute.cpp:171-177 | two waiting pipes are the same only if sender and receiver are |
| UserPipeHistory.OutstandingSince | Project 2/server_execute.cpp:171-177 | a waiting pipe is the sender's latest send, and nothing has cleared it since |
| UserPipeHistory.SentIsOutstanding | Project 2/server_execute.cpp:171-177 | what was sent and not cleared since is waiting |
| UserPipes.Server.FindAvailableId | Project 2/server_utils.cpp:56-63 | the least free slot, or 0 exactly when there is none |
| UserPipes.Server.Login | Project 2/np_single_proc.cpp:76-89 | a new user gets the least free slot, the default name and no pipes to or from it; with all slots taken, slot 0 |
| UserPipes.Server.Rename | Project 2/server_execute.cpp:105-125 | a name is refused exactly when some user has it, so two users share a name only if it is the default |
| UserPipes.Server.Exit | Project 2/server_execute.cpp:11-21 | the slot is freed and exactly the records with that user are cleared |
| UserPipes.Server.Disconnect | Project 2/np_single_proc.cpp:101-114 | the slot is freed and only the record of a pipe from the user to the same user is cleared; the records agree with the history if and only if none with another user was set |
| UserPipes.StaleRecord | Project 2/np_single_proc.cpp:101-114 | from its start the server can get to a record of a departed user: two logins, a pipe, the sender's hanging up |
| UserPipes.LonePipe | Project 2/np_single_proc.cpp:106-109 | a login, a pipe to oneself and hanging up leave the books straight |
| UserPipes.Server.CheckIn | Project 2/server_execute.cpp:140-161 | the receiving check finds the waiting pipe, on the descriptors it was stored with, or puts /dev/null in its place |
| UserPipes.Server.CheckOut | Project 2/server_execute.cpp:162-188 | the sending check makes a new pipe exactly when the receiver exists and none waits, else /dev/null, whatever number was written |
| UserPipes.Server.UserPipeParent | Project 2/server_execute.cpp:350-360 | the parent closes and forgets exactly the received pipe |
| UserPipes.Server.ChildPlugs | Project 2/server_execute.cpp:241-244 | an ordinary pipe beats a numbered one, which beats a user pipe, and each plug is closed after use |
| UserPipes.Server.Launch | Project 2/server_execute.cpp:134-249 | the checks and the child: what it reads and writes in every case |
| UserPipes.Server.ExecuteCommand | Project 2/server_execute.cpp:129-284 | one command with its user pipes: the child's standard descriptors, the history, the open pipes and the leaked descriptor, in every case; a waiting record is always the sender's latest pipe with both ends open |
| UserPipes.BackedAfterReceive | Project 2/server_execute.cpp:350-360 | closing a received pipe leaves every other waiting pipe open and stored |
| UserLanes.LaneStays | Project 2/server_execute.cpp:129-231 | one user's command leaves the other users' pending pipes open and where they are |
| UserLanes.OwnAfter | Project 2/server_execute.cpp:190-224 | a command leaves the own pending pipes as the abstract machine says |
| UserLanes.GivenPipes | Project 2/server_execute.cpp:312-330 | the neighbour's, the due and the target pipe are different open pipes, and none is a user pipe |
| UserLanes.StillWaiting | Project 2/server_execute.cpp:350-360 | a pipe goes on waiting until a command of the receiver names its sender |
| UserLanes.WaitsNext | Project 2/server_execute.cpp:162-188 | after a command of the receiver a pipe from that user waits exactly if the command sent it to the receiver, or it waited before and was not read |
| UserLines.RanIsPlugged | Project 2/server_execute.cpp:233-303 | what a child finds at exec is what the user's session says, with the user pipes plugged in |
| UserLines.ParsedIsRunnable | Project 2/server_utils.cpp:116-221 | what the parser makes of sensible tokens is what the executor can run |
| UserLines.LeftAlone | Project 2/server_execute.cpp:350-360 | a last redirection may read a pipe that waits before the line, if no command before it reads it |
| UserLines.LineServer.TargetPipe | Project 2/server_execute.cpp:191-220 | the target line's pipe is joined if it is there and entered if not |
| UserLines.LineServer.RunCommand | Project 2/server_execute.cpp:133-228 | one pass of the loop is one step of the acting user's session, on the same line after `>n`, and changes no other user's |
| UserLines.LineServer.ExecuteCommands | Project 2/server_execute.cpp:129-231 | a line launches its commands in order, each at its line and finding what is there for it when its turn comes; the other users' records stay; the books are straight again if and only if the line brought a command or no pipe was due |
| UserLines.LineServer.CanRun | Project 2/server_execute.cpp:350-360 | whether the line is run as it is meant, read off the pipe records and the user's pending pipes |
| UserLines.LineServer.Login | Project 2/np_single_proc.cpp:81-83 | a new user starts without pending pipes, at line 0, also in slot 0, where the user before is forgotten |
| UserLines.LineServer.Exit | Project 2/server_execute.cpp:11-21 | a departure leaves the other users' records as they are, and leaves open exactly the user's pending pipes and those that wait from or for the user |
| UserLines.LineServer.HangUp | Project 2/np_single_proc.cpp:101-114 | the same at the end of a user's input; all users' books stay straight if and only if no pipe waited between this user and another |
| UserLines.LineServer.CanHangUp | Project 2/np_single_proc.cpp:101-114 | that condition, read off the pipe records |
| UserLines.LineServer.EveryPipeHasItsOwner | Project 2/server_execute.cpp:129-360 | the server's open pipes are the pending pipes of the logged-in users and the pipes that wait between two of them, apart from what departed users left behind; no line adds to that |
| UserLines.LineServer.EachUserIsWired | Project 2/server_execute.cpp:129-231 | between lines each user's processes are wired as the commands launched for that user say, each at its line, and their tables at exec are that wiring with the user pipes plugged in |
| ServerLoop.Serve | Project 2/np_single_proc.cpp:67-140 | whatever connections, lines and hang-ups come, from whomever and in whatever order, each user's launched commands are the commands of that user's own lines since logging in, at these lines, wired as they say as if the user were alone; every launched process is one of them; every user has the name that the turns give; the loop stops only at a turn after which the books would not be straight, or a line that `UserLines.LineServer.ExecuteCommands` does not take |
| ServerLoop.RunServer | Project 2/np_single_proc.cpp:58-140 | the same from the start of the process |
| ServerLoop.TakeTurn | Project 2/np_single_proc.cpp:76-139 | one turn keeps what was typed, who is called what, what was launched and what was done in agreement, or is one at which the loop stops |
| ServerLoop.HandleBuiltIn | Project 2/np_single_proc.cpp:127-132 | a built-in launches nothing; `name` gives a name that is free; `exit` ends the user's session |
| ServerLoop.EndInput | Project 2/np_single_proc.cpp:101-114 | the end of a user's input ends the session, if no pipe waits between this user and another |
| ServerLoop.RunLine | Project 2/np_single_proc.cpp:124-135 | any other line launches exactly its parsed commands for the user who typed it, each at its line; one without a command only moves the line on |
| ServerLoop.AgreesIsWired | Project 2/np_single_proc.cpp:67-140 | agreement means that every user's processes are wired as that user typed |
| ServerLoop.NameIs | Project 2/server_execute.cpp:105-125 | after any turns a user's name is the last one that was free in slots 1 to 30 when the user asked for it since arriving, else `(no name)` |
| ServerLoop.LineMeans | Project 2/np_single_proc.cpp:116-135 | a line that begins with none of the server's own words adds its parsed commands to that user's; one that does changes at most the name or ends the session; the other users are not concerned |
| ServerLoop.PrintedLineIsLogged | Project 2/server_utils.cpp:116-221 | a command list written out as a line is logged as that list, each command at its line |
| ServerLoop.PlacesAre | Project 2/server_execute.cpp:190-231 | a command runs on the line of the one before it, or on the next if that one ends in a number; the next input line begins one behind the last |
| ServerLoop.ComingAndGoing | Project 2/np_single_proc.cpp:76-114 | an arrival brings a blank user into the least free slot, or into slot 0 when there is none; a hang-up takes one user away; slot 0 is never served |
| SharedTable.RunSafe | Project 2/np_multi_proc.cpp:8-33 | under every interleaving a recorded pipe goes from a live user to a taken slot, and a new user's slot starts without pipes, whatever the others do between the picking and the marking of slots |
| SharedTable.ThirtySlots | Project 2/np_multi_proc.cpp:8-18 | a login is possible exactly if one of thirty slots is not taken, and gets the least of these |
| SharedTable.FoundPipeStays | Project 2/np_multi_proc.cpp:331-350 | a found pipe is still that pipe at the clearing if and only if the sender did not leave |
| SharedTable.MissedPipe | Project 2/np_multi_proc.cpp:565-572 | after a check that found nothing the clearing drops a pipe if and only if a send was accepted in between and the sender stayed |
| SharedTable.DroppedUnread | Project 2/np_multi_proc.cpp:437-452 | it drops one that the child has gone without if and only if, besides, the child's section came before any accepted send |
| SharedTable.ChildTakesIff | Project 2/np_multi_proc.cpp:537-548 | in every run a child finds the mark set, and takes the sender's descriptor, if and only if up to its section the last accepted send is after the last check of the receiver that found nothing |
| SharedTable.MarkWhileReceiving | Project 2/np_multi_proc.cpp:330-372 | between a check and its clearing the mark is set exactly if it was or a send was accepted |
| SharedTable.StuckIff | Project 2/np_multi_proc.cpp:336-338 | in every run a recorded pipe has its mark clear if and only if the receiver looked for it while the sender's slot was not yet marked, and neither has left since |
| SharedTable.DeadIff | Project 2/np_multi_proc.cpp:652-716 | in every run a slot is taken with nobody in it if and only if it was once marked after its user had left |
| SharedTable.FoundPipeCanGo | Project 2/np_multi_proc.cpp:331-350 | two users log in, one sends, the other finds the pipe, the sender leaves: the found pipe is gone at the clearing |
| SharedTable.PipeCanBeMissed | Project 2/np_multi_proc.cpp:437-452 | two users log in, one looks for a pipe and finds none, its child turns to /dev/null, the other sends one: the clearing drops it |
| SharedTable.FoundPipeCanBeUnread | Project 2/np_multi_proc.cpp:430-457 | a pipe is found and cleared for a first command; the check of the second command clears the mark before the first child's section, which turns to /dev/null |
| SharedTable.PipeCanGetStuck | Project 2/np_multi_proc.cpp:336-338 | a pipe sent and looked for before the sender's slot is marked: a later receive finds it, its child turns to /dev/null, and the clearing leaves it |
| SharedTable.SlotCanDie | Project 2/np_multi_proc.cpp:652-716 | the first user can leave before being marked, and slot 1 is dead |
| SharedTable.DropsIf | Project 2/np_multi_proc.cpp:565-572 | the clearing drops exactly the entry of the pair, and only if its mark is set |
| SharedHistory.RecordIs | Project 2/np_multi_proc.cpp:352-385 | in every run a pipe is recorded if and only if a send of the pair was recorded and since then neither has left and no clearing of the receiver met its mark |
| SharedHistory.SentIff | Project 2/np_multi_proc.cpp:352-384 | a send is recorded if and only if the receiver's slot is taken and no earlier one of the same ordered pair still waits |
| SharedHistory.FoundIff | Project 2/np_multi_proc.cpp:330-351 | a check finds a pipe if and only if the sender's slot is taken and a pipe of the pair waits |
| SharedHistory.MarkIsHistory | Project 2/np_multi_proc.cpp:330-372 | the mark is set if and only if the last recorded send of the pair is after the last check that found nothing |
| SharedHistory.ThereIff | Project 2/np_multi_proc.cpp:652-716 | a slot is taken from its marking, and its user there from the picking, until the user leaves |
| SharedMemorySections.SharedMemory.PickSlot | Project 2/np_multi_proc.cpp:652-656 | the first section of a login picks the least free slot, or the connection is refused exactly when there is none |
| SharedMemorySections.SharedMemory.MarkTaken | Project 2/np_multi_proc.cpp:712-716 | the second section marks the picked slot |
| SharedMemorySections.SharedMemory.CheckReceive | Project 2/np_multi_proc.cpp:330-351 | the section is the checking step on the arrays; it finds a pipe exactly if the sender's slot is taken and, by the run so far, a pipe of the pair waits |
| SharedMemorySections.SharedMemory.CheckSend | Project 2/np_multi_proc.cpp:352-385 | the section is the sending step on the arrays, for every receiver number from 1 up; it sends exactly if the receiver's slot is taken and, by the run so far, no pipe of the pair waits |
| SharedMemorySections.SharedMemory.UserPipeIn | Project 2/np_multi_proc.cpp:537-548 | the child's section is the testing step on the arrays |
| SharedMemorySections.SharedMemory.ClearReceived | Project 2/np_multi_proc.cpp:565-572 | the section is the clearing step on the arrays, with or without a check before the fork |
| SharedMemorySections.SharedMemory.Leave | Project 2/np_multi_proc.cpp:90-101 | the section is the departing step, clearing exactly the records with that user |
| Environment.Server.SetEnvVariables | Project 2/server_utils.cpp:85-89 | the entries are put in, in order |
| Environment.Server.UnsetEnvVariables | Project 2/server_utils.cpp:91-95 | exactly the listed names are taken out |
| Environment.Server.Handle | Project 2/server_execute.cpp:22-51 | setenv adds to the environment and to the user's list, printenv answers from the environment |
| Environment.Server.Turn | Project 2/np_single_proc.cpp:116-135 | told from the turns so far: a lookup gives the value that the user set last since logging in, if the name was accepted; else `bin:.` for PATH, nothing for a name that anybody has ever set, and the initial value for any other; between turns the environment is the initial one without these names |
| Environment.ListTells | Project 2/server_execute.cpp:22-51 | the last value in a user's list is the last one that the user has set, or the `bin:.` of a new user |
| Environment.OverlayLookup | Project 2/server_utils.cpp:85-89 | a lookup after the overlay gives the last listed value, else what was there |
| Environment.OverlayRemoved | Project 2/server_utils.cpp:85-95 | taking the names out again leaves what was there without them |
| ServerParser.Parse | Project 2/server_utils.cpp:116-221 | the parser's loop against its recursive form |
| ServerParser.ToUser | Project 2/server_utils.cpp:177-199 | `>n` takes a following `<m` with it and starts afresh |
| ServerParser.ParseIsChain | Project 2/server_utils.cpp:116-221 | for every token list whose numbers read: each command's "before" flags are its left neighbour's "after" flags, at most one is set, and a redirection is last |
| ServerParser.AgreesWithShell | Project 2/server_utils.cpp:116-221 | without user pipes the server reads the same commands as the shell |
| ServerPrinting.RoundTrip | Project 2/server_utils.cpp:116-221 | a command list with ordinary, numbered and user pipes, written out as a line, splits and parses back to itself: words, links, numbers, file, and which user each pipe comes from and goes to |
| Relay.RelayIsPrefix | Project 4/socks_server.cpp:99-151 | in every run and each direction what was written is a prefix of what was read, at most one buffer behind, and the client's stream is the replies followed by that prefix |
| Relay.NothingIsLost | Project 4/socks_server.cpp:99-151 | in every run what was read is the concatenation of all chunks that came in, what was written is a prefix of it, and all of it whenever the next chunk is awaited; in both directions |
| Relay.CanGoOn | Project 4/socks_server.cpp:99-151 | while a direction writes, it can write what is left in any portions, and after that it takes any chunk that fits |
| Relay.RepliesAreRight | Project 4/socks_server.cpp:14-98 | one reply 91 and nothing else when rejected, one reply and then data for CONNECT, two replies for an accepted BIND and data only if the second grants |
| Relay.ReplyReadsBack | Project 4/socks_server.cpp:170-188 | the second byte of a reply is 90 exactly if it grants and 91 exactly if it does not; port and address read back, high byte first |
| Relay.RunKeepsSafe | Project 4/socks_server.cpp:14-188 | the unwritten part of what was read is exactly the part of the buffer still being written |
| Relay.WriteSafe | Project 4/socks_server.cpp:112-124 | a partial write moves on in the buffer; the next read starts only after the last one |
| RelaySession.BuildReply | Project 4/socks_server.cpp:170-188 | the eight bytes of a reply |
| RelaySession.RelayingSession.OnRequest | Project 4/socks_server.cpp:14-37 | the handler is the request step |
| RelaySession.RelayingSession.OnConnect | Project 4/socks_server.cpp:63-75 | the handler is the step that starts the relay, or ends the session |
| RelaySession.RelayingSession.OnAccept | Project 4/socks_server.cpp:76-98 | the handler is the accept step, with the second reply |
| RelaySession.RelayingSession.OnServerRead | Project 4/socks_server.cpp:99-111 | a chunk fills the front of the buffer and its writing starts |
| RelaySession.RelayingSession.OnClientWrite | Project 4/socks_server.cpp:112-124 | written bytes are the next ones of the buffer |
| RelaySession.RelayingSession.OnClientRead | Project 4/socks_server.cpp:125-137 | the same in the other direction |
| RelaySession.RelayingSession.OnServerWrite | Project 4/socks_server.cpp:139-151 | the same in the other direction |
| RelaySession.RelayingSession.StreamsAreWhole | Project 4/socks_server.cpp:99-151 | the client has got the replies and then what the server sent, the server what the client sent, in order and without gaps, and all of it whenever the next chunk is awaited |
| Addresses.DotsPrefix | Project 4/socks_server.cpp:235-238 | textual prefix of dotted addresses is octet prefix, in both directions |
| Addresses.DottedInjective | Project 4/socks_server.cpp:235-238 | a dotted address determines its four octets |
| Socks.ParseRequest | Project 4/socks_server.cpp:230-241 | version, command, port and dotted address of the eight bytes |
| Socks.RequestFormat | Project 4/socks_server.cpp:230-241 | which byte is which field; the port comes high byte first |
| Socks.BuildRequest | Project 4/console.cpp:22-36 | the nine bytes, with the last resolved address |
| Socks.RequestRoundTrip | Project 4/console.cpp:22-36 | parsing what the console builds recovers version, command, any port below 65536 and the address; the user name is empty |
| Socks.AnnouncesHostIff | Project 4/socks_server.cpp:40 | the textual test holds if and only if the first three octets are zero |
| Socks.ScanHost | Project 4/socks_server.cpp:41-53 | the two scans give the text between the first and the second zero byte |
| Socks.DoParse | Project 4/socks_server.cpp:38-62 | the request after parsing and resolving: the last answer wins, and without one the address stays |
| Socks.HostRoundTrip | Project 4/socks_server.cpp:38-53 | for NUL-free user and host the scans recover exactly the host, whatever older bytes are in the buffer |
| Socks.HostIsResolved | Project 4/socks_server.cpp:38-62 | a packet that announces a host is for the last address that the resolver gives for exactly that host, or, without one, for the address in the packet |
| Socks.AddressStays | Project 4/socks_server.cpp:38-62 | a packet for any other address is for that address |
| SocksRules.CheckPermission | Project 4/socks_server.cpp:243-274 | the loop over the rule file against the first rule of the command's kind |
| SocksRules.RequestIsDecided | Project 4/socks_server.cpp:243-274 | for CONNECT the first line `permit c`, for BIND the first line `permit b`, with k octets, each with its dot, and a star, permits the request exactly if k is at most 3 and the first k octets of its address agree, whatever lines of the other kind stand around it |
| SocksRules.RequestIsRefused | Project 4/socks_server.cpp:243-274 | without a line for its command, or with another command, a request is refused |
| SocksRules.ShortRuleFails | Project 4/socks_server.cpp:250-252 | a line for the command that stops after its letter decides too, and fails |
| SocksRules.EmptyRuleRefuses | Project 4/socks_server.cpp:250-257 | one that stops before its address part permits nothing |
| SocksRules.SameUpToIs | Project 4/socks_server.cpp:255 | the comparison is prefix at the pattern's length and equality beyond it |
| SocksRules.PrefixRuleDecides | Project 4/socks_server.cpp:250-260 | the first rule of the kind, k octets each with its dot and then a star, permits exactly the addresses whose first k octets agree, for k up to 3, and none beyond |
| SocksRules.FullRule | Project 4/socks_server.cpp:252-257 | a rule without star permits exactly its address |
| SocksRules.NoRuleRefuses | Project 4/socks_server.cpp:246-273 | without a rule of the kind nothing is permitted |
| Query.ParseQuery | Project 4/console.cpp:112-138 | the loop with its skipped characters, its carried record and its padding, against the items between ampersands |
| Query.FormIsRead | Project 4/console.cpp:112-138 | what the parser reads from every form, complete or not: one entry for each file name, with carried fields |
| Query.FormReadsBackIff | Project 4/console.cpp:112-138 | a form reads back as its filled slots, moved together and padded to five, if and only if every slot with a file name is filled |
| Query.FormRoundTrip | Project 4/console.cpp:112-147 | a form in which every slot with a file name is filled gives back these slots in order, padded to five, and the SOCKS server |
| Query.SocksIsRead | Project 4/console.cpp:140-147 | the SOCKS host and port are read back whatever the slots hold |
| Query.ItemsOfJoin | Project 4/console.cpp:117-132 | the skipped characters do not matter when no item is empty |
| Query.HalfFilledSlotCarries | Project 4/console.cpp:116-128 | a half-filled slot takes over the earlier slot's fields |
| Markup.Escape | Project 4/console.cpp:216-240 | the loop replaces every character by its entity |
| Markup.EscapedIsShown | Project 4/console.cpp:216-240 | decoding the four entities gives back the text without its carriage returns, whatever follows |
| Markup.EscapedIsInert | Project 4/console.cpp:216-240 | no angle bracket and no line break is left; double quotes and backslashes are left exactly as they are |
| ScriptLiteral.TextIsShownIff | Project 4/console.cpp:97-104 | written into the double-quoted literal, the text is shown without its carriage returns if and only if it holds no double quote and no backslash, whatever the escape sequences of the script language mean |
| Http.SplitLines | Project 3/http_server.cpp:86-96 | the CRLF loop with its skipped characters against the ended lines |
| Http.ParseRequestLine | Project 3/http_server.cpp:97-113 | the request-line loop with its skipped character against the two spaces |
| Http.ParseRequest | Project 3/http_server.cpp:86-128 | the whole parser, with the exception of a short Host line |
| Http.RenderedIsParsed | Project 3/http_server.cpp:86-128 | for every body, what is recovered and what the body's lines can still replace |
| Http.HostAfterIs | Project 3/http_server.cpp:122-126 | the lines leave a given host if and only if none that begins with `Host` is cut short and the last of them names it, or there is none and it was there before |
| Http.RequestRoundTrip | Project 3/http_server.cpp:86-128 | method, URI, target, query, protocol and host are recovered if and only if no body line that begins with `Host` is cut short and the last such line, if any, names the same host |
| Http.BodyReplacesHost | Project 3/http_server.cpp:122-126 | a body line that begins with `Host` replaces the host |

## Left out

- ShellProcess.Shell.ExecuteCommands: takes command lists that stay inside themselves, with numbers of at least one (`Chain`); on others the executor reads past the end of its list or feeds a line that is not ahead, and `Lines.ChainIffComplete` says which lines those are.
- Lines.NpShell: the input is a list of lines, and end of input is its end; when an empty list passes a due pipe, what happens afterwards is not followed.
- UserPipes.Server.ExecuteCommand: a redirection with `<n` needs a waiting pipe, since the code follows a missing entry without a check; a negative number after `<` is excluded, since the code writes outside its table; a command with both `<me` and `>me` is excluded unless such a pipe waits already, since its child copies a descriptor that it has just closed; a new numbered pipe is opened before, not after, a stand-in for a missing user pipe, which only changes descriptor numbers.
- UserLines.LineServer.ExecuteCommands: numbers after `|` and `!` are at least one, the list does not end in `|`, and no command has both `<me` and `>me`; what a child holds above its standard descriptors is not tracked here.
- ServerLoop.Serve: stops at a hang-up with a pipe between the user and another, at an empty list when a pipe is due, at a line that `UserLines.LineServer.ExecuteCommands` does not take, and at one whose numbers do not read, where the program ends; an input line arrives whole.
- UserPipes.Server.Disconnect: when the condition fails, what happens afterwards with the stale records is not followed.
- SharedTable.RunSafe: a number after `<` lies in 1..30 and one after `>` is at least 1; the signal handlers that open FIFOs read the shared memory without the semaphore and are no steps.
- SharedTable.ChildTakesIff: which FIFO the descriptor stands for is up to the signal handlers; a child forked before a handler has run holds the older one.
- Environment.Server.Turn: of the built-in commands only setenv, printenv and exit matter to the environment; the others and the launched commands are one case.
- ServerPrinting.RoundTrip: numbers after `<` and `>` are written without a sign; a command of just `<m` after `>n` cannot be written, since the parser gives `<m` to the command before it.
- Relay.RepliesAreRight: replies are written in full; partial writes of a reply are not modelled.
- Socks.AnnouncesHostIff: 0.0.0.0 also announces a host in the code, although the extension asks for a non-zero last octet.
- SocksRules.CheckPermission: every line of the rule file has at least seven characters, since the code looks at the eighth without a check; an unreadable file is an empty one.
- Query.FormRoundTrip: values hold no ampersand and there are at most ten slots, so that an index is one digit; the port of a record that was never filled is an arbitrary value.
- Query.SocksIsRead: at least one slot stands before the SOCKS fields, as in the form.
- ScriptLiteral.TextIsShownIff: of the page's script only the literal is modelled; an escape sequence means a text no longer than itself, and a backslash before an ampersand means the ampersand.
- Http.ParseRequest: needs at least one ended line, since the code uses the first without a check; the buffer holds the request and no older bytes.
- Http.RequestRoundTrip: the field name is exactly `Host`; the code does not know other spellings, although field names are case-insensitive (section 3.2 of RFC 7230).
- Project 2/server_execute.cpp:254 lacks an operator; it is read as `&&`, as in Project 2/np_multi_proc.cpp:455, and only decides whether to wait.
- Failing `fork` and `pipe`, execvp, waiting for children, pipe capacity and scheduling.
- The switch of the server's standard output and error to the user's socket for a turn; the model calls them the inherited ones.
- Sockets, select, accept, DNS: results are parameters or steps.
- Messages, prompts, pages, `who`, `tell` and `yell`.
- Removing the first line feed and carriage return of an input line.
- Memory management and the fixed buffers for words of a command.
- Project 1, and the console and cgi_server of Project 3, which repeat what is modelled here.
