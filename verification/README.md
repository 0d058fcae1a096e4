# Simterpose: the simulated socket world, its descriptors and the queens workload

Simterpose runs unmodified programs on a simulated network. It stops every traced process at its
system calls and answers the network calls from tables of its own: hosts and their addresses, ports,
bound and listening sockets, queues of pending connections, communications with two ends, pipes. This
project models those tables and the protocols around them, together with the N-queens program that
the repository uses as a workload, and proves what holds of every run.

| file | models |
|---|---|
| `Network.dfy` | one state and one function per emulated socket call, with a history of dials and accepts |
| `NetworkInvariant.dfy`, `NetworkPorts.dfy`, `NetworkHistory.dfy` | the three parts of the global invariant and their preservation by every call |
| `NetworkRuns.dfy` | runs, and the theorems about all of them |
| `Endpoints.dfy` | a network of endpoints without communications, slots and port tables, which the socket world is proved to follow, call by call and over every run |
| `NetworkExact.dfy` | the calls the code goes through with beyond the guards, and what each of them breaks |
| `Mailboxes.dfy` | how data gets from a send to a receive, through the mailbox of the receiver's host, and what is handed over |
| `Simulator.dfy` | the same calls as methods on mutable tables, in the order of the C code, each proved equal to its state function |
| `Rendezvous.dfy` | the two semaphores between `connect` and `accept`, step by step, for any number of clients |
| `PipeEnds.dfy`, `Pipes.dfy` | end lists changed while they are walked, and the life of pipes under pipe, dup, dup2, clone and close |
| `KernelDescriptors.dfy` | the kernel's descriptors, decided by the calls alone, which the descriptor tables are proved to follow |
| `Phase.dfy` | the entry/exit flag of a traced process against where it really is, through nested handler loops |
| `Tracee.dfy` | a process as ptrace shows it: memory by words, registers, neutralised, replaced and repeated calls, and which calls the kernel has run for it |
| `Translation.dfy` | the tables of the build that exchanges simulated for real ports |
| `Ledger.dfy` | what a run of that build has done, told from its steps alone, which the tables are proved to hold |
| `Hosts.dfy`, `Decimal.dfy` | giving addresses to hosts, the lookups between the two, and the text keys of the dictionaries |
| `Boards.dfy`, `Solutions.dfy`, `Queens.dfy`, `Unify.dfy` | symmetries of boards, the solution list, the backtracking search, the removal of congruent solutions |

The code relies on some conditions without checking them; they are the guards of the steps
(`NetworkInvariant.Enabled`, `Rendezvous.Disciplined`, `Pipes.Enabled`, `Translation.Enabled`):

- a socket takes a port at most once: it is not bound again, connected again, or connected after a bind,
  unless the call is refused anyway;
- a bound socket listens before it is dialled; a socket with a connection of its own does not listen, one
  with connections waiting does not listen again and is not closed, and a listener is bound when it is
  closed, or port 0 of its host is unused;
- one blocking client per accept dials while the server waits;
- `dup2` of a pipe has two different descriptors, no pipe is duplicated through `fcntl`, and the two
  descriptors of a pipe are consecutive;
- the address lookups of the platform are inverse to each other (`Hosts.LookupsInverse` says when they
  are), and no host has the address 127.0.0.1;
- real ports in use are distinct.

For the socket calls, `dup2` and `fcntl` the guards are proved exact: every other call that the code goes
through with breaks what the guarded calls keep (`NetworkExact.StepExact`, `NetworkExact.RunExact`,
`Pipes.Dup2Exact`, `Pipes.FcntlDupExact`).

What a model function does is not only kept by an invariant but pinned by a second description that does
not name it. The socket calls follow a network of endpoints that knows no communications, slots or port
tables (`Endpoints.StepRefines`), the descriptor calls follow the kernel's descriptors
(`KernelDescriptors.StepDescribes`), the translation follows its ledger (`Ledger.StepTold`), and for the
mailboxes and the rendezvous what was sent, taken, connected and posted is read off the list of calls
(`Mailboxes.EndToEnd`, `Rendezvous.RunQueues`). The traced process keeps the list of the calls the kernel
has run for it, with the registers and the memory of each.

## Where the code does not do what one would expect

Each of these is a theorem. Where a property fails, its exact condition is proved and a run or a
continuation shows the failure.

- The socket returned by `accept` has the address the client dialled exactly when the listener is
  bound to the wildcard, the loopback address or its host's own address
  (`NetworkRuns.AddressesAgree`, `NetworkRuns.ForeignBindDisagrees`).
- The peer address recorded by `connect` is the dialled one only under the condition of
  `NetworkRuns.RecordedPeerAddress`: for a wildcard listener the code compares processes, not addresses
  (`NetworkRuns.WildcardPeerDisagrees`).
- A socket that is bound and closed without listening keeps its port for ever (`NetworkRuns.BoundClose`,
  `NetworkRuns.AbandonedForever`).
- A client that dials while another one is in the rendezvous can wait for ever
  (`Rendezvous.UndisciplinedIsLost`, `Rendezvous.LostForever`), and the server can leave `accept` before
  the client it accepted has finished `connect` (`Rendezvous.TwoClientsBreakOrder`).
- `clone` copies the ends of all other processes, so a pipe can outlive all its descriptors
  (`Pipes.CloneExact`, `Pipes.CloneLeaks`, `Pipes.LeakReached`).
- `dup2` of a pipe's descriptor onto itself leaves the descriptor open but in no end list, and frees the
  pipe in use if it was the only end (`Pipes.SelfDup2`, `Pipes.Dup2Exact`).
- A second bind or connect of a socket leaves its first port counted once too often
  (`NetworkExact.RebindMiscounts`, `NetworkExact.ReconnectMiscounts`), and what is accepted on a listener
  that was bound twice is not on the dialled port (`NetworkExact.RebindDisagrees`). A second listen drops
  the queue (`NetworkExact.RelistenDropsQueue`). Closing a socket that listens without being bound takes
  another socket off port 0 if there is one (`NetworkExact.UnboundCloseMiscounts`).
- All ends on one host receive from one mailbox, so an end can take what was sent to another one as soon
  as ends of two connections share a host (`Mailboxes.DeliveryExact`, `Mailboxes.StrayRun`). `read` hands
  over nothing at all, and `recvfrom` takes the data for a text and stops at its first zero
  (`Mailboxes.HandOverExact`).
- A duplicate of a pipe's descriptor made by `fcntl` is in no end list, so the pipe is freed while it is in
  use (`Pipes.FcntlDupExact`, `Pipes.FcntlDupFrees`).
- Among the calls modelled, the phase flag goes wrong after a failed `close`, a `connect` outside the
  internet domain, `pipe`, `clone` and a signal, and only then (`Phase.Tracer.Run`). A process that exits
  inside the nested handler loop of a blocking `connect` is traced after it has been let go, because the
  nested result is dropped (`Phase.Tracer.Run`, `Phase.SilentClientFaults`).
- The search for a real port to bind never ends if the address is shorter than an internet address or no
  port is free (`Tracee.Process.SomeTries`).
- With address translation, a process that dials the loopback address finds its host's address in its
  place afterwards, and one that the kernel refuses finds 127.0.0.1 and a real port
  (`Translation.DialledAddressRestored`, `Translation.LoopbackNotRestored`, `Translation.RefusedRun`).
- `ptrace_cpy` splits the length by the bit of value 8, not by the bits below a word; this happens to
  copy the same words (`Tracee.MaskSplit`).

## Model

| member | source | states |
|---|---|---|
| NetworkRuns.StepKeepsInv | src/communication.c:34-215 | every emulated call keeps the global invariant: wiring of sockets, queues and communications, port accounting, and agreement with the history |
| NetworkRuns.AcceptsInDialOrder | src/communication.c:164-215 | in every run, with any number of listens while nothing waits, the k-th accept on a listener joins the k-th connection dialled to it; dialled is accepted followed by the queue |
| NetworkRuns.PeersSymmetric | src/communication.c:79-109 | in every run the two ends of an accepted connection share one communication, are each other's peers, and each one's peer queue is the other's own queue |
| Endpoints.StepRefines | src/communication.c:34-215 | every call does to owner, address, role, backlog and sent data of every endpoint what the reference network does, and to no other endpoint anything |
| Endpoints.RunRefines | src/communication.c:34-215 | every run of the socket world is a run of the reference network |
| Endpoints.FindsExact | src/data_utils.c:213-227 | a connect finds an endpoint in the reference network, by its role, host and bound address, if and only if the port tables name it |
| Endpoints.InUseExact | src/data_utils.c:165-172 | a port has a table entry if and only if an endpoint occupies it |
| NetworkRuns.AddressesAgree | src/sys_accept.c:130-160 | accept reports the client's address and port, which is the address of the client's own host unless it dialled loopback; the new socket has the dialled port, and the dialled address if and only if the listener is bound to the wildcard, loopback or its host's address |
| NetworkRuns.LiveAddresses | src/sockets.c:174-180 | while a connection lives, its two sockets carry the addresses that were reported and dialled, and the client is on the host recorded for it |
| NetworkRuns.ForeignBindDisagrees | src/sys_bind.c:50-67 | from every state with two idle sockets, four legal calls lead to an accepted socket whose address is not the dialled one |
| NetworkRuns.RecordedPeerAddress | src/communication.c:164-196 | the peer port recorded by connect is the dialled one; the peer address is, exactly under a condition on the bind and the two processes |
| NetworkRuns.WildcardPeerDisagrees | src/communication.c:164-196 | from every state with two idle sockets of different processes on one host, three legal calls lead to a loopback connection that records another peer address |
| NetworkRuns.PortAccounting | src/data_utils.c:175-195 | in every run a port has an entry if and only if sockets use it, the entry counts exactly them, and at most one is bound there |
| NetworkRuns.ClientPortsDistinct | src/sys_connect.c:160-168 | in every run a connected client shares its local port with no other socket of its host |
| NetworkRuns.BoundClose | src/sockets.c:147-161 | closing a bound socket frees its place on the port if and only if it was listening |
| NetworkRuns.AbandonedForever | src/sockets.c:147-161 | a socket bound and closed without listening occupies its port in every continuation |
| Endpoints.ReceivedIsSent | src/sockets.c:354-373 | in every run the receive queue of each end of a live connection holds exactly the data of the other end's send calls, in the order of the calls, with one task of the right sender and size for each piece |
| Endpoints.PostedIsSent | src/communication.c:355-359 | in every run the queue a socket sends to holds the data of its send calls, in order |
| NetworkRuns.AcceptKeepsData | src/communication.c:199-215 | data sent between connect and accept is still there after accept |
| NetworkRuns.SendIsLocal | src/communication.c:102-109 | a send changes no other connection, no socket and no port |
| NetworkRuns.AliveWhileOpen | src/communication.c:112-145 | in every run a connection exists as long as one of its ends is open |
| NetworkRuns.LastCloseReleases | src/communication.c:112-145 | the first close of a connection releases nothing; the second releases both sockets and the communication |
| NetworkExact.StepExact | src/sys_bind.c:46-67 | every call the code goes through with, on any open socket, keeps the port counts, both ends of every connection and the order of every queue if and only if its guard holds |
| NetworkExact.RunExact | src/communication.c:34-215 | the runs that stay sound after every call are exactly the runs all of whose calls meet their guards |
| NetworkExact.RebindMiscounts | src/sys_bind.c:50-67 | a second bind, which the code accepts, leaves the first port counted once too often |
| NetworkExact.ReconnectMiscounts | src/sys_connect.c:160-168 | so does a connect of a socket that has a port already |
| NetworkExact.RebindDisagrees | src/sys_bind.c:50-67 | from every state with an idle client and a listener it reaches: bind the listener again, dial the old port, accept, and the accepted socket is not on the dialled port |
| NetworkExact.RelistenDropsQueue | src/sys_listen.c:46-60 | after a second listen a connection that waited is in no queue |
| NetworkExact.RelistenLosesOrder | src/sys_listen.c:46-60 | a second listen with connections waiting breaks the order of dials and accepts |
| NetworkExact.ListenUnlinks | src/sys_listen.c:46-60 | a connected socket that listens is no end of its connection any more |
| NetworkExact.CloseUnlinks | src/communication.c:112-145 | closing a listener with connections waiting leaves one of them without its other end |
| NetworkExact.UnboundCloseMiscounts | src/data_utils.c:281-306 | closing a listener that was never bound takes a place off a port in use that has the number the socket was created with |
| Mailboxes.HostDelivery | src/communication.c:391-396 | in every run what a host has taken from its mailbox, followed by what is left there, is the tasks of the send calls to its ends, in order |
| Mailboxes.TakesOwn | src/sys_recvfrom.c:57-65 | where only the two ends of one connection share a host, an end takes a task that was sent to it: the sender of any other task there still waits |
| Mailboxes.DeliveryExact | src/syscall_process.c:238-272 | in every run every end takes the tasks that were sent to it, in order, if and only if ends of different connections are on different hosts |
| Mailboxes.StrayRun | src/sys_recvfrom.c:57-65 | for any two ends of different connections on one host, a run in which an end takes what was sent to another |
| Mailboxes.HandOverExact | src/sys_recvfrom.c:139-147 | read hands over nothing; recvfrom hands over exactly the piece sent if and only if it has no zero before its last byte and the buffer has its size, or is larger and the piece ends with a zero |
| Mailboxes.HandOverHands | src/sys_recvfrom.c:124-155 | read answers -ENOSYS and hands over no byte; recvfrom answers with the number of bytes it hands over, which are the first ones of the text, no more than fit, ending with the first zero or with the buffer full |
| Mailboxes.EndToEnd | src/sys_recvfrom.c:57-87 | in every run on such a platform the i-th receiving call of an end takes the data of the i-th send call of its peer, and hands it over exactly if and only if it arrives whole |
| NetworkInvariant.DialKeepsWired | src/communication.c:164-196 | connecting keeps every socket and queue wired: the new communication waits in exactly one queue |
| NetworkInvariant.AcceptKeepsWired | src/communication.c:199-215 | accepting keeps the wiring: the joined communication leaves the queue and has two different sockets |
| NetworkInvariant.CloseKeepsWired | src/communication.c:112-145 | closing leaves no socket that refers to a released communication, and no communication that refers to a released socket |
| NetworkPorts.StepKeepsPorts | src/data_utils.c:281-306 | every call keeps the port counts, the bound sockets and the solitude of client ports |
| NetworkPorts.TargetIsListener | src/data_utils.c:213-227 | what a connect finds is a socket of the dialled host bound to that port for that side, and an open listener as soon as it has a communication |
| NetworkPorts.TargetExact | src/data_utils.c:213-227 | a connect reaches a socket if and only if that socket is bound to the dialled port on the side the dialled address is looked up on, so it is refused if and only if none is, however many sockets share the port |
| NetworkHistory.DialKeepsRemembered | src/sys_connect.c:128-205 | a connect agrees with the history: queue, addresses and empty data |
| NetworkHistory.AcceptKeepsRemembered | src/sys_accept.c:130-167 | an accept agrees with the history: order, addresses and data |
| NetworkHistory.SendDelivers | src/syscall_process.c:238-272 | a send appends its data to the receive queue of the other end and a task of that size from the sender's host to its tasks, and leaves the sender's own queues alone |
| Simulator.GetRandomPort | src/data_utils.c:262-278 | the result is the largest unused 16-bit port, found after at most one probe more than ports in use |
| Simulator.World.RegisterPort | src/data_utils.c:175-195 | the port table becomes that of the state machine |
| Simulator.World.SetPortOnBinding | src/data_utils.c:198-210 | the option bits accumulate and the bound socket is set; a port without entry is left alone |
| Simulator.World.ReleaseSocket | src/data_utils.c:281-306 | the socket and its place on the port are gone, and nothing else |
| Simulator.World.GetBindingSocketHost | src/data_utils.c:213-227 | the bound socket that is reachable from the given side, or none |
| Simulator.World.Socket | src/sockets.c:61-88 | a fresh socket without address or communication |
| Simulator.World.Bind | src/sys_bind.c:46-99 | refines the bind step; a port in use is refused with EADDRINUSE and nothing changes |
| Simulator.World.Listen | src/sys_listen.c:46-60 | refines the listen step |
| Simulator.World.AskConnect | src/communication.c:164-196 | the new communication is queued last at the listener and records its address |
| Simulator.World.Dial | src/sys_connect.c:157-172 | refines the connect step with the largest free port of the client's host |
| Simulator.World.Connect | src/sys_connect.c:128-205 | refines the connect step for every open socket, bound, connected or not, and is refused with ECONNREFUSED exactly when no socket is bound where the connect looks |
| Simulator.World.JoinOnAccept | src/communication.c:199-215 | the first waiting connection leaves the queue and gets the new socket as its other end |
| Simulator.World.Accept | src/sys_accept.c:63-99 | refines the accept step and returns the address of the client |
| Simulator.World.Send | src/sockets.c:354-373 | refines the send step |
| Simulator.World.Close | src/communication.c:112-145 | refines the close step in all three states of a communication |
| Rendezvous.StepKeepsRound | src/sys_accept.c:37-99 | every semaphore operation keeps the shape of the round |
| Rendezvous.RunQueues | src/sys_connect.c:52-70 | in every run, with or without the discipline, the clients joined so far followed by those waiting are the connect calls in order, and those posted are the connect_post calls in order |
| Rendezvous.Handshakes | src/sys_accept.c:52-99 | for any number of rounds: after the first acquire a connection is waiting, the server leaves accept only when every client that has connected was accepted and ran connect_post, in the order of the connects, and then all semaphores are zero |
| Rendezvous.Progress | src/sys_connect.c:52-70 | no round with a client is stuck, and the enabled operation leaves less work |
| Rendezvous.NeverStuck | src/sys_connect.c:52-70 | in every run of disciplined rounds a disciplined step is enabled, as long as there are clients |
| Rendezvous.InternalStepsWork | src/sys_connect.c:52-70 | every operation of a round leaves less work, under every schedule |
| Rendezvous.FinishRound | src/sys_accept.c:37-99 | a round with a client can be finished whoever else has queued up |
| Rendezvous.LostForever | src/sys_connect.c:60-70 | a client left on an earlier stream never leaves connect, in any continuation |
| Rendezvous.UndisciplinedIsLost | src/sys_connect.c:56-70 | every connect that breaks the one-client discipline has a continuation in which its client is lost |
| Rendezvous.TwoClientsBreakOrder | src/sys_connect.c:116-121 | with two clients on one stream the server can leave accept before its client ran connect_post |
| PipeEnds.RemoveEnds | src/syscall_process.c:287-305 | the remove-and-step-back loop with a wrapping unsigned cursor is filtering, in order |
| PipeEnds.DuplicateEnds | src/sys_dup.c:43-67 | the append-while-walking loop ends and appends exactly the renamed copies of the matching entries |
| PipeEnds.CopyEnds | src/sys_clone.c:83-112 | the append-while-walking loop of clone ends and appends exactly the copies of the other processes' entries |
| PipeEnds.CopiedMembers | src/sys_clone.c:83-112 | repeating the copy for every inherited descriptor adds no entry that one copy would not |
| Pipes.StepKeepsTracked | src/sys_pipe.c:34-74 | every call keeps every pipe descriptor of every process in the right end list of a live pipe |
| Pipes.FreedUnreferenced | src/syscall_process.c:275-319 | in every run in which no pipe is duplicated by fcntl, a close frees a pipe only when no other descriptor of any process refers to it |
| KernelDescriptors.StepDescribes | src/sys_dup.c:27-69 | every call leaves exactly the kernel's descriptors: a duplicate refers to what its original refers to, a child has every descriptor of its parent, and no other descriptor changes |
| KernelDescriptors.RunDescribes | src/sys_clone.c:62-115 | in every run the tables have the kernel's descriptors, each on the same pipe and end |
| KernelDescriptors.ReferencedLives | src/syscall_process.c:275-319 | in every run a pipe lives, with an entry in the right end list, as long as one of the kernel's descriptors refers to it |
| KernelDescriptors.DuplicateKeeps | src/sys_dup.c:33-67 | after a dup the pipe survives the close of the descriptor it was made from |
| Pipes.ExactLiveness | src/syscall_process.c:287-311 | with exact end lists the live pipes are exactly those that a descriptor refers to |
| Pipes.StepKeepsExact | src/sys_dup.c:33-68 | without clone, end lists stay exact |
| Pipes.CloneExact | src/sys_clone.c:62-115 | clone keeps the end lists exact if and only if the parent holds every end of every pipe it holds |
| Pipes.CloneLeaks | src/sys_clone.c:83-112 | whenever the parent holds a pipe but not under the number of one of its ends, no closes whatever after the clone free the pipe |
| Pipes.LeakReached | src/sys_clone.c:83-112 | a run from the empty table reaches such a parent |
| Pipes.SurvivesExact | src/syscall_process.c:287-311 | when all descriptors of all processes have been closed, a pipe lives on if and only if an entry belonged to no descriptor of it |
| Pipes.FcntlDupExact | src/sys_fcntl.c:73-98 | duplicating a descriptor by fcntl keeps every pipe descriptor in its end list if and only if it is not a pipe, or an entry was left under the new number |
| Pipes.FcntlDupUntracked | src/sys_fcntl.c:73-98 | with exact end lists, if and only if it is not a pipe |
| Pipes.FcntlDupFrees | src/sys_fcntl.c:73-98 | make a pipe, duplicate one of its descriptors by fcntl, close the two made with it: the pipe is freed in use |
| Pipes.SelfDup2 | src/sys_dup2.c:27-74 | dup2 of a pipe's descriptor onto itself leaves it open but in no end list, and frees the pipe if and only if it was the only end |
| Pipes.Dup2Exact | src/sys_dup2.c:27-74 | dup2 keeps every pipe descriptor in its end list if and only if it names two descriptors or one that is not a pipe |
| Pipes.Descriptors.MakePipe | src/sys_pipe.c:26-82 | refines the pipe step |
| Pipes.Descriptors.Dup | src/sys_dup.c:27-69 | refines the dup step |
| Pipes.Descriptors.Dup2 | src/sys_dup2.c:27-74 | refines the dup2 step, which closes the target first, for any two descriptors |
| Pipes.Descriptors.Close | src/syscall_process.c:275-319 | refines the close step |
| Pipes.Descriptors.Clone | src/sys_clone.c:62-115 | refines the clone step, whatever the order in which descriptors are inherited |
| Phase.SilentClientFaults | src/sys_connect.c:65-70 | a client that connects, makes one emulated call and exits is such a run |
| Phase.WalkNested | src/sys_connect.c:65-70 | a handler loop inside a handler loop is the inner loop followed by the rest of the outer one |
| Phase.Tracer.ProcessHandle | src/syscall_process.c:56-235 | the handler loop, with nested loops and extra event stops, has the outcome computed from the calls |
| Phase.Tracer.Run | src/simterpose.c:235-252 | over every sequence of calls, the flag disagrees with the stop at some handler call if and only if a call before the exit disturbs it; otherwise ptrace is used on a process that was let go if and only if a blocking connect is unfinished at the exit |
| Tracee.MaskSplit | src/ptrace_utils.c:78-110 | splitting the length by the bit of value 8 copies exactly as many words as the length has |
| Tracee.Process.Copy | src/ptrace_utils.c:78-110 | for every length exactly the words of that length are copied; nothing beyond the next multiple of 8 is written |
| Tracee.Process.Poke | src/ptrace_utils.c:113-127 | the memory changes exactly in the words that hold the length |
| Tracee.Process.PokeThenCopy | src/ptrace_utils.c:78-127 | poking and copying back returns the same bytes |
| Tracee.Process.Answer | src/ptrace_utils.c:227-266 | a neutralised and restored call differs from the registers at entry only in its result, and what the kernel has run in its place is one tuxcall |
| Tracee.Process.RecordSocket | src/ptrace_utils.c:147-187 | after a socket was created in place of a call, the process is back at the entry of that call with all registers as they were, and the kernel has run one call, the creation of an internet stream socket |
| Tracee.Process.SomeTries | src/ptrace_utils.c:295-337 | however many tries the search makes, one succeeds if and only if the address has the length of an internet address and one of the ports tried is free; each try is the same call naming the next port down |
| Tracee.Process.SearchPort | src/ptrace_utils.c:295-337 | the search ends at the first free port downwards, counting round, with the call's registers unchanged, and the kernel has run the caller's bind once for every try, naming the next port down each time |
| Tracee.Process.FindFreeBindingPort | src/ptrace_utils.c:295-337 | the port is the first free one, the kernel has run one bind per try with the rest of the caller's address in place, and afterwards the caller's address buffer and arguments are unchanged |
| Translation.StepKeeps | src/data_utils.c:230-241 | every step of every process keeps the two translation tables inverse to each other, up to loopback clients |
| Translation.DialledAddressRestored | src/sys_connect.c:102-111 | in every run, whatever happens between its two halves, a connect gives the dialled address back if and only if the kernel makes it and the address is not loopback, or the kernel refuses it and loopback was dialled at its own real port |
| Translation.RefusedNotRestored | src/sys_connect.c:102-111 | every pending dial of another host that the kernel refuses ends with another address |
| Translation.RefusedRun | src/sys_connect.c:214-225 | a run from the initial tables in which a refused process finds 127.0.0.1 and the real port |
| Translation.RealPortTranslatesBack | src/data_utils.c:309-349 | in every reachable state the real port of a registered port translates back to its address if and only if it is not a loopback client named last by accept |
| Translation.RealPortsDistinct | src/data_utils.c:230-241 | registered ports never share a real port |
| Translation.LoopbackNotRestored | src/sys_connect.c:235-247 | a run in which dialling 127.0.0.1 comes back as the address of the host |
| Ledger.StepTold | src/data_utils.c:230-241 | every step does to the connects inside the kernel, to those that came back, to the real ports and to the number of sockets on each port what the ledger does |
| Ledger.RunTold | src/sys_connect.c:102-111 | in every run the tables hold what the steps say; in particular each finished connect is logged with the address its own entry had dialled and the kernel's result |
| Ledger.PortShared | src/data_utils.c:281-306 | in every run a registered port has its entry as long as more sockets have come to it than have been closed, and the entry counts them |
| Translation.Translator.Bind | src/sys_bind.c:46-86 | refines the bind step of the translation |
| Translation.Translator.SetRealPort | src/data_utils.c:230-241 | the entry has the real port; a port without entry is left alone |
| Translation.Translator.GetRealPort | src/data_utils.c:332-349 | the real port of the dialled host's port, or -1 |
| Translation.Translator.ConnectIn | src/sys_connect.c:214-225 | the address put in place is the loopback address with the real port |
| Translation.Translator.ConnectOut | src/sys_connect.c:102-111 | refines the exit of connect for both results of the kernel, and returns the address found afterwards |
| Translation.Translator.AcceptOut | src/sys_accept.c:176-197 | refines the exit of accept |
| Hosts.HostList.ReadExplicit | src/data_utils.c:441-455 | every host with a property has its address and is filed under its text; the others are queued in order |
| Hosts.HostList.NextFree | src/data_utils.c:464-475 | the search ends at the least unused positive number, before the 32-bit counter can wrap |
| Hosts.HostList.AssignMissing | src/data_utils.c:457-483 | the queued hosts receive, in order, the least positive numbers that no host carries |
| Hosts.HostList.Init | src/data_utils.c:427-487 | every host has an address; chosen ones are distinct from each other and from all explicit ones |
| Hosts.HostList.GetHostByIp | src/data_utils.c:251-259 | the host filed under the dotted form of the address, or none |
| Hosts.AddressesDiffer | src/data_utils.c:460-483 | a chosen address is never that of another host |
| Hosts.ParsedPrinted | src/data_utils.c:449-452 | a property in the form inet_ntoa prints has the value it prints |
| Hosts.LookupSound | src/data_utils.c:251-259 | an address never leads to a host with another address, and an address of no host to none |
| Hosts.LookupInverts | src/data_utils.c:244-259 | the address of a host leads back to it if and only if it was chosen, or is written canonically and not repeated by a later host |
| Hosts.LookupsInverse | src/data_utils.c:244-259 | the two lookups are inverse on the whole platform if and only if explicit addresses are canonical and distinct |
| Decimal.ValueOfText | src/data_utils.c:170-171 | the decimal key of a number determines the number |
| Decimal.KeysInjective | src/data_utils.c:166-172 | distinct ports have distinct dictionary keys |
| Decimal.PortKeyFits | src/data_utils.c:169-170 | key and terminator fit six bytes exactly up to 99999, hence for every port |
| Decimal.AtonOfNtoa | src/data_utils.c:449-452 | reading a dotted quad inverts printing it, for every 32-bit address |
| Decimal.NtoaInjective | src/data_utils.c:251-259 | distinct addresses have distinct dotted keys |
| Boards.FourTurns | tests/apps/chess_advanced.c:163-173 | four quarter turns are the identity |
| Boards.TwoMirrors | tests/apps/chess_advanced.c:177-183 | two mirrorings are the identity |
| Boards.MirrorAfterRotate | tests/apps/chess_advanced.c:163-183 | turning a mirror image is mirroring the opposite turn |
| Boards.ImageSolution | tests/apps/chess_advanced.c:126-183 | every symmetry maps solutions to solutions |
| Boards.NoReflectionFixes | tests/apps/chess_advanced.c:231-238 | no reflection fixes a solution of size two or more |
| Boards.ImageCompose | tests/apps/chess_advanced.c:163-183 | symmetries compose as the dihedral group of the square |
| Boards.CongruentSymmetric | tests/apps/chess_advanced.c:216-238 | congruence is symmetric: every symmetry has an inverse |
| Boards.CongruentTransitive | tests/apps/chess_advanced.c:216-238 | congruence is transitive |
| Solutions.Compare | tests/apps/chess_advanced.c:152-159 | equality of the compared rows |
| Solutions.SolutionList.Push | tests/apps/chess_advanced.c:60-72 | the board is in front of the old contents |
| Solutions.SolutionList.Pop | tests/apps/chess_advanced.c:85-97 | the first node is gone and its board returned |
| Solutions.SolutionList.RemoveAt | tests/apps/chess_advanced.c:101-122 | the node at the position is gone, the others stay in order |
| Solutions.SolutionList.Remove | tests/apps/chess_advanced.c:197-212 | the first node with an equal board is gone, the others stay in order |
| Queens.Conflict | tests/apps/chess_advanced.c:126-137 | whether the queen of a column attacks one to its left |
| Queens.NextKeeps | tests/apps/chess_advanced.c:292-317 | every iteration keeps the stored boards exactly the solutions below the search frontier, newest first |
| Queens.NextProgresses | tests/apps/chess_advanced.c:292-317 | every iteration moves the board up as a number to the base size + 1, or keeps it and moves right |
| Queens.Store | tests/apps/chess_advanced.c:242-253 | the board is stored in front of the list |
| Queens.Solve | tests/apps/chess_advanced.c:285-320 | for every size the search ends, and the list holds every conflict-free placement exactly once, in descending lexicographic order |
| Unify.RotateBoard | tests/apps/chess_advanced.c:163-173 | the result is the image under a quarter turn |
| Unify.MirrorBoard | tests/apps/chess_advanced.c:177-183 | the result is the mirror image |
| Unify.GoneIsClass | tests/apps/chess_advanced.c:216-238 | what a visit removes is exactly the rest of the class of the visited board |
| Unify.RemoveRotations | tests/apps/chess_advanced.c:216-227 | the turns of the board are gone, the board itself and all others stay |
| Unify.RemoveMirrors | tests/apps/chess_advanced.c:231-238 | the mirror image, unless it is the board itself, and the turns of the mirror image are gone; the others stay |
| Unify.VisitKeeps | tests/apps/chess_advanced.c:257-281 | a visit removes neither the visited node nor any before it |
| Unify.VisitStep | tests/apps/chess_advanced.c:257-281 | a visit keeps what the walk will leave in the end |
| Unify.Unique | tests/apps/chess_advanced.c:257-281 | the walk leaves the first board of every class, in order |
| Unify.RepresentativesGreatest | tests/apps/chess_advanced.c:257-281 | every board left is the lexicographically greatest of its class |
| Unify.RepresentativesOfAll | tests/apps/chess_advanced.c:257-281 | of a complete descending list, one board of every class is left, the greatest, and no two are congruent |
| Unify.CongruenceFree | tests/apps/chess_advanced.c:334-336 | solving and unifying leaves exactly one board per class of solutions under the eight symmetries, the greatest, in descending order |

## Left out

- Exact values of `ref_nb` and `refcount`, and the order in which memory is freed: the model says which objects are released.
- `shutdown`: in the full-mediation build the call is neutralised at its entry and never reaches the communication, so there is no shut-down state.
- Non-blocking `connect`, `poll`, `select`, `getpeername`, `getsockopt`, `sendmsg` and `recvmsg`: unfinished in the code.
- Sockets of other domains than the internet domain, except for what they do to the phase flag.
- Sockets shared by several descriptors or inherited by a clone: a socket has one descriptor here; pipes have any number.
- `lseek`, `open`, `creat`, and `fcntl` beyond the duplication of descriptors: single field updates.
- The first descriptors of a process, read from `/proc/self/fd`.
- SimGrid: timing, mailboxes and the scheduler; only counting semaphores and first-in-first-out queues are kept.
- The kernel and ptrace: errors of ptrace calls, and memory that cannot be read. The kernel's answers are parameters.
- Printing, logging, the benchmark and the processor timer.
- Failing allocation, and board sizes below one.
- Simulator.World.Connect: requires a free port on the client's host, because the search in the code does not end without one.
- Simulator.World.Listen: like a connect, drops the listening communication a socket had before, where the code leaves it in a list that nothing reads.
- NetworkInvariant.CloseKeepsWired: under the guard that a listener is closed with nothing waiting; `NetworkExact.CloseUnlinks` says what happens otherwise.
- Tracee.Process.SearchPort: for addresses of 16 bytes with some port free; `Tracee.Process.SomeTries` covers the rest.
- Tracee.Process.FindFreeBindingPort: for addresses of 16 bytes with some port free, because the loop does not end otherwise; longer addresses overflow the structure the code copies them to and are not modelled.
- Tracee.Process.Copy: C strings and structures are bytes; the destination is as long as the words that hold the length, which the code writes.
- PipeEnds.RemoveEnds: requires a list shorter than the unsigned cursor can count.
- Hosts.HostList.Init: requires fewer than two to the power 31 hosts, the range of the counter in the code; spellings of addresses other than decimal quads may stand for any address.
- Signals that arrive inside a system call, and signals whose registers name a call: a signal stop is handled by the default handler here.
- Mailboxes.DeliveryExact: a mailbox is a first-in-first-out queue, and the two ends of a connection belong to different processes; the mailboxes of pipes, and a receive that fails, are not modelled.
- Mailboxes.HandOverExact: says nothing of the bytes up to the next multiple of eight that are written beyond the data; `Tracee.Process.Poke` does.
- Phase.Tracer.ProcessHandle: ends when the flag disagrees with the stop; what the code does after that is not modelled.
- Pipes.Descriptors.Clone: models the body of the handler; in the dispatch of the code it is reached only in part, and the same holds for `pipe`.
