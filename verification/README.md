# punchgate in Dafny: the tunnel node as interacting state machines

punchgate connects a local port to a service on another peer. A requested tunnel waits in one of
several queues of the **tunnel machine** until its peer is found, dialed and reached directly; when
only a relayed path exists, a hole-punch attempt is made, and after a bounded number of relay
reconnects the tunnel is spawned over the relay. Beside it, the **connection tracker** follows relayed
and direct connections, attempt ids and attempt deadlines, and the **membership machine** decides when
the node is ready. An **event loop** runs all three: it updates the tracker, feeds synthesized and
translated events to the application state, remembers the Kademlia queries that its commands start,
and arms new attempts.

The project models these machines and proves what they keep over whole runs.

## How it is laid out

| file | what it holds |
|---|---|
| `Types.dfy`, `Ordering.dfy`, `Collections.dfy` | identifiers, events and commands; ranking by a total order; maps of lists, deduplication, sums over multisets |
| `TrackerModel.dfy`, `TrackerHistory.dfy`, `TrackerMachine.dfy` | the connection tracker: operations on values with their invariants, what it answers and what its state says about the past, and the class of six maps |
| `TunnelModel.dfy`, `TunnelMachine.dfy` | the tunnel machine: one transition on values, and the class of maps updated in place |
| `TunnelInvariants.dfy`, `TunnelConservation.dfy`, `TunnelProvenance.dfy`, `TunnelFallback.dfy`, `TunnelRedials.dfy` | what every run of the tunnel machine keeps |
| `TunnelAnswers.dfy`, `TunnelAddresses.dfy`, `TunnelDials.dfy` | what it answers to each event, seen at one peer; its addresses as a function of the past; every dial it owes |
| `PeerModel.dfy`, `PeerAnswers.dfy`, `PeerMachine.dfy`, `AppModel.dfy` | the membership machine, what it answers and when exactly it becomes ready, and the two machines bridged by phase changes |
| `NodeModel.dfy`, `NodeMachine.dfy` | one iteration of the event loop on values, and the loop itself over the classes |
| `NodeTransit.dfy`, `NodeInvariants.dfy`, `NodeRuns.dfy`, `NodeConnections.dfy`, `NodeArming.dfy`, `NodeTunnels.dfy` | what every run of the whole node keeps |
| `NodeLookups.dfy`, `NodeHistory.dfy`, `NodeDelivery.dfy` | that no peer is left unasked, that the log is a run of the application, and that everything is delivered to application and tracker |
| `NodeSpent.dfy`, `NodeServed.dfy`, `NodeOrphan.dfy` | when a wait behind a relay can still end, the exact condition, and a run in which it cannot |
| `Text.dfy`, `SpecText.dfy`, `XmlText.dfy`, `Framing.dfy` | printers against parsers, XML escaping, and the wire format |

Code that updates fields in place is a class whose methods have loops and `modifies` clauses. Each
such method states its whole effect through a function on values (`View()` before and after), and the
theorems are about those functions, so they hold of the classes: `NodeMachine.RunNode` says that a run
of the loop over the mutable machines is a run of the model.

Three conventions matter when reading the statements.

* The swarm is the environment. Its events, the clock and the orders in which hash maps and sets are
  iterated are inputs, so every statement is for all of them. An order is a list, and the listing of a
  set by it is `Ordering.Listing`: any list gives a listing, and any listing is given by some list.
  Where the source emits commands while iterating a hash map, the commands of a transition are a
  multiset.
* A run of the node keeps a log with one record for each transition: the tunnel machine before and
  after, the tracker, the event and the commands. Statements about a whole run speak of its log.
* Ids that saturate saturate in the model as well. A statement that needs an id below the largest
  value says so.

The comment above `MAX_RELAY_RECONNECT_RETRIES` in `src/state/tunnel.rs` (lines 57-58) speaks of one
additional reconnect cycle; the constant is 3, and the model follows the constant.

## Model

| member | source | states |
|---|---|---|
| TrackerModel.RunsConsistent | src/node/connection_state.rs:80-87 | After every sequence of operations the six maps agree: an attempt carries its peer's sequence number and its peer has no direct connection, a deadline belongs to the active attempt, a pending dial refers to its peer's active attempt, and failed plus pending dials never exceed started ones until the counter saturates |
| TrackerModel.TrackedFailuresAreCurrent | src/node/connection_state.rs:211-248 | In a reachable state a tracked dial failure is charged to the active attempt of a relay-only peer or ignored; the stale outcome and the outcome without an attempt never occur for a tracked dial |
| TrackerModel.AttemptTimesOutOnce | src/node/connection_state.rs:287-301 | Over any sequence of operations an attempt of a peer is reported as timed out at most once, below saturation of the id |
| TrackerModel.AttemptIdsIncrease | src/node/connection_state.rs:335-339 | Over every sequence of operations, of two attempts of a peer the later has the larger id; only at the largest value are two ids equal |
| TrackerModel.TimesOutIffSwept | src/node/connection_state.rs:139-159 | Over every sequence of operations, an attempt is reported as timed out exactly once if some sweep at or after its deadline meets it alive, and never otherwise (below saturation) |
| TrackerModel.AttemptEndsOnTime | src/node/connection_state.rs:287-301 | Whatever operations lie between, as long as an attempt is alive and was not swept at or after its deadline, the next sweep reports it, under its id, if and only if its time is up (below saturation) |
| TrackerHistory.EstablishedAnswers | src/node/connection_state.rs:94-137 | Seen at one peer: a relayed connection is added; a direct one ends the attempt, reports its counters and hands out all relayed connections; no other peer is touched |
| TrackerHistory.StartAnswers | src/node/connection_state.rs:139-159 | An attempt starts if and only if the peer has relayed connections, no direct one and no attempt; it has the next id, fresh counters and its deadline |
| TrackerHistory.ClosedAnswers | src/node/connection_state.rs:161-185 | The connection leaves; attempt and deadline end if and only if it was the last for tracker and swarm, and both reported flags are exact |
| TrackerHistory.DialingAnswers | src/node/connection_state.rs:187-209 | A dial is counted exactly for a relay-only peer with an attempt, and reported as its number |
| TrackerHistory.ErrorAnswers | src/node/connection_state.rs:211-248 | In a reachable state a failed dial is counted and reported with both counters, or ignored, or reported as untracked, exactly by what is tracked |
| TrackerHistory.SweepAnswers | src/node/connection_state.rs:287-301 | Seen at one peer: its deadline is reported and taken if and only if it has passed |
| TrackerHistory.AttemptLasts | src/node/connection_state.rs:250-258 | Over every sequence of operations an attempt lasts exactly until a direct connection to its peer or the loss of its last one |
| TrackerHistory.PendingExactly | src/node/connection_state.rs:187-258 | Over every sequence of operations a dial is pending for a peer if and only if some operation started it and it was not settled or restarted since, nor the attempt of the peer ended |
| TrackerHistory.CountsAreExact | src/node/connection_state.rs:187-248 | Over every sequence of operations the counters of an attempt are the dials to its peer since its start and their failures, as far as 32 bits go |
| TrackerModel.SweepIsExact | src/node/connection_state.rs:287-301 | A sweep reports exactly the deadlines that have passed, each with the id of the active attempt, and leaves exactly the later ones |
| TrackerMachine.ConnectionStateMachine.constructor | src/node/connection_state.rs:90-92 | A new tracker knows no connection and no attempt |
| TrackerMachine.ConnectionStateMachine.OnConnectionEstablished | src/node/connection_state.rs:94-137 | A relayed connection is added; a direct one completes the attempt, drops the peer's pending dials and hands out its relayed connections |
| TrackerMachine.ConnectionStateMachine.StartHolePunchAttempt | src/node/connection_state.rs:139-159 | An attempt starts exactly for a relay-only peer without one, under the next id and with a deadline |
| TrackerMachine.ConnectionStateMachine.NextHolePunchAttemptId | src/node/connection_state.rs:335-339 | The sequence number of the peer goes up by one, saturating |
| TrackerMachine.ConnectionStateMachine.OnConnectionClosed | src/node/connection_state.rs:161-185 | The id leaves both sets; the peer counts as gone only if the swarm reports none left and none is tracked |
| TrackerMachine.ConnectionStateMachine.RemoveConnectionId | src/node/connection_state.rs:315-333 | The id is removed, an emptied set disappears, and the result says whether that happened |
| TrackerMachine.ConnectionStateMachine.OnDialing | src/node/connection_state.rs:187-209 | A dial to a relay-only peer with an attempt is counted and remembered under that attempt |
| TrackerMachine.ConnectionStateMachine.OnOutgoingConnectionError | src/node/connection_state.rs:211-248 | The five outcomes of a failed dial, and the pending dial is forgotten in each |
| TrackerMachine.ConnectionStateMachine.CompleteHolePunchAttempt | src/node/connection_state.rs:250-258 | Attempt, deadline and pending dials of the peer go away together |
| TrackerMachine.ConnectionStateMachine.RemovePendingHolePunchDialsForPeer | src/node/connection_state.rs:341-344 | Exactly the pending dials to other peers are kept |
| TrackerMachine.ConnectionStateMachine.NextHolePunchDeadline | src/node/connection_state.rs:280-285 | The result is the least deadline, and there is none only if there are no deadlines |
| TrackerMachine.ConnectionStateMachine.TakeDueHolePunchTimeouts | src/node/connection_state.rs:287-301 | The due attempts are listed once each, in some order, and only their deadlines are removed |
| TunnelInvariants.RunsKeepRetryChain | src/state/tunnel.rs:232-243 | In every run a peer due for redial has a retry counter, a peer with a counter has a session and waiting tunnels, counters are between 1 and 3, and the session phase says whether the redial is still due |
| TunnelInvariants.RedialHasSession | src/state/tunnel.rs:738-764 | In every run, a peer due for redial has a session when its last connection is lost: the branch without one is dead, and the one command is made from that session |
| TunnelInvariants.RedialIsSnapshots | src/state/tunnel.rs:295-321 | In every run with a monotone clock, six lists concatenated, deduplicated and cut to twelve are exactly the direct snapshot followed by the relay addresses of the session, lists of at most eight and four distinct addresses of their kind |
| TunnelInvariants.CandidatesAreBest | src/state/tunnel.rs:268-293 | Candidates are within their lifetime and ordered by recency, and one is left out only when the limit is reached by others that rank before it |
| TunnelInvariants.ExpiryCutsTail | src/state/tunnel.rs:268-293 | A later ranking of the same record is a prefix of an earlier one: expiry only removes a suffix |
| TunnelAnswers.DirectConnectionSettles | src/state/tunnel.rs:697-712 | A direct connection leaves the peer in no queue and without retry state, spawns exactly the tunnels that were queued, and touches no other peer |
| TunnelAnswers.RelayedConnectionQueues | src/state/tunnel.rs:682-696 | A relayed connection moves the peer's tunnels behind those that wait for a direct path |
| TunnelAnswers.LossAnswers | src/state/tunnel.rs:738-780 | Losing the last connection dials the peer exactly once if a redial is due or tunnels wait, and not otherwise; tunnels without a redial go back to be connected |
| TunnelAnswers.LookupAnswers | src/state/tunnel.rs:539-550 | A lookup that ends without a connection dials the peer; with one, its tunnels are spawned or, behind a relay, queued |
| TunnelAnswers.StartAnswers | src/state/tunnel.rs:402-421 | A started attempt has a punching session with the known addresses and its redial unspent |
| TunnelAnswers.AttemptOverAnswers | src/state/tunnel.rs:423-517 | A failure or timeout counts only for the punching session of that attempt under a wait; the first three order a disconnect and a redial, the fourth spawns over the relay |
| TunnelAnswers.DialFailureAnswers | src/state/tunnel.rs:599-674 | Exactly when a failed dial must be redialed, which takes one dial and spends the flag, when it must be rerouted, and that it is otherwise ignored |
| TunnelAnswers.ResolutionAnswers | src/state/tunnel.rs:552-588 | A resolution sends the waiting tunnels to the first provider, with one lookup if it is not connected; the others become the fallbacks in order |
| TunnelAnswers.ServiceFailureAsksAgain | src/state/tunnel.rs:590-597 | A failed provider query is repeated if and only if tunnels wait for the service |
| TunnelAnswers.ReadyAnswers | src/state/tunnel.rs:528-533 | Entering ready publishes once and asks once for every waiting peer and service |
| TunnelAnswers.SilentEvents | src/state/tunnel.rs:782-796 | The events this machine does not act on |
| TunnelAnswers.ConfiguredInOrder | src/state/tunnel.rs:88-100 | A configured machine holds the tunnels of each peer and service in the order they were asked for, and nothing else |
| TunnelAddresses.IdentifyAnswers | src/state/tunnel.rs:245-400 | An identify exchange records the usable listed addresses, drops those past 45 seconds, recomputes the oracle and refreshes the session, whose redial is allowed again exactly if a snapshot changed |
| TunnelAddresses.FresherAddressesRearm | src/state/tunnel.rs:349-369 | After an exchange that changes a snapshot the session may redial; after one that changes none its redial is as it was |
| TunnelAddresses.AddressesFollowIdentifies | src/state/tunnel.rs:245-266 | Over every run with a monotone clock, an address is recorded if and only if it was listed no more than 45 seconds before the peer's last identify exchange, with the time of its last listing |
| TunnelDials.RedialsAreMade | src/state/tunnel.rs:643-663 | After every run with a monotone clock, an owed redial is exactly the one its session calls for, its direct and then its relay addresses or the bare peer, and a loss under a wait dials the peer |
| TunnelDials.FailureSpendsItsRedial | src/state/tunnel.rs:620-663 | A dial failure is answered with a dial exactly if it spends the redial of the session, and then with one |
| TunnelDials.RedialsAreOwed | src/state/tunnel.rs:599-674 | Over every run, the dials in answer to dial failures are exactly as many as the failures that must be redialed |
| TunnelDials.PendingIsAsked | src/state/tunnel.rs:151-188 | Whatever gives a peer tunnels to connect also looks it up or dials it |
| TunnelConservation.RunsConserve | src/state/tunnel.rs:520-800 | In every run of the tunnel machine, queued tunnels plus spawned tunnels are exactly the requested ones, with multiplicity |
| TunnelProvenance.SpawnHasSource | src/state/tunnel.rs:151-230 | In every run of the tunnel machine, a tunnel is spawned to a peer only if that pair was configured or a resolution so far listed the peer for the service |
| TunnelFallback.RerouteIsAssignment | src/state/tunnel.rs:151-188 | A reroute in closed form: the k-th tunnel of a service takes the k-th stored provider other than the failed peer, the rest wait for a provider again, with one lookup for each new peer and one query for each exhausted service |
| TunnelFallback.TargetsSpread | src/state/tunnel.rs:132-149 | Tunnels of one service rerouted together get pairwise different providers in list order, none of them the failed peer |
| TunnelFallback.RunsKeepDistinct | src/state/tunnel.rs:122-130 | In every run each stored fallback list is without repetition, which is what `TunnelFallback.TargetsSpread` asks for |
| TunnelFallback.FallbackIsBounded | src/state/tunnel.rs:122-188 | Over every run, moves of a service's tunnels to fallback providers never exceed the sum, over its handled resolutions, of the distinct providers minus one |
| TunnelRedials.RedialsAreBounded | src/state/tunnel.rs:620-663 | Over every run, dials to a peer in answer to its dial failures number at most its attempt starts plus its identify exchanges |
| TunnelMachine.TunnelState.HolepunchTargetPeers | src/state/tunnel.rs:110-120 | Exactly the peers some tunnel waits for, strictly increasing, so each once |
| TunnelMachine.TunnelState.StoreProviderCandidates | src/state/tunnel.rs:122-130 | The deduplicated list is stored, and an empty one removes the entry |
| TunnelMachine.TunnelState.NextFallbackProvider | src/state/tunnel.rs:132-149 | The loop pops up to the first provider other than the excluded one and drops a list that it empties |
| TunnelMachine.TunnelState.RerouteSpecsAfterDialFailure | src/state/tunnel.rs:151-188 | Collecting reassignments first and merging them afterwards, in any order, has the effect of moving the tunnels one at a time |
| TunnelMachine.TunnelState.InitiateLookups | src/state/tunnel.rs:190-203 | One lookup for each waiting peer and one query for each waiting service |
| TunnelMachine.TunnelState.RouteConnectedPeer | src/state/tunnel.rs:205-223 | Tunnels to a relayed peer are queued and nothing is commanded; otherwise each is spawned, in order |
| TunnelMachine.TunnelState.ScheduleHolepunchRetry | src/state/tunnel.rs:238-243 | The counter goes up by one, saturating, and a redial is due |
| TunnelMachine.TunnelState.ResolveService | src/state/tunnel.rs:552-588 | A resolution sends the waiting tunnels to the first provider, spawned, queued or looked up, and stores the others as fallbacks; an empty one asks again |
| TunnelMachine.TunnelState.DedupProviderCandidates | src/state/tunnel.rs:822-833 | Each peer is kept once, with the connection flag of its first occurrence, and in the order of first occurrences |
| TunnelMachine.TunnelState.RecordAddressCandidates | src/state/tunnel.rs:245-266 | Usable listed addresses are seen now, expired ones are dropped, and an empty record disappears |
| TunnelMachine.TunnelState.FreshCandidates | src/state/tunnel.rs:268-293 | Unexpired addresses of the class, most recent first and then by text, cut to the limit |
| TunnelMachine.TunnelState.PrioritizedRedialAddrs | src/state/tunnel.rs:295-321 | The six lists in priority order, deduplicated and cut to twelve |
| TunnelMachine.TunnelState.UpdateAddressOracle | src/state/tunnel.rs:323-400 | The oracle is recomputed, and the session takes over each nonempty list that differs and may then redial once more |
| TunnelMachine.TunnelState.RefreshSnapshots | src/state/tunnel.rs:349-369 | The four backfill and refresh conditions of the source amount to one rule for each list |
| TunnelMachine.TunnelState.RetryHolepunchAttempt | src/state/tunnel.rs:423-517 | A current failure schedules a disconnect, or after three of them spawns the waiting tunnels over the relay; anything else is ignored |
| TunnelMachine.TunnelState.OnDialFailed | src/state/tunnel.rs:599-674 | When a failed dial is redialed, rerouted or ignored |
| TunnelMachine.TunnelState.OnPeerConnected | src/state/tunnel.rs:682-713 | A relayed connection queues the tunnels; a direct one spawns all that waited and clears the retry state |
| TunnelMachine.TunnelState.OnAllConnectionsLost | src/state/tunnel.rs:738-780 | Losing the last connection redials for a retry, re-queues and dials, or clears the retry state |
| TunnelMachine.TunnelState.Transition | src/state/tunnel.rs:524-800 | One transition of the in-place machine has the state and commands of the transition on values, for every event |
| Collections.DedupLoop | src/state/tunnel.rs:803-820 | The loop with a set of seen elements keeps first occurrences in order |
| Ordering.SortedIsRank | src/state/tunnel.rs:284-290 | A listing of a set sorted by a total order is unique: whatever sort is used gives the same ranking |
| Ordering.SortSet | src/state/tunnel.rs:110-120 | Insertion one element at a time, in any order, gives that ranking |
| PeerModel.StoredExactly | src/state/peer.rs:30-43 | Exactly which addresses a list leaves stored: for a public IP it mentions only the last one listed, and everything else that was stored survives |
| PeerModel.OneAddressPerListedIp | src/state/peer.rs:211-228 | The same for a whole identify event: one stored address for each listed public IP, the last listed, and none invented |
| PeerModel.DiscoveredExactly | src/state/peer.rs:189-197 | Exactly the discovered pairs are added to what is stored |
| PeerModel.ExpiredExactly | src/state/peer.rs:199-209 | Exactly the expired pairs are removed, and a peer disappears only through them |
| PeerModel.PreferenceIsKept | src/state/peer.rs:18-24 | The three searches, in any iteration order, find nothing only in an empty set, a public address if there is one, and a loopback address only if there is no other |
| PeerModel.RelayRequestExact | src/state/peer.rs:92-106 | A reservation is requested if and only if the node is private, has none and the known bootstrap peer that iteration meets first has an address stored; it is requested there, at a preferred address |
| PeerModel.RequestIsSure | src/state/peer.rs:92-106 | The request is made in every iteration order if and only if a bootstrap peer is known and every known one has an address stored |
| PeerModel.RequestIsMissed | src/state/peer.rs:92-106 | An input for which no request is made although a bootstrap address is stored: a bootstrap peer identified without addresses is met first |
| Ordering.ListingEnumerates | src/state/peer.rs:92-106 | Every order lists a set once each, and every listing comes from some order, so all iteration orders are covered |
| PeerAnswers.PhaseIsExact | src/state/peer.rs:108-304 | Exactly which events change the phase, in which states: into ready, back to joining, into shutting down |
| PeerAnswers.ReadyNeedsBoth | src/state/peer.rs:108-122 | After a bootstrap success or a confirmed address a joining node is ready if and only if it is bootstrapped and has an external address |
| PeerAnswers.ReadyExactlyWhen | src/state/peer.rs:108-188 | Over every run, told from the events alone, exactly when a joining node becomes ready, with the known-peer guard of the discovery timeout |
| PeerAnswers.FieldsTellHistory | src/state/peer.rs:129-304 | Over every run, reachability, external addresses, bootstrap peers and whether the bootstrap stands are functions of the events |
| PeerAnswers.FlagsAreExact | src/state/peer.rs:129-304 | How one event changes each of them and the relay reservation |
| PeerAnswers.KnownPeersAreExact | src/state/peer.rs:135-300 | Which events change what is stored about peers, and that other peers keep theirs |
| PeerAnswers.IdentifyAnnounces | src/state/peer.rs:211-228 | Of the listed addresses exactly public ones are handed to Kademlia: those not stored are, those stored and not displaced are not |
| PeerAnswers.DiscoveryAnnounces | src/state/peer.rs:189-197 | Every discovered pair is handed to Kademlia as often as it is discovered |
| PeerAnswers.CommandsAreExact | src/state/peer.rs:129-304 | When Kademlia is bootstrapped, an address added and the shutdown ordered, and that other events give no command |
| PeerAnswers.RequestsAreTried | src/state/peer.rs:92-238 | A reservation is tried after every change of reachability, every lost reservation and every identification of a bootstrap peer, and at no other time |
| PeerMachine.PeerState.constructor | src/state/peer.rs:80-90 | A new node is joining, knows nobody and has no reservation |
| PeerMachine.PeerState.FindFirst | src/state/peer.rs:92-98 | The search loop gives the first element with the property |
| PeerMachine.PeerState.PreferPublicAddr | src/state/peer.rs:18-24 | Three search loops in a row give the preferred address |
| PeerMachine.PeerState.MaybeRequestRelay | src/state/peer.rs:92-106 | The searches for the peer and then for its address, over both iteration orders, and the request they lead to |
| PeerMachine.PeerState.ReplaceStalePublicAddrForIp | src/state/peer.rs:30-43 | Only other addresses of the same public IP are dropped |
| PeerMachine.PeerState.StoreListed | src/state/peer.rs:211-223 | The loop stores the listed addresses and announces each public one that was not stored |
| PeerMachine.PeerState.OnDiscovered | src/state/peer.rs:189-197 | Each discovered pair is stored and announced |
| PeerMachine.PeerState.OnExpired | src/state/peer.rs:199-209 | Expired pairs are removed, and a peer left without addresses disappears |
| PeerMachine.PeerState.OnAllLost | src/state/peer.rs:273-300 | Losing a peer forgets it, a lost bootstrap peer ends the reservation, and a ready node that lost everybody joins again |
| PeerMachine.PeerState.Transition | src/state/peer.rs:129-304 | One transition of the in-place machine has the state and commands of the transition on values, for every event |
| AppModel.BridgeOrderIrrelevant | src/state/app.rs:29-52 | Delivering the phase change before the event that caused it, as the source does, or after it gives the same tunnel state and commands |
| AppModel.AppAnswers | src/state/app.rs:29-52 | One event makes each machine do what it does alone, and becoming ready adds publishing and asking for everything that waits |
| AppModel.PublicationsCount | src/state/app.rs:29-52 | Over every run without injected phase changes, services are published once for each entry into ready and once for each accepted reservation |
| AppModel.ShutdownAbsorbs | src/state/peer.rs:268-271 | Once shutting down, shutting down for the rest of the run |
| AppModel.ReadyMeansBootstrapped | src/state/peer.rs:108-122 | A node that never learns it has no bootstrap peers is ready only while bootstrapped |
| NodeRuns.RunsKeepInv | src/node/mod.rs:201-927 | Every iteration of the event loop keeps the node's invariant: tracker, tunnel machine, query maps and registry agree |
| NodeRuns.NoStaleAttempts | src/node/mod.rs:546-563 | In every run of the node, each attempt failure or timeout that reaches the tunnel machine carries the id of the session it meets, so the stale branch never fires |
| NodeRuns.RelaySpawnAfterThreeDisconnects | src/node/mod.rs:887-906 | In every run of the node, a tunnel is spawned to a peer the tracker sees as relay-only only after exactly three disconnects of it since its retry state was last cleared |
| NodeRuns.MachinesAgree | src/node/mod.rs:229-320 | At every loop head both machines agree on who is relayed, the registry of direct peers is the tracker's, and an attempt and a session of one peer have one id |
| NodeRuns.NoServiceStranded | src/node/execute.rs:79-87 | Once the node has been ready, every service that still waits has a provider query outstanding, at every loop head |
| NodeRuns.AnsweredOnce | src/node/translate.rs:256-313 | A provider query that was answered is never outstanding again |
| NodeLookups.NoPeerStranded | src/node/execute.rs:74-78 | Once the node has been ready, at every loop head each peer that tunnels wait to be connected to has a lookup outstanding or has been dialed since they wait |
| NodeLookups.LookupsStayOut | src/node/execute.rs:74-78 | In every run of the node a commanded lookup is outstanding, for its peer, until an input answers it |
| NodeHistory.LogIsAppRun | src/node/mod.rs:201-927 | In every run of the node the log is a run of the application, with all its commands, so what holds over those holds of the node |
| NodeHistory.NodePublishes | src/state/app.rs:29-52 | In every run of the node services are published once for each entry into ready and each accepted reservation, and the membership fields tell the events of the log |
| NodeHistory.BootstrapPeersKnown | src/node/mod.rs:158-162 | In every run of the node its bootstrap peers are those it was started with and those it connected to as such |
| NodeHistory.DirectConnectionsSettle | src/state/tunnel.rs:697-712 | In every run of the node, an event that reports a direct connection leaves no tunnel of the peer queued and spawns each that was |
| NodeHistory.RedialsAreOwedInLog | src/state/tunnel.rs:599-674 | In every run of the node, the dials in answer to dial failures are exactly as many as the failures that must be redialed |
| NodeHistory.WaitsAreDialed | src/state/tunnel.rs:738-777 | In every run of the node, losing the last connection under a wait gives one dial, and so does a lookup that ends without a connection |
| NodeDelivery.EverythingIsHeard | src/node/mod.rs:226-927 | In every run of the node the application hears, apart from starts of attempts, exactly what the inputs mean, in order |
| NodeDelivery.RelayedConnectionStarts | src/node/mod.rs:229-268 | A relayed connection of a wanted peer without a direct one or an attempt starts one before anything else is heard of it |
| NodeDelivery.StartIsLoggedFirst | src/node/mod.rs:253-268 | That start precedes in the log everything else the connection brings |
| NodeDelivery.TrackerIsRun | src/node/mod.rs:229-404 | In every run of the node the tracker is the result of the operations its inputs stand for, in order, and of starts of attempts of 30 seconds |
| NodeDelivery.StaleFailureIsSkipped | src/node/mod.rs:755-770 | A failure of an attempt that is no longer its peer's is not delivered |
| NodeArming.NoTargetUnpunched | src/node/mod.rs:1024-1061 | At every loop head of a running node, each peer a tunnel waits for that is reached only through a relay has an active attempt |
| NodeServed.WaitsAreServed | src/state/tunnel.rs:423-517 | Over every run of the node, each tunnel that waits behind the relay of a peer has a punching session under a deadline, or a redial due, at every loop head, if and only if no input queued tunnels there while the peer's attempt had neither |
| NodeServed.IterateWaitsIff | src/state/tunnel.rs:205-230 | With such an attempt, exactly three inputs queue tunnels behind the relay: a relayed connection while tunnels want the peer, the end of its lookup, and a service that resolves to it |
| NodeOrphan.SomeWaitIsNotServed | src/node/connection_state.rs:139-146 | A run of five inputs that leaves such a wait: the attempt of a relayed fallback provider expires during its lookup, the lookup then queues the tunnel, and no new attempt can start |
| NodeModel.ProvidersAreRanked | src/node/translate.rs:256-283 | The providers of an outcome are listed once each with their flag, connected ones first and then by text |
| NodeConnections.RunsTrack | src/node/mod.rs:229-320 | With fresh connection ids and matching closes, tracked direct connections are the open direct ones, and tracked relayed ones are the open relayed ones not yet handed out |
| NodeConnections.RegistryIsReality | src/tunnel.rs:33-43 | In such a run the registry holds exactly the peers with an open direct connection |
| NodeConnections.HandedOutOnce | src/node/connection_state.rs:121-135 | In such a run no relayed connection is handed out for closing twice |
| NodeTunnels.LogIsRun | src/node/mod.rs:201-927 | In every run of the node the log is a run of the tunnel machine: each entry starts where the earlier ones lead and records its step, and the last leads to the present state |
| NodeTunnels.NoTunnelLost | src/node/mod.rs:201-927 | In every run of the node, queued tunnels plus the tunnels in the log of spawns are exactly the configured ones |
| NodeTunnels.NoForeignSpawn | src/node/mod.rs:201-927 | In every run of the node, a tunnel is spawned to a peer only if configured for it or if a provider event up to then listed it for the service |
| NodeTunnels.RedialsAreExact | src/state/tunnel.rs:643-663 | In every run of the node with a monotone clock, each redial with addresses carries the id, the direct snapshot and then the relay addresses of its peer's session |
| NodeTunnels.RedialsStayBounded | src/state/tunnel.rs:620-663 | In every run of the node, dials to a peer in answer to its dial failures number at most its attempt starts plus its identify exchanges |
| NodeTunnels.FallbackStaysBounded | src/state/tunnel.rs:122-188 | In every run of the node, moves of a service's tunnels to fallback providers never exceed the distinct providers, beyond the first, of its handled resolutions |
| NodeMachine.EventLoop.ExecuteCommands | src/node/execute.rs:28-87 | The loop remembers one fresh query id for each lookup or provider query, under what was asked |
| NodeMachine.EventLoop.AppTransition | src/state/app.rs:29-52 | The two in-place machines bridged by the phase change make the step of the application on values |
| NodeMachine.EventLoop.Deliver | src/node/mod.rs:811-817 | One transition followed by the execution of its commands |
| NodeMachine.EventLoop.ArmHolePunchForTunnelTargets | src/node/mod.rs:1024-1061 | Every target without an attempt that is relay-only gets one, in order, unless the node is shutting down |
| NodeMachine.EventLoop.FeedEvent | src/node/mod.rs:546-563 | A raw hole-punch failure becomes one of the active attempt or is skipped, as is a failure of another attempt; then attempts are armed |
| NodeMachine.EventLoop.FeedEvents | src/node/mod.rs:546-834 | Events are fed in order until the node shuts down |
| NodeMachine.EventLoop.TranslateSwarmEvent | src/node/translate.rs:13-125 | Each swarm event gives its domain events and forgets at most the query it answers |
| NodeMachine.EventLoop.TranslateGetProviders | src/node/translate.rs:256-313 | One outcome for each query: connected providers first and then by text, or a failure when there is none |
| NodeMachine.EventLoop.BookkeepSwarmEvent | src/node/mod.rs:226-440 | Tracker and registry are updated before any event is fed, and the lifecycle events are synthesized |
| NodeMachine.EventLoop.AdoptPortMapping | src/node/mod.rs:515-520 | A finished port mapping is one transition and never stops the node |
| NodeMachine.EventLoop.HandleHolePunchDeadline | src/node/mod.rs:887-906 | Due attempts, each once and in some order, time out if their peer is still relay-only |
| NodeMachine.EventLoop.Start | src/node/mod.rs:128-180 | The configured tunnels are queued and the first event is delivered |
| NodeMachine.EventLoop.Run | src/node/mod.rs:201-927 | The loop makes one iteration for each input and is left when the node shuts down |
| NodeMachine.RunNode | src/node/mod.rs:58-935 | A run over the mutable machines is a run of the model and ends in a state with the node's invariant |
| SpecText.AddrComesBack | src/specs.rs:27-65 | A printed address is parsed back exactly when its host is not a domain that is empty, starts with a bracket or is an IP literal |
| SpecText.ParsedComesBack | src/specs.rs:27-65 | What parses is read back once printed, if and only if it is not a domain that starts with a bracket |
| SpecText.AddrErrors | src/specs.rs:30-54 | Where an address is cut, each way it is refused, and that everything else is accepted |
| Text.PortTexts | src/specs.rs:46 | A port is accepted exactly in its decimal form, up to leading zeros and one plus sign |
| SpecText.HostComesBack | src/types.rs:109-136 | A nonempty printed host is parsed back exactly when it is not a domain that is an IP literal |
| SpecText.ExposedComesBack | src/specs.rs:104-122 | An expose spec is parsed back exactly when its name is nonempty and without an equals sign and its host is read back |
| SpecText.ByNameComesBack | src/specs.rs:143-161 | A by-name spec is parsed back exactly when its name is nonempty, its host has no at sign and its host is read back |
| SpecText.ToPeerComesBack | src/specs.rs:185-208 | A peer spec is parsed back exactly when its host has no at sign and is read back, whatever its service name |
| SpecText.ExposedErrors | src/specs.rs:107-122 | Where an expose spec is cut and the ways it is refused |
| SpecText.ByNameErrors | src/specs.rs:146-161 | Where a by-name spec is cut and the ways it is refused |
| SpecText.ToPeerErrors | src/specs.rs:188-208 | Where a peer spec is cut and the ways it is refused |
| SpecText.ListComesBack | src/main.rs:223-250 | A nonempty comma-joined list is parsed back exactly when each item is and none holds a comma |
| SpecText.EnvironmentComesBack | src/main.rs:223-250 | The same for the values of the three variables in the environment, in terms of names and hosts |
| SpecText.LawsHold | src/types.rs:109-136 | The laws assumed of the IP and peer id texts can be met |
| Text.JoinComesBack | src/main.rs:223-250 | Joining and splitting give the same list exactly when no item holds the separator |
| XmlText.EscapeIsSubstitution | src/main.rs:522-529 | Five replacements in a row are one substitution for each character: nothing is escaped twice |
| XmlText.EscapeIsInvertible | src/main.rs:522-529 | Escaped text holds no markup character, unescapes to the original, and different texts escape differently |
| Framing.ReadsOnlyFrames | src/tunnel.rs:74-90 | A read yields a message exactly when the stream starts with its frame and it is within the limit |
| Framing.OversizedFails | src/tunnel.rs:83-87 | A longer message is refused after its length was read |
| Framing.FramesAreReadBack | src/tunnel.rs:61-90 | Reading concatenated frames gives every message up to the first that is too large, and then that error |
| Framing.StreamComesBack | src/tunnel.rs:61-90 | All frames are read back exactly, whatever follows them, if and only if no message exceeds 65536 bytes |
| Framing.Stream.ReadMessage | src/tunnel.rs:74-90 | The reader consumes from the stream what the specification says, also when it fails |
| Framing.Stream.WriteMessage | src/tunnel.rs:61-71 | The frame is appended exactly when the length fits 32 bits |

## Left out

- The libp2p swarm, QUIC, Kademlia, DCUtR, relay and Identify are environment events; only the connection theorems assume anything of them (fresh ids, matching closes), and the redial theorem a monotone clock.
- Command order inside a transition is a multiset where hash maps decide it; that all commands of the membership machine precede those of the tunnel machine is kept as two multisets.
- `is_active_bootstrap_result` (src/node/translate.rs:348): a bootstrap outcome may arrive at any time in the model, which allows more runs than the source.
- `started_at`, `last_dial_error`, `nat_mapping` and error texts are not kept; the texts matter only as the two flags "pending abort" and "local peer id".
- `remaining_connections as u32` is not truncated: connection counts stay below 2^32.
- An iteration of the loop has one reading of the clock, and timers fire as inputs at any time; that the discovery deadline fires once is not used.
- Kademlia query ids are named after the transition, the target and the copy of the command that asked, which makes them fresh.
- A peer id is identified with the rank of its text, and a multiaddress with the rank of its text and the answers of the source's address predicates; address syntax and IP ranges are not modelled.
- Text forms of IPv4, IPv6 and peer ids are parameters with the laws stated in `SpecText.Lawful`; UTF-8 and JSON are not modelled, and payloads are plain bytes.
- SpecText.EnvironmentComesBack: is about the value of a variable, not about the file it is a line of; a name or domain with a newline would break the line.
- Bootstrap reconnect timers and backoff, external-address bookkeeping and the port-mapping task appear at most as inputs.
- Progress of queued dials is not claimed: an immediate dial error produces no event in the source.
- `KademliaKey`, `TunnelRegistry`, NAT probing, service management and process handling would add only easy members.
