# The FTB backplane in Dafny

FTB is a publish/subscribe backplane. Agents form a tree, keep tables of who
subscribes to what, flood changes of subscriptions to their neighbours and route
events along the tree; a bootstrap server hands out parents; a client library
parses subscription strings, queues events and encodes tags. This project models
that code and proves what it keeps, over every input and every run.

`dafny verify dfyconfig.toml` checks everything.

## How it is built

| layer | files |
|---|---|
| names, masks, matching | `Text`, `Masks`, `Names` |
| one agent | `Tables` (what each table operation may do), `AgentTables` (the class that does it), `AgentLoop` (the message dispatch), `MessageQueue` |
| many agents | `Overlay`, `OverlayInvariant`, `Reunions`, `StaleInterest`, `Withdrawals`, `Flood`, `Routing` |
| the tree itself | `BootstrapServer`, `Connector`, `Topology`, `TopologyCycles`, `SmallOverlays`, `Forests` |
| the client library | `PollingQueue`, `Subscriptions`, `Namespaces`, `Fields`, `EventHandles`, `DynamicTags` |
| the list under every table | `LinkedMap` |

An agent's tables are a class whose two indexes are edited in place. Each method
is proved to make one of the steps defined in `Tables`, and `Overlay` lets a
network of agents make those steps in any order, with a FIFO queue in each
direction of each link. The second half of `AgentLoop` connects the two: on a net
whose tables at u are the agent's, a turn of the loop is a step of that net at u,
followed, if it cost the agent its parent, by its connection to a new one, and after
each by the loss of the links over which the network refused what was sent.

What the model takes from outside: which sends the network refuses, which parent
a reconnection finds, the order in which packets and messages are handled, when
links break, what `rand()` returns, and which events arrive. All of these are
arbitrary. A locked operation is one atomic step.

Choices a reader should know:

- Ids and masks in tables are compared by `strcasecmp` in the program. The tables
  here hold the lower-case representative of each class and compare with `==`;
  `Masks.EqualMaskIsFoldEquality` and `Names.EqualIdIsFoldEquality` say that this
  is the same comparison, and `Masks.MatchIsCongruent` that matching cannot tell
  members of a class apart.
- A duplicate subscription frees the mask that line 830 of
  `src/manager_lib/ftb_manager_lib.c` goes on to look up; the lookup is modelled
  as by the mask's value.
- `FTBM_Client_deregister` compares the manager's name with `strcmp` (line 720),
  all other places with `strcasecmp`; the model ignores case there as well.
- The lookup key of a CONN_FAIL packet is a field its sender does not fill in, so
  the model lets it be any address.
- A request to the bootstrap server may be lost, repeated or handled late, and a
  reply may be lost. Each exchange uses a socket of its own, so a reply to an old
  request is not mistaken for a new one.
- The message that announces a new child is written by the connection itself; in
  the overlay it is put behind whatever is queued from an earlier connection.
- A lost connection may be found by each end at its own time. An end that reads from it
  queues a marker of the loss, before or after what comes over a new connection. An end
  that sends an event over it drops the neighbour (the steps `Drop` and `Refuse` of
  `Overlay`). An end that sends a change of subscriptions over it only warns, closes its
  end, and keeps the neighbour in its tables: no marker comes (the step `Overlook`).
- An agent answers new connections only once it has left its first `FTBN_Connect`,
  because the thread that answers is started after it.
- A second failure that counts ends an agent's `FTBN_Connect`: silence of the server ends
  the process, and a broken connection to the offered parent ends the call, after which
  the agent no longer listens.
- A connection that has broken leaves a marker in the message queue. If the marker
  comes alone, the queue's tail pointer is lost (`MessageQueue` says exactly what
  that costs). The overlay is about queues that keep their messages.
- `NullString`, `Undefined` and `OutOfBounds` are the outcomes of inputs for which
  the C code follows a null pointer or leaves an array.

Three things the program promises hold only under a condition.

- The overlay is not always acyclic: an agent whose registration as root does not
  succeed resets its level, and others may be told of it, or of one below it, as
  something lower. With at most two agents no cycle can come about, with three it can
  (`SmallOverlays.AgentsCanCycleExactly`). Any number of them stays acyclic as long
  as no agent resets its level while it, or one below it, may be offered to
  others. Which resets a cycle can follow is known exactly
  (`TopologyCycles.ResetCyclesExactly`) where whoever is tempted by what is said of the
  agent can still be led to it. Having no children is not enough:
  the loss of one answer of the server will do (`SmallOverlays.LostAnswerCanCycle`).
- Interest can be lost over a working link when agents connect before an earlier
  connection has been dealt with. `OverlayInvariant.NoInterestIsLost` is about every run
  in which agents connect, and announcements overtake markers, with care; any loss of a
  link may come in between. If losses are dealt with carefully too, agents know each other
  only when they are linked; each pair can be exempted from that, as a ghost. The careful
  steps are defined by what is in the queues. They are exactly those that keep the
  invariant (`OverlayInvariant.StepKeepsExactly`), and, without ghosts, exactly those
  after which agents will list each other when and only when they are linked
  (`OverlayInvariant.StepListsExactly`). An agent that overlooked a loss is as if it had
  been told once an event is refused (`OverlayInvariant.GhostIsLaid`). `Reunions` has, for
  each careless kind of step, a run from empty tables after which an interest is unknown
  over a working link, with nothing left to read.
- The message queue is first in, first out exactly when nothing arrives between a
  marker that came alone and the moment the queue is empty
  (`MessageQueue.QueueIsFifoByTurns`, with an example in
  `MessageQueue.LoneMarkerLosesMessages`).

## Model

| member | source | states |
|---|---|---|
| Text.EqFoldExactly | src/util/ftb_util.c:44-94 | two strings compare equal exactly when they have, place by place, the same character or the same letter of the alphabet in its two cases |
| Masks.EqualMaskIsFoldEquality | src/util/ftb_util.c:149-164 | two masks are the same key exactly when their eight fields agree up to case, so a table may keep one representative per class |
| Masks.WildcardIsAll | src/util/ftb_util.c:44-90 | a pattern is a wildcard exactly when it is the word all, in any mixture of cases |
| Masks.OneFieldMatchesExactly | src/util/ftb_util.c:57-90 | for each of the eight fields: the mask that is ALL everywhere else accepts exactly the events with its value in that field, up to case, and all events if the value is a wildcard |
| Masks.MatchesFieldByField | src/util/ftb_util.c:57-90 | a mask accepts exactly the events that the one-field masks of all the fields it looks at accept; severity, category and component are looked at only if no event is named |
| Masks.MatchIsCongruent | src/util/ftb_util.c:44-94 | equal masks accept the same events, and equal events are accepted by the same masks, even when ignored fields differ |
| Masks.SameMatchesExactly | src/util/ftb_util.c:57-90 | two masks accept the same events if and only if they select the same: matching is no coarser than letter case and the fields a named event ignores |
| Masks.WideningKeepsMatchesExactly | src/util/ftb_util.c:72-90 | widening fields to ALL loses no match if and only if a named event stays named or the severity and component fields are all wildcards |
| Masks.WideningTheNameLosesAMatch | src/util/ftb_util.c:72-90 | an event and a mask for which widening the event name alone loses the match |
| Names.EqualIdIsFoldEquality | src/util/ftb_util.c:101-127 | ids and locations are equal keys exactly when their representatives are the same value |
| Names.SelfIsAgentExactly | src/manager_lib/ftb_manager_lib.c:497-499 | of the ids FTBM_Init writes, those of agents are taken for neighbour agents, and those of the libraries in client processes are not; an agent's is the one its neighbours list it under |
| Names.AgentsExactly | src/manager_lib/ftb_manager_lib.c:154-160 | a component is taken for a neighbour agent exactly if it bears both names of the manager, in any case, and has ext 0 |
| Tables.DropsCompose | src/manager_lib/ftb_manager_lib.c:989-1016 | losing components of one process one by one equals losing them at once: same tables, and one cancellation per mask nobody holds any more |
| Tables.RejoinResendsExactly | src/manager_lib/ftb_manager_lib.c:277-314 | a reconnecting agent sends its new parent every mask it holds if and only if the parent is not listed already, or it holds none |
| Tables.SubscriptionGoesToAgents | src/manager_lib/ftb_manager_lib.c:136-171 | a new subscription is told once to every agent listed elsewhere, an old one to nobody, and neither to the library of a client process |
| Tables.CancellationGoesToAgents | src/manager_lib/ftb_manager_lib.c:174-205 | a withdrawn subscription is cancelled once at every agent listed elsewhere exactly if nobody else holds the mask, and never at the library of a client process |
| Tables.DropIsToldToAgents | src/manager_lib/ftb_manager_lib.c:208-222 | when components go, a mask is cancelled at an agent exactly if that is listed elsewhere, somebody held the mask, and nobody who stays does |
| Tables.OnlyAgentsAreWelcomed | src/manager_lib/ftb_manager_lib.c:661-681 | a client library that registers is told nothing, whatever is held, and a new agent exactly the masks held |
| Tables.NotBackToItsManager | src/agent/ftb_agent.c:63-88 | an event is not sent back to the manager of the process it came from, agent or client; every other catcher is sent it |
| AgentTables.FanoutReaches | src/manager_lib/ftb_manager_lib.c:153-169 | a propagation reaches every listed neighbour agent elsewhere once, and nobody else |
| AgentTables.FanoutReachesManagers | src/manager_lib/ftb_manager_lib.c:153-169 | in the terms of what FTBM_Init writes: the pass over the peers reaches each listed agent elsewhere once, and no library of a client process |
| AgentTables.Agent.constructor | src/manager_lib/ftb_manager_lib.c:471-487 | an agent starts with sound, empty indexes and no parent |
| AgentTables.Agent.Propagate | src/manager_lib/ftb_manager_lib.c:136-171 | appends the fan-out of one message over the peers to what was sent, and changes no table |
| AgentTables.Agent.SendEveryMask | src/manager_lib/ftb_manager_lib.c:671-680 | one registration per held mask goes to the given agent, in table order |
| AgentTables.Agent.ClientRegister | src/manager_lib/ftb_manager_lib.c:627-690 | a new component is listed without interest and, if an agent, told every mask held, each once; a known one changes nothing and is an error; the indexes agree |
| AgentTables.Agent.ListInCatchMap | src/manager_lib/ftb_manager_lib.c:829-863 | the inverse index gains exactly the pair, no row is empty or repeated, and the answer says whether the pair is new |
| AgentTables.Agent.RegisterSubscription | src/manager_lib/ftb_manager_lib.c:775-870 | both indexes gain exactly the pair; every neighbour agent elsewhere hears of it once if and only if it is new; an unknown component is an error |
| AgentTables.Agent.RemoveFromCatchMap | src/manager_lib/ftb_manager_lib.c:174-205 | the inverse index loses exactly the pair, and a cancellation goes out if and only if that was the mask's last subscriber |
| AgentTables.Agent.CancelSubscription | src/manager_lib/ftb_manager_lib.c:894-931 | both indexes lose exactly the pair; neighbours hear of it only from the last subscriber; an unknown component is an error |
| AgentTables.Agent.CleanComponent | src/manager_lib/ftb_manager_lib.c:208-222 | all interest of a component leaves the inverse index, with one cancellation per mask that only it held |
| AgentTables.Agent.DropPeer | src/manager_lib/ftb_manager_lib.c:717-730 | the component leaves both indexes and the peers, which agree again |
| AgentTables.Agent.Reconnect | src/manager_lib/ftb_manager_lib.c:260-317 | a new parent is listed and sent every mask held, unless it was listed already or the agent became the root |
| AgentTables.Agent.ClientDeregister | src/manager_lib/ftb_manager_lib.c:693-744 | the component and its interest are gone, and if it was the parent the agent has rejoined; an unknown one changes nothing |
| AgentTables.Agent.SendFailed | src/manager_lib/ftb_manager_lib.c:941-972 | a refused send costs the destination its entry and its interest, and costs the agent its parent exactly if that was the destination's process |
| AgentTables.Agent.DropLocation | src/manager_lib/ftb_manager_lib.c:989-1016 | every component of the process goes, no other; the count is their number |
| AgentTables.Agent.CleanupConnection | src/manager_lib/ftb_manager_lib.c:977-1030 | as one step: all components of the lost process are gone, orphaned masks are cancelled once, and a lost parent is replaced; an error if there was no component |
| AgentTables.Agent.GetCatchers | src/manager_lib/ftb_manager_lib.c:345-441 | the list holds every component with at least one matching mask, once, and nothing else |
| AgentTables.Agent.Fill | src/manager_lib/ftb_manager_lib.c:417-432 | filling from the last slot down writes every slot of the array, one per catcher |
| AgentLoop.Forward | src/agent/ftb_agent.c:63-88 | the event is sent once to each catcher, but not back to the agent it came from; the refused components are lost one by one, each with its cancellations and, if it was the parent, a new parent, and nobody else loses an entry |
| AgentLoop.Dispatch | src/agent/ftb_agent.c:44-135 | each message type has its effect on tables, parent and outgoing messages, and the indexes still agree |
| AgentLoop.TakeTurn | src/agent/ftb_agent.c:57-124 | with its tables those of agent u in a net, the agent's turn on the next message from another agent is that message's delivery in the net, the loss of the links over which the propagation is refused, and then the same with the agent's connection to a new parent if that was the loss of its old one |
| AgentLoop.AgentTurn | src/agent/ftb_agent.c:89-124 | the same for any tables and messages the dispatch may come to |
| AgentLoop.ClientTurn | src/agent/ftb_agent.c:89-124 | a turn on a client's message, or on the loss of its process, is the client's step in the net, and the loss of the links over which its propagation is refused |
| AgentLoop.RefusedPropagation | src/manager_lib/ftb_manager_lib.c:163-168 | a refused propagation is the break of the link, if there is one still, of which the sender closes its end without a marker, keeping the neighbour's entry |
| AgentLoop.RefusedSend | src/manager_lib/ftb_manager_lib.c:941-972 | a refused event is, in the net, the loss of a client, of a linked neighbour, or of one whose connection was gone already, and then the connection to a new parent if need be, whatever cancellations and registrations are refused meanwhile |
| OverlayInvariant.DeliverKeeps | src/agent/ftb_agent.c:89-124 | handling a queued message, over a working link or after its loss, old or new, keeps the overlay's invariant everywhere |
| OverlayInvariant.ConnectKeeps | src/manager_lib/ftb_manager_lib.c:260-317 | joining or re-parenting keeps the invariant, at both ends of the new link too, if what is left of an earlier connection tells the agent nothing of its new parent, the parent will not list it when it reads the announcement, and an agent that lists the parent still has nothing to tell it |
| OverlayInvariant.BreakKeeps | src/manager_lib/ftb_manager_lib.c:1083-1117 | a connection found broken at both ends, wherever in the queues, keeps the invariant |
| OverlayInvariant.DropKeeps | src/manager_lib/ftb_manager_lib.c:933-975 | an agent that drops a neighbour it cannot send to keeps the invariant, unless it has a new announcement of that neighbour's queued and must forget it |
| OverlayInvariant.RefuseKeeps | src/manager_lib/ftb_manager_lib.c:941-963 | a send that finds the connection gone, before the marker of its loss is read, keeps the invariant |
| OverlayInvariant.OverlookKeeps | src/manager_lib/network/network_sock/ftb_network_tcp.c:480-491 | a propagation that finds the connection gone, so that the marker of the loss is never queued, keeps the invariant if another marker is queued and no announcement behind it, or the agent need not forget |
| OverlayInvariant.OvertakeKeepsExactly | src/manager_lib/ftb_manager_lib.c:1090-1102 | a marker that is queued after a message of a new connection does no harm if and only if another announcement is still to come |
| OverlayInvariant.StepKeeps | src/agent/ftb_agent.c:44-135 | every careful step of clients, agents and links keeps the invariant |
| OverlayInvariant.StepKeepsExactly | src/agent/ftb_agent.c:44-135 | a step keeps the invariant if and only if it is careful, whichever pairs are exempted |
| OverlayInvariant.StepListsExactly | src/agent/ftb_agent.c:44-135 | without exempted pairs, the careful steps are exactly those after which agents, once all is read, list each other if and only if they are linked |
| OverlayInvariant.ConnectLastsExactly | src/manager_lib/ftb_manager_lib.c:277-314 | where losses were dealt with carefully, an agent still lists its new parent once all that is queued from it is read if and only if no marker of an earlier connection is; the parent will list the agent in any case |
| OverlayInvariant.FreshExactly | src/manager_lib/ftb_manager_lib.c:277-314 | there, the past gets in the way of a new connection if and only if such a marker is queued |
| OverlayInvariant.DropLastsExactly | src/manager_lib/ftb_manager_lib.c:951-957 | an agent has forgotten a neighbour it dropped, once all that is queued from it is read, if and only if no announcement without a later marker is |
| OverlayInvariant.OverlookLastsExactly | src/manager_lib/network/network_sock/ftb_network_tcp.c:480-491 | an agent that overlooked a loss has forgotten the neighbour, once all that is queued from it is read, if and only if another marker is queued, or it did not list it, and no announcement without a later marker is |
| OverlayInvariant.RefusalMendsExactly | src/manager_lib/ftb_manager_lib.c:941-963 | an event refused on its way to a neighbour that is listed without a link ends that, for good if and only if no announcement without a later marker is queued |
| OverlayInvariant.GhostIsLaid | src/manager_lib/ftb_manager_lib.c:941-963 | whatever an agent overlooked of a neighbour's loss, and whatever careful steps followed, the refusal of an event, with no announcement queued that no marker follows, restores the invariant without exemption |
| OverlayInvariant.NoInterestIsLost | src/manager_lib/ftb_manager_lib.c:829-863 | in every run of careful steps, with any pairs exempted: over a working link to an agent whose announcement has been read, a mask wanted by anyone but that neighbour is one under which it will list the agent once it has handled what is queued for it |
| OverlayInvariant.SettledRun | src/manager_lib/ftb_manager_lib.c:661-681 | in every run of careful steps, when no message is waiting: linked agents know each other, only exempted ones know each other otherwise, and each interest is listed at every neighbour |
| OverlayInvariant.WelcomeWorksExactly | src/manager_lib/ftb_manager_lib.c:651-681 | a child's announcement gets it all interest if and only if it was not listed already, or there is none |
| Reunions.WelcomedWithNothing | src/manager_lib/ftb_manager_lib.c:651-658 | a run from empty tables in which a child that is still listed is told nothing, and an interest is lost over a working link with nothing left to read |
| Reunions.ForgetsItsNewParent | src/manager_lib/ftb_manager_lib.c:963-1024 | a run in which a refused send makes an agent reconnect, and the marker of the old connection makes it forget the new parent |
| Reunions.ListsAGhost | src/manager_lib/ftb_manager_lib.c:951-957 | a run in which an agent drops a child whose announcement is queued, lists it again without a connection, and later sends it nothing as its parent |
| Reunions.NeverToldOfTheLoss | src/manager_lib/ftb_manager_lib.c:163-168 | a run in which a cancellation finds the connection gone: with nothing left to read the agent lists the other without a link, and when the other connects anew, it is told nothing |
| StaleInterest.StaleInterestLasts | src/manager_lib/ftb_manager_lib.c:197-205 | two neighbours that list each other under a mask go on doing so in every run until their link is lost |
| StaleInterest.StaleInterestArises | src/manager_lib/ftb_manager_lib.c:197-205 | from empty tables there is a run after which no client subscribes, nothing is in flight, and two agents list each other |
| Withdrawals.InterestEndsExactly | src/manager_lib/ftb_manager_lib.c:174-222 | when a subscription is withdrawn, a client goes, or another neighbour cancels or is lost, a linked neighbour, once it has read what is queued for it, lists exactly those of the masks wanted before that somebody still subscribes to |
| Flood.FloodStepShrinks | src/manager_lib/ftb_manager_lib.c:829-863 | each delivery of a registration makes a missing entry, or leaves fewer messages: a lexicographic decrease |
| Flood.FloodTerminates | src/manager_lib/ftb_manager_lib.c:149-169 | on any agent graph, cyclic or not, a flood of registrations makes no more deliveries than a bound computed from its first state |
| Routing.NewLeafHasOneNeighbour | src/agent/ftb_agent.c:73-80 | in a tree, an agent newly reached borders on the reached agents only at the one that sent it the event |
| Routing.InterestAlongPath | src/manager_lib/ftb_manager_lib.c:829-863 | along any path that never turns back, each agent lists the next one towards an interested client |
| Routing.JourneyIsShort | src/agent/ftb_agent.c:63-88 | an event is handled at most as often as there are agents |
| Routing.JourneyEnds | src/agent/ftb_agent.c:63-88 | every journey can be completed, within a handling step for each agent |
| Routing.AtMostOnce | src/agent/ftb_agent.c:63-88 | at every moment of every journey, no agent has handled the event twice, and no client has a second or an unwanted copy |
| Routing.ExactlyOnce | src/agent/ftb_agent.c:63-88 | in a settled overlay that is a tree, when an event has run its course each client joined to its publisher has exactly one copy if one of its masks matches, else none |
| Routing.CircleNeverEnds | src/agent/ftb_agent.c:73-80 | where three or more agents list each other in a circle, an event that has got into it is on its way for ever |
| BootstrapServer.ServerStepKeepsTable | src/manager_lib/network/network_sock/ftb_database_server_udp.c:233-403 | every request keeps: valid addresses and levels, and at most one root |
| BootstrapServer.Server.FindRootEntry | src/manager_lib/network/network_sock/ftb_database_server_udp.c:85-99 | finds a root exactly if the table has one |
| BootstrapServer.Server.CrossOutParentEntry | src/manager_lib/network/network_sock/ftb_database_server_udp.c:101-113 | the named entry, and no other, is put out of use |
| BootstrapServer.Server.FindParentAddr | src/manager_lib/network/network_sock/ftb_database_server_udp.c:116-167 | for every draw: the choice is suitable, none is made only if nobody is, and the scan stays inside the table |
| BootstrapServer.Server.HandleAddrReq | src/manager_lib/network/network_sock/ftb_database_server_udp.c:233-279 | the offer is another address, in use and of lower level, with its level; nobody is offered only if there is no such entry |
| BootstrapServer.Server.HandleRegReq | src/manager_lib/network/network_sock/ftb_database_server_udp.c:280-344 | a second root is refused and leaves the table alone; else the address has the new level |
| BootstrapServer.Server.Forget | src/manager_lib/network/network_sock/ftb_database_server_udp.c:357-366 | the address is gone, the count is still the number of entries |
| BootstrapServer.Server.Handle | src/manager_lib/network/network_sock/ftb_database_server_udp.c:207-404 | each request is one step of the table seen as a map, and keeps addresses distinct and counted |
| BootstrapServer.ServiceKeepsTable | src/manager_lib/network/network_sock/ftb_database_server_udp.c:207-404 | over every sequence of requests from the empty table the table is sound |
| BootstrapServer.CrossedOutIsNotOffered | src/manager_lib/network/network_sock/ftb_database_server_udp.c:248-252 | a parent reported lost is offered to nobody, from that request on, until it registers again |
| BootstrapServer.TableIsLastWord | src/manager_lib/network/network_sock/ftb_database_server_udp.c:207-404 | after any requests, an agent is in the table, in use and with a level, exactly if the last accepted registration of it said that level and nobody has reported it or taken it off since |
| BootstrapServer.OffersExactly | src/manager_lib/network/network_sock/ftb_database_server_udp.c:233-279 | who asks for a parent is told of one whose last word is a lower level, which is not itself nor the parent it lost; of none exactly if there is none |
| BootstrapServer.RefusesExactly | src/manager_lib/network/network_sock/ftb_database_server_udp.c:280-344 | a registration is refused exactly if it is as root and the last word of somebody is that it is the root |
| Topology.ServeSaysNothingNew | src/manager_lib/network/network_sock/ftb_database_server_udp.c:233-403 | every level the server says of anybody was told to it |
| Topology.ResetKeepsExactly | src/manager_lib/network/network_sock/ftb_network_tcp.c:352-358 | the level reset keeps the invariant from which acyclicity follows if and only if neither the agent nor one below it is on offer at a lower level |
| Topology.StepKeeps | src/manager_lib/network/network_sock/ftb_network_tcp.c:331-383 | every other step of agents, server and packets keeps it |
| Topology.OverlayStaysAcyclic | src/manager_lib/network/network_sock/ftb_network_tcp.c:331-383 | in every run whose resets meet that condition, no agent is its own ancestor |
| Topology.LevelsNeverRise | src/manager_lib/network/network_sock/ftb_network_tcp.c:347-381 | no step but a reset raises any agent's level |
| TopologyCycles.HarmfulResetCycles | src/manager_lib/network/network_sock/ftb_network_tcp.c:352-358 | if a cycle can follow a reset without another one, a child is left that is on offer or has below it somebody on offer, or a level is said of the agent that is below another agent's; and a cycle can follow if there is such a child, or somebody that can still be led to the agent by that level, and is up and on record itself in case the agent is not up |
| TopologyCycles.ResetCyclesExactly | src/manager_lib/network/network_sock/ftb_network_tcp.c:352-358 | where whoever is tempted so can be led to the agent so, a cycle can follow a reset without another one if and only if there is such a child or such a level |
| TopologyCycles.TemptingIsHarmful | src/manager_lib/network/network_sock/ftb_network_tcp.c:320-383 | so it is while no other agent is past the first round of its loop, for an agent that reconnects, and for a new one among agents that are up and on record |
| SmallOverlays.AgentsCanCycleExactly | src/manager_lib/network/network_sock/ftb_network_tcp.c:331-383 | agents that start with an empty server can come to form a cycle if and only if there are at least three of them |
| SmallOverlays.LostAnswerCanCycle | src/manager_lib/network/network_sock/ftb_network_tcp.c:351-358 | among any three agents: two children of a root lose it, one registers as the root and the answer is lost, and they become each other's parents, though neither had a child |
| SmallOverlays.ResetWithChildCanCycle | src/manager_lib/network/network_sock/ftb_network_tcp.c:352-358 | among any three agents: a child of the root that has a child of its own loses the root, gives up being the root, and takes its child for its parent |
| Topology.ParentsStayLower | src/manager_lib/network/network_sock/ftb_network_tcp.c:373 | if the agents that reset their level have no children and are not on offer, each parent is always of a strictly lower level than its child |
| Topology.AncestorsStayLower | src/manager_lib/network/network_sock/ftb_network_tcp.c:373 | there, an agent k steps above another is at least k levels below it |
| Connector.Agent.OneRound | src/manager_lib/network/network_sock/ftb_network_tcp.c:331-382 | one round changes level, parent address and parent as the topology's steps do |
| Connector.Agent.Connect | src/manager_lib/network/network_sock/ftb_network_tcp.c:320-392 | the loop ends at the first success, or at the first silence or broken dial after the first round, and at nothing else |
| Connector.RoundIsThrough | src/manager_lib/network/network_sock/ftb_network_tcp.c:331-388 | a round of the loop makes of an agent what the steps of the topology make of it, from asking to the answer, the dialling or the registration |
| Connector.RoundHappens | src/manager_lib/network/network_sock/ftb_network_tcp.c:331-388 | each kind of round can happen in the topology |
| Connector.LoopIsTopology | src/manager_lib/network/network_sock/ftb_network_tcp.c:320-392 | the loop has joined, given up or goes on exactly as the node of the topology that makes the same rounds has a parent or is the root, is over or listens no more, or is in the loop past its first round; and its variables are that node's |
| Connector.SecondFailureEnds | src/manager_lib/network/network_sock/ftb_network_tcp.c:339-388 | two silences in a row end a call, and so do two broken connections, or one of each |
| Connector.OthersNeverEnd | src/manager_lib/network/network_sock/ftb_network_tcp.c:351-388 | no number of refused roots and of parents that are not there ends it |
| Connector.LevelFalls | src/manager_lib/network/network_sock/ftb_network_tcp.c:331-383 | with offers of lower levels and no failed root registration, a connecting agent's level does not rise |
| LinkedMap.Unlink | src/util/ftb_util.c:481-485 | taking a node out leaves a ring of the others, in order, linked both ways |
| LinkedMap.AddBack | src/util/ftb_util.c:469-475 | the node becomes the last of the ring |
| LinkedMap.AddFront | src/util/ftb_util.c:456-462 | the node becomes the first behind the head |
| LinkedMap.Map.constructor | src/util/ftb_util.c:280-288 | a ring of the head alone, and no entry |
| LinkedMap.Map.FindKey | src/util/ftb_util.c:331-339 | the first entry with an equal key, or the head when there is none |
| LinkedMap.Map.Insert | src/util/ftb_util.c:295-311 | appends the entry exactly when no key equals its own; keys stay pairwise different and the ring sound |
| LinkedMap.Map.RemoveNode | src/util/ftb_util.c:383-389 | exactly that entry goes; the others keep their order |
| LinkedMap.Map.RemoveKey | src/util/ftb_util.c:364-378 | exactly the first entry with an equal key goes; a missing key changes nothing |
| LinkedMap.Map.IsEmpty | src/util/ftb_util.c:434-440 | looking at one pointer tells whether there are entries |
| LinkedMap.Map.Finalize | src/util/ftb_util.c:396-408 | the loop stops after freeing every node once, the head last, and in no turn looks at or writes to a node freed before |
| LinkedMap.LookupAfterInsert | src/util/ftb_util.c:295-339 | for an equality that is an equivalence, a new entry is found under every equal key, and all other lookups are as before |
| LinkedMap.LookupAfterRemove | src/util/ftb_util.c:331-389 | after a removal nothing is found under an equal key, and all other lookups are as before |
| MessageQueue.Grab | src/manager_lib/network/network_sock/ftb_network_tcp.c:662-674 | what is read becomes a linked batch in the order read, with the right head and tail |
| MessageQueue.MakeBatch | src/manager_lib/ftb_manager_lib.c:1090-1102 | the marker for a lost connection goes before what was read, and has no tail if it is alone |
| MessageQueue.MarkerGoesFirst | src/manager_lib/ftb_manager_lib.c:1090-1102 | in a sound queue the marker of a broken connection comes right behind what was queued, and what was read along with it behind the marker |
| MessageQueue.MarkerIsTakenFirst | src/manager_lib/ftb_manager_lib.c:1053-1117 | so after what was queued the marker is handed out, and then what was read, in its order |
| MessageQueue.Queue.Recv | src/manager_lib/ftb_manager_lib.c:1053-1081 | takes the oldest message, or none from an empty queue |
| MessageQueue.Queue.Append | src/manager_lib/ftb_manager_lib.c:1106-1112 | a batch is linked behind the queue, which stays sound if and only if a batch that is not empty brings its tail; a broken queue takes nothing in |
| MessageQueue.Queue.Fill | src/manager_lib/ftb_manager_lib.c:1083-1117 | the pointers make exactly the step of the queue as a value, broken or not |
| MessageQueue.QueueIsFifoExactly | src/manager_lib/ftb_manager_lib.c:1053-1117 | over any turns from any state, what was taken and then what is queued is what arrived, in order, if and only if nothing arrived while the queue was broken |
| MessageQueue.QueueIsFifoByTurns | src/manager_lib/ftb_manager_lib.c:1053-1117 | the same condition on the turns alone: nothing arrives from a marker that comes alone until as many messages are taken as there were |
| MessageQueue.SoundWithoutLoneMarkers | src/manager_lib/ftb_manager_lib.c:1090-1102 | the queue is never broken if no marker comes alone |
| MessageQueue.LoneMarkerLosesMessages | src/manager_lib/ftb_manager_lib.c:1090-1112 | four turns in which a marker alone costs the message after it |
| MessageQueue.BrokenUntilDrained | src/manager_lib/ftb_manager_lib.c:1069-1073 | a broken queue hands out what it had and takes nothing in until the last of it is taken |
| PollingQueue.EventQueue.constructor | src/client_lib/ftb_client_lib.c:986-990 | an empty queue with the length asked for, or 64 |
| PollingQueue.EventQueue.Push | src/client_lib/ftb_client_lib.c:564-587 | the newcomer is queued, and the oldest dropped exactly when the queue was full |
| PollingQueue.EventQueue.CheckProgress | src/client_lib/ftb_client_lib.c:779-803 | waiting events enter in their order |
| PollingQueue.EventQueue.TakeMatch | src/client_lib/ftb_client_lib.c:1572-1618 | the oldest match goes, the rest keep their order |
| PollingQueue.OldestMatchIsOldest | src/client_lib/ftb_client_lib.c:1572-1618 | what a poll hands out matches, and arrived before every other match that is queued; with no answer nothing that is queued matches |
| PollingQueue.EventQueue.PollEvent | src/client_lib/ftb_client_lib.c:1542-1624 | the answer is the oldest match after letting events in, once or twice; with no answer there is no match and nothing was lost |
| PollingQueue.RunConserves | src/client_lib/ftb_client_lib.c:564-587 | over all arrivals and polls, each event is queued in order, was handed out once, or was dropped as the oldest of a full queue; the queue keeps its bound |
| DynamicTags.ReadDynamicTag | src/client_lib/ftb_client_lib.c:1838-1872 | the loop computes the scan of the bytes as a function, with reads beyond the buffer made visible |
| DynamicTags.ReadingFindsTheData | src/client_lib/ftb_client_lib.c:1838-1872 | from an encoded buffer, each tag is read back as exactly its data, as too long for the reader, or as missing |
| DynamicTags.AddedData | src/client_lib/ftb_client_lib.c:1772-1798 | adding or updating a tag changes what that tag reads as, and no other |
| DynamicTags.RemovedData | src/client_lib/ftb_client_lib.c:1807-1835 | a removed tag is missing, and no other tag changes |
| DynamicTags.AddedOwner | src/client_lib/ftb_client_lib.c:1772-1798 | a new tag belongs to who added it, an old one stays with its owner, and so do all others |
| DynamicTags.RemovedOwner | src/client_lib/ftb_client_lib.c:1807-1835 | a removed tag has no owner, and all others keep theirs |
| DynamicTags.TagStore.UpdateTagString | src/client_lib/ftb_client_lib.c:1736-1755 | the bytes encode the entries, and the size is one plus two and the data length of each |
| DynamicTags.TagStore.AddDynamicTag | src/client_lib/ftb_client_lib.c:1758-1804 | which of no-space, conflict and success it is; only success changes entries and bytes, which still agree |
| DynamicTags.TagStore.RemoveDynamicTag | src/client_lib/ftb_client_lib.c:1807-1835 | which of not-found, conflict and success it is; only success changes entries and bytes, which still agree |
| DynamicTags.AddedIsStorable | include/ftb_def.h:101-109 | the room check is enough: the encoding never outgrows the buffer of 138 bytes |
| DynamicTags.CountFitsAByte | include/ftb_def.h:101-109 | entries that fit the buffer are fewer than 256, so the 8-bit count never wraps |
| Namespaces.ConcatenateStrings | src/util/ftb_auxil.c:77-93 | the arguments one after another |
| Namespaces.SplitNamespace | src/client_lib/ftb_client_lib.c:213-272 | decides by the parts between the dots: three names, a format error, or the null string that fewer parts lead to |
| Namespaces.SplitsExactlyJoined | src/client_lib/ftb_client_lib.c:213-272 | a string splits into three names if and only if it is those names joined by dots, none empty, within the length |
| Namespaces.NameCharExactly | src/util/ftb_auxil.c:95-108 | names are of the letters, the digits and the underscore |
| Namespaces.NullStringExactly | src/client_lib/ftb_client_lib.c:213-272 | the null string is met exactly with a name that has no dot in it, or with two that have one between them, within the length |
| EventHandles.GetEventHandle | src/client_lib/ftb_client_lib.c:1395-1418 | a handle if and only if the event space splits, with the split names in it |
| EventHandles.Rebuild | src/client_lib/ftb_client_lib.c:1395-1445 | a receiver rebuilds the publisher's handle, equal to it, if and only if the publisher's names are valid |
| EventHandles.SameEventIsFoldEquality | src/client_lib/ftb_client_lib.c:1421-1445 | handles compare equal exactly when their lower-case representatives are the same in every field |
| EventHandles.ClientsHandlesDiffer | src/client_lib/ftb_client_lib.c:1421-1445 | handles of clients that differ in process, name, extension or event space never compare equal |
| EventHandles.Client.Publish | src/client_lib/ftb_client_lib.c:1448-1540 | which names and types are errors; a success takes the next sequence number in 16 bits and returns the handle of the message sent |
| EventHandles.Client.HandlesCollideExactly | src/client_lib/ftb_client_lib.c:1421-1445 | two publications of a client have equal handles if and only if name and severity agree and a multiple of 65536 lies between them |
| EventHandles.Client.NearHandlesDiffer | src/client_lib/ftb_client_lib.c:1512-1520 | fewer than 65536 apart, handles never compare equal |
| Subscriptions.SoftTrim | src/util/ftb_auxil.c:32-55 | what is left has no blank at its ends, and only blanks were taken from both ends |
| Subscriptions.TrimTakesSpacesAndTabs | src/util/ftb_auxil.c:32-55 | spaces and tabs go from the ends, and nothing else does |
| Subscriptions.TrimFindsToken | src/util/ftb_auxil.c:32-55 | a token comes unchanged out of any blanks around it |
| Subscriptions.ReadSides | src/client_lib/ftb_client_lib.c:420-455 | the two sides of a field, or which error it is |
| Subscriptions.CutFields | src/client_lib/ftb_client_lib.c:404-410 | the parts between the commas |
| Subscriptions.ParseSubscriptionString | src/client_lib/ftb_client_lib.c:377-467 | the loops compute the parse as a function of the string, with the overfull array made visible |
| Subscriptions.FieldPassesExactly | src/client_lib/ftb_client_lib.c:275-374 | a field passes if and only if it is good by itself and its attribute new; it then sets that attribute only |
| Subscriptions.ParsesExactly | src/client_lib/ftb_client_lib.c:377-467 | a string parses if and only if each field is good and no attribute comes twice; the mask has what the fields give and "all" elsewhere, whatever their order |
| Subscriptions.RepeatedAttributeIsRejected | src/client_lib/ftb_client_lib.c:293-294 | a string that gives an attribute twice is rejected, whatever else it holds |
| Subscriptions.AcceptedExactly | src/client_lib/ftb_client_lib.c:275-374 | which values an attribute takes: five severities, an event space, and texts that fit the field of the event |
| Subscriptions.NamesExactly | src/client_lib/ftb_client_lib.c:293-374 | the attributes are known by six names, in any case |
| Subscriptions.NoEqualsSign | src/client_lib/ftb_client_lib.c:420-425 | a field without an equals sign makes a wrong string |
| Subscriptions.SidesErrExactly | src/client_lib/ftb_client_lib.c:420-455 | which error a field gets for its sides: blanks on one side of the equals sign, a blank inside the name, or inside the value |
| Subscriptions.FieldErrsExactly | src/client_lib/ftb_client_lib.c:275-374 | which error a name and a value get: unknown name, repeated name, unsuitable value, or no event space |
| Subscriptions.FirstErrorIsReported | src/client_lib/ftb_client_lib.c:412-467 | a string gets the error of its first field that does not pass |
| Subscriptions.StringCatchesExactly | src/client_lib/ftb_client_lib.c:377-467 | the mask of a string that parses accepts exactly the events that meet what its fields ask for, where naming an event makes severity, category and component irrelevant |
| Subscriptions.EmptyStringCatchesAll | src/client_lib/ftb_client_lib.c:282-292 | the empty string catches every event |
| Subscriptions.UnnamedIsIgnored | src/client_lib/ftb_client_lib.c:282-292 | what an event has under attributes that a string does not name makes no difference |
| Subscriptions.PrintedStringParses | src/client_lib/ftb_client_lib.c:377-467 | any attributes with acceptable values, in any order, case and blanks, parse to a mask with those values |
| Subscriptions.PrintedCatchExactly | src/client_lib/ftb_client_lib.c:377-467 | attributes written in any order, case and blanks catch exactly the events that meet their values |
| Subscriptions.ParseOfPrint | src/client_lib/ftb_client_lib.c:377-467 | parsing any printed form of a mask gives that mask back |
| Subscriptions.EveryPrintableMaskParses | src/client_lib/ftb_client_lib.c:275-374 | every mask a subscription string can ask for has a string that parses to it |

## Left out

- Sockets, `select`, the read and write macros, host names, configuration files, logging: input and output. Links are FIFO queues, and packets to the bootstrap server are a set.
- Mutexes, condition variables, reference counts and thread cancellation: each locked operation is one step.
- Memory reclamation: `LinkedMap.Map.Finalize` follows the order of the frees; elsewhere `malloc` and `free` are not modelled.
- `FTBM_Init` and the checks for `leaf` and `initialized`: the model is of an agent that is up.
- Shutdown (`FTBM_Finalize`, `FTBM_Abort`, `FTBC_Disconnect`) and an agent that deregisters itself with its neighbours: they lose it as they lose a connection.
- An agent that starts again at an address it had before: the topology lets agents lose their parents, but not be born again.
- OverlayInvariant.NoInterestIsLost: is about runs in which agents connect, and announcements overtake markers, with care, because otherwise an interest can be lost (`Reunions`).
- A second connection between two agents that have one: the overlay lets agents connect only when they are not linked.
- TopologyCycles.ResetCyclesExactly: is about worlds in which no level of 65534 is said of anybody, and in which not all that are tempted are past the first round of their loop with a request that is lost or names the agent, or, for an agent in its first `FTBN_Connect`, not up or not on record; beyond that `TopologyCycles.HarmfulResetCycles` has a necessary and a sufficient condition.
- Routing.ExactlyOnce: is about an overlay with no control message in flight and no link lost meanwhile, because then events can be lost with the link or follow interest that is on its way.
- Connector.Agent.Connect: an agent only; a client process first tries the agent on its own host, and does not register.
- The waiting time between attempts to connect: with one retry its arithmetic never matters.
- The publishable-event messages: the agent does nothing on them.
- Callbacks, including the branch that moves a callback's events to the polling queue after freeing the node it has just queued: there is no sound behaviour to state.
- The client's `polling_map` and `callback_map`: they compare four of the eight fields, so they do not store one entry per subscription.
- The Blue Gene tag reader (`src/client_lib/platforms/bg/ftb_zoid_wrapper.c`): it does not skip the data between entries.
- DynamicTags.TagStore.AddDynamicTag: compares owners as values, because C cannot compare the structures the code compares.
- The schema file, the declaration of events, payloads, the Linux and ZOID wrappers, examples and scripts: plumbing.
