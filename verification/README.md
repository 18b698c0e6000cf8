# go-clarinet, modelled in Dafny

go-clarinet connects a sender, a receiver and a witness over per-node connection stores, exchanges its
messages in a text wire format, and chooses witnesses by reputation. This project models those parts
and proves what they promise, for every input, every run and every number of nodes.

How the files fit together:

- `Types`, `Rules`: the values that are exchanged, and the decisions one node takes. The rules are used both
  by the node's methods and by the protocol's steps.
- `Protocol`: connection setup and teardown as a step system. A state holds every node's locked store
  entries, the threads working on them, every packet ever sent (so packets may be lost, repeated and
  reordered), and as history the creator's choices for each ID and the witness chosen. An update holds its
  entry's lock across its network exchanges, so `Connect`, witness selection and closing are threads of many
  steps. A witness enters a connection in two steps.
- `Runs`: what a state leads to by events of an allowed kind, and how such runs are put together.
- `Invariants`, `InvariantSteps`, `Safety`, `StatusOrder`: the invariant, its preservation by each event, and
  the promises about reachable states and whole runs. The transport is a parameter. It delivers requests and
  notifications as sent or not at all; the two promises that rest on answers ask in addition that it never turns
  such an answer from a refusal into a grant.
- `Traces`, `Reopening`, `Counterexamples`: when a closed connection can stop being closed.
- `Completion`: the runs in which everyone consents, from the call of Connect until all three nodes hold the connection
  open, and on until all hold it closed.
- `Base64`, `Strings`, `Serde`, `SerdeProofs`: the wire format, on bytes.
- `WireRefinement`, `LostRefusals`: the protocol over text against the protocol that passes values, and which
  handler answers cost which promise.
- `ConnectionStore`, `Node`, `NodeService`: the store, the node's operations and its adapters as objects and
  loops. `Solo` shows that a thread of the protocol, run alone from the call to the end, does to its node's
  store what the method does.
- `LockedStore`, `ReputationRace`: the two in-memory stores under concurrent callers, one lock operation at a
  time. `ReputationStore` is the reputation store as one caller sees it.
- `Reputation`, `Trust`, `Sampling`, `Signing`: the reputation values, the trust rule, the peer sample and
  the signed payloads.

Every answer that comes from outside a node (peer lookups, user handlers, whether a send or an exchange
succeeds, the order of the peer store, random draws) is a parameter or part of an event, so the results hold
whatever it is. Transport peer IDs are genuine and created connection IDs are fresh.

Where the code does not do what one might expect, the code is kept and the exact condition proved:

- `Closed` is not final while a witness selection is pending: neither the selection that the connect adapter
  starts in the background nor the one in Connect's own update looks at the status, and either can reopen a
  connection closed before it got the lock (`Counterexamples.ClosedCanReopen`, `Counterexamples.ConnectorCanReopen`).
  A closed entry can leave Closed if and only if such a selection is pending that can still persist something
  else (`Reopening.ReopensExactly`). The receiver's always can. The sender's can if it has a selector, the receiver is
  another node and, until the receiver's grant has been taken, the receiver has not entered the connection yet or
  its grant is in the network.
- The list holding one empty text is written as nothing and read back as the empty list, so a handler that answers
  "accepted" with that list of errors refuses locally and grants over the wire. The promise that a sender past its
  request has a receiver holds on all runs over the wire if and only if connect handlers never answer so; the promise
  that a named witness really accepted, if and only if witness handlers never do
  (`LostRefusals.SenderPromiseExactly`, `LostRefusals.WitnessPromiseExactly`). The other promises hold either way.
- A request with a nil selector is sent, but the far side cannot read it (`WireRefinement.WireRefinesValues`).
- A peers request for more peers than there are others can make the sampling loop draw from an empty list when
  the node lists itself (`Sampling.SafeUnderEveryDrawExactly`).
- The repository's README says a negative number of peers asks for all of them. The code answers such a request
  with none (`Sampling.NoneAsked`), and the requesting side refuses to send it; the model follows the code.
- The ConnectionStore interface says Read calls its callback even when the ID is unknown
  (v2/connection/connection.go:98-102). The in-memory store returns an error instead, and so does the model.

## Model

| member | source | states |
|---|---|---|
| Safety.WitnessAgreement | v2/goclarinet.go:134-204 | in every reachable state, for any number of nodes and any loss, repetition or reordering, a sender and a receiver that both name a witness for an ID name the same one, whichever side selects; no trust in delivered answers is needed |
| Safety.NamedWitnessAccepted | v2/goclarinet.go:271-292 | when witness answers are delivered honestly, a witness named at a sender's or receiver's entry is a third node whose own entry has the same sender and receiver and itself as witness |
| Safety.StatusDeterminesWitness | v2/handlers.go:200-243 | at the two ends, waiting and requesting statuses mean no witness, notifying and open ones mean a witness that is neither end; a witness's entry is Open, Closing or Closed and names nobody else |
| Safety.SenderImpliesReceiver | v2/goclarinet.go:206-238 | when connect answers are delivered honestly, a sender past its request, and not closed, has a receiver whose store holds the connection |
| Safety.NotifierIsAnEnd | v2/goclarinet.go:179-196 | the nil-witness error and the panic in sendWitnessNotification are never reached |
| Safety.NotificationsCross | v2/goclarinet.go:189-203 | every notification ever sent goes from the end that was to choose to the other end, never to itself or a third node |
| Safety.NotificationOpens | v2/handlers.go:200-243 | in every reachable state serving a notification makes the entry Open with the chosen witness, its ID and ends kept, exactly when it awaits one, the node finds itself and its user consents; the check of the sender never fails; otherwise nothing changes |
| Safety.CloseRequestsStay | v2/goclarinet.go:307-323 | every close request ever sent comes from a node in the connection and goes to another participant: an end, or the witness chosen |
| Safety.CloseRequestEnds | v2/handlers.go:254-271 | serving a close request makes the entry Closed with the user's consent and Closing without, leaves a Closed one alone, and changes nothing else |
| Safety.EndsNeverDiffer | starterimpl/inmem/inmem.go:100-126 | all entries for one ID, on all nodes and at any two times of a run, carry the same sender and receiver |
| Safety.SelectedAtMostOnce | v2/handlers.go:90-100 | over a whole run an entry gets at most one witness selection |
| InvariantSteps.StepKeeps | v2/handlers.go:18-271 | every event of the protocol keeps the invariant behind these promises, and the parts resting on an answer where that answer is delivered honestly |
| InvariantSteps.NamingKeeps | v2/goclarinet.go:282-289 | naming a witness keeps the invariant: no other thread on the connection can still choose |
| InvariantSteps.ServeConnectKeeps | v2/handlers.go:18-102 | serving a connect request keeps the invariant, whatever lookups and the user's handler answer |
| InvariantSteps.ServeWitnessKeeps | v2/handlers.go:113-170 | the first step of a witness, Open with no witness yet, keeps the invariant |
| InvariantSteps.NameSelfKeeps | v2/handlers.go:172-188 | the second step, naming itself and answering, keeps the invariant |
| InvariantSteps.ServeNotificationKeeps | v2/handlers.go:200-243 | a notification, however late or repeated, keeps the invariant |
| InvariantSteps.ServeCloseKeeps | v2/handlers.go:254-271 | a close request keeps the invariant |
| StatusOrder.ClosedIsFinal | v2/goclarinet.go:294-332 | once no selection is pending on an entry its status never falls, Closed stays Closed, and the number of changes left is at most six less its rank |
| StatusOrder.SettledStatusOnlyRises | v2/handlers.go:200-271 | from such a point no selection becomes pending again and every status change uses up rank |
| StatusOrder.OnlySelectionReopens | v2/goclarinet.go:121-130 | only a selection persisting its result, Connect's or the connect adapter's, can take an entry out of Closed |
| StatusOrder.QueuedSelectionReopens | v2/goclarinet.go:134-177 | whenever a receiver's selection is queued on an entry whose lock is free, Closed or not, four steps can leave the entry requesting a witness |
| Completion.OpensForAll | v2/goclarinet.go:106-292 | for either selector and any three nodes, over any transport that delivers what survives the wire (the wire and the one that passes values), everyone consenting leads from the call of Connect to the sender, the receiver and the witness holding the same Open connection, with no thread left at work |
| Completion.ClosesForAll | v2/goclarinet.go:294-332 | from there, whichever of the three closes the connection, all three come to hold it Closed |
| Completion.BothDeliver | starterimpl/libp2p/libp2p.go:80-92 | both the transport over text and the one that passes values deliver, as it was sent, every message the wire keeps, as those runs need |
| Reopening.ReopensExactly | v2/goclarinet.go:121-177 | in every reachable state a Closed entry has a continuation in which it is not Closed if and only if a selection pending on it can still persist something else, a condition on its phase, selector and ends and on whether its grant can still come |
| Reopening.ReceiverReopensExactly | v2/handlers.go:90-100 | at any node but the sender that is exactly while the connect adapter's selection is pending, in any phase |
| Reopening.ClosedForGood | v2/goclarinet.go:294-332 | without such a selection Closed is final, over any transport that delivers connect answers honestly |
| Counterexamples.ConnectorCanReopen | v2/goclarinet.go:116-130 | a connection closed between Connect's Create and its Update is reachable, and can reopen if and only if a selector was given and the receiver is another node |
| Counterexamples.ClosedCanReopen | v2/handlers.go:92-99 | a reachable Closed entry has a reachable successor in which it is RequestingWitness |
| LostRefusals.SenderPromiseExactly | starterimpl/libp2p/serde.go:104-145 | for any set of answers, every sender past its request has a receiver on all runs over the wire whose connect handlers answer within the set, if and only if no answer in it is "accepted" with only the empty error |
| LostRefusals.WitnessPromiseExactly | starterimpl/libp2p/serde.go:182-213 | the same for witness handlers and the promise that a named witness really entered the connection |
| LostRefusals.WireCanLoseARefusal | starterimpl/libp2p/serde.go:373-378 | for every such connect answer a sender can come to wait for a witness on a connection its receiver never entered |
| LostRefusals.WireCanNameARefuser | starterimpl/libp2p/serde.go:373-378 | for every such witness answer a sender can come to name a witness that refused and has no entry |
| WireRefinement.WireRefinesValues | starterimpl/libp2p/libp2p.go:80-92 | with no handler answering "accepted" with only the empty error, the runs over text are exactly the runs that pass values and take no request with a nil selector from the network, state for state |
| WireRefinement.WireHonestExactly | starterimpl/libp2p/serde.go:104-145 | the wire turns no connect (witness) refusal into a grant exactly when no such connect (witness) answer was sent |
| WireRefinement.WireRunsAreHonest | starterimpl/libp2p/serde.go:104-145 | on every run over the wire whose handlers never answer so, all answers sent are delivered honestly, duplicates' refusals included |
| WireRefinement.WireDelivers | starterimpl/libp2p/libp2p.go:171-199 | each message arrives with its vanishing lists emptied and otherwise unchanged; one with a nil selector does not arrive |
| SerdeProofs.MessageRoundTrip | starterimpl/libp2p/serde.go:16-61 | for all eight types, parsing what was printed gives the message back up to lists holding one empty text; only a nil selector is refused |
| SerdeProofs.ReadsBackExactlyWhenSafe | starterimpl/libp2p/serde.go:362-391 | a message survives unchanged if and only if none of its lists holds exactly one empty text and its selector is not nil |
| SerdeProofs.SelfDelimiting | starterimpl/libp2p/serde.go:319-330 | each printed message has exactly one ';', at its end, and splits into the number of fields its parser wants |
| SerdeProofs.ReadRecoversMessage | starterimpl/libp2p/libp2p.go:80-87 | reading up to the first ';' of a message followed by any bytes gives the message |
| SerdeProofs.PeersResponseRoundTrip | starterimpl/libp2p/serde.go:271-317 | peer records, which contain the outer delimiters, nest in a list and come back in order with their addresses |
| SerdeProofs.SliceRoundTrip | starterimpl/libp2p/serde.go:362-391 | a list comes back as it was, except the one holding exactly the empty text, which comes back empty |
| SerdeProofs.PeerIDRoundTrip | starterimpl/libp2p/serde.go:332-348 | a peer ID, or none, survives its encoding, which holds no delimiter |
| SerdeProofs.PeersRequestRoundTrip | starterimpl/libp2p/serde.go:254-269 | every 64-bit number of peers, negative ones included, survives |
| SerdeProofs.PrintedAs | starterimpl/libp2p/serde.go:63-284 | the text of each of the eight types is what its format string says: these fields in this order, '.' between them, ';' at the end, and nested peer records likewise |
| SerdeProofs.SliceTextIs | starterimpl/libp2p/serde.go:362-371 | the empty list is the empty text, and each further element adds its base64, after a ',' when it is not the first |
| SerdeProofs.MalformedRefused | starterimpl/libp2p/serde.go:319-330 | text not ending in ';', or with another number of '.' than its type has, is refused for every type |
| Serde.SerializeSlice | starterimpl/libp2p/serde.go:362-371 | the loop encodes each element and joins the results in order |
| Serde.DeserializeSlice | starterimpl/libp2p/serde.go:373-391 | the loop decodes each part in order, line breaks skipped, and stops at the first that fails; the empty text is the empty list |
| Serde.SerializePeersResponse | starterimpl/libp2p/serde.go:271-284 | the loop writes one record per peer, in order |
| Serde.DeserializePeersResponse | starterimpl/libp2p/serde.go:286-317 | the loop parses each record in order and stops at the first that fails |
| Base64.RoundTrip | starterimpl/libp2p/serde.go:350-360 | decoding undoes encoding, which is empty only for the empty text |
| Base64.EncodeIs | starterimpl/libp2p/serde.go:350-352 | the encoding is that of section 4 of RFC 4648 without padding: ceil(8n/6) characters, the i-th being the alphabet's letter at the number formed by bits 6i to 6i+5 of the text, zeros filling the last |
| Base64.DecodesExactly | starterimpl/libp2p/serde.go:354-360 | decoding fails if and only if there is a byte that is neither in the alphabet nor a line break, or one letter is left over after groups of four |
| Base64.BreaksAreSkipped | starterimpl/libp2p/serde.go:354-360 | a line break changes nothing wherever it stands |
| Base64.Injective | starterimpl/libp2p/serde.go:350-352 | different texts have different encodings |
| Strings.SplitJoin | starterimpl/libp2p/serde.go:325 | splitting undoes joining when no part holds the separator |
| Strings.AtoiFormatInt | starterimpl/libp2p/serde.go:255-263 | every integer's decimal text is read back when it fits in 64 bits, and refused otherwise |
| Strings.FormatIntIs | starterimpl/libp2p/serde.go:255 | the text is the integer's in base ten: a '-' exactly when it is negative, the i-th digit from the end that of its size, no leading zeros |
| Strings.ParseFormatID | v2/connection/connection.go:10-14 | a connection ID is read back from its UUID text (section 3 of RFC 4122) |
| Strings.FormatIDIs | v2/connection/connection.go:10-14 | that text is 36 characters, each byte as two lower-case hexadecimal digits at its place, dashes after four, six, eight and ten bytes |
| Strings.HexValueIs | starterimpl/libp2p/serde.go:76 | hexadecimal digits of either case are read |
| ConnectionStore.Store.Accept | starterimpl/inmem/inmem.go:100-126 | a new ID is entered with no witness; one already there is refused and its entry object and value left alone |
| ConnectionStore.Store.Read | starterimpl/inmem/inmem.go:138-146 | gives the committed connection of a known ID |
| ConnectionStore.Store.Update | starterimpl/inmem/inmem.go:148-160 | persists what the callback returns even beside an error, and nothing when it returns nothing; no other entry changes |
| LockedStore.ValueIsFold | starterimpl/inmem/inmem.go:148-160 | in every interleaving an entry with no update under way holds the fold of its callbacks in lock order |
| LockedStore.EveryUpdateCounts | starterimpl/inmem/inmem.go:148-160 | that order holds exactly the update calls that got the lock, each once |
| LockedStore.ReadersSeeCommitted | starterimpl/inmem/inmem.go:138-146 | while a reader reads, no update is under way and it sees the fold of all updates so far |
| LockedStore.UpdatesSeeTheirPredecessors | starterimpl/inmem/inmem.go:153-155 | each callback is given the fold of the callbacks before it |
| LockedStore.UpdatesReport | starterimpl/inmem/inmem.go:155-159 | an update that has returned reports the error its callback gave on the fold of the callbacks before it, whatever came since |
| LockedStore.UpdateAlone | starterimpl/inmem/inmem.go:148-160 | on an entry nobody holds an update runs to its end, persists what its callback returned even beside an error, and reports the error; on an unknown ID it is refused |
| LockedStore.ReadAlone | starterimpl/inmem/inmem.go:138-146 | while no update holds the entry a read gets the value, however many others read |
| LockedStore.EntriesStay | starterimpl/inmem/inmem.go:110-117 | an installed entry is never replaced and its order only grows |
| Node.WitnessCandidates | v2/goclarinet.go:240-269 | the loop keeps, in peer-store order, the trusted peers that are neither end |
| Node.Eligible | v2/goclarinet.go:246-268 | a peer is a candidate if and only if it is known, trusted and neither end |
| Node.EligibleInOrder | v2/goclarinet.go:246-268 | the candidates stand in peer-store order, each as often as it is listed |
| Node.FindWitness | v2/goclarinet.go:271-292 | names the first candidate in order whose answer has the connection's ID, no errors and is accepted, after asking all before it, or fails having asked all |
| Node.HandleWitnessSelection | v2/goclarinet.go:134-177 | the method's result is where the protocol's selection phases end: an error and nothing when the node does not find itself, an error and the unchanged connection without a selector, AwaitingWitness and no error when the other side is to choose |
| Node.SelectionEnds | v2/goclarinet.go:134-177 | on the side that chooses: an error and RequestingWitness when nobody grants, else the first that does as witness, Open without error when the other end could be told and NotifyingOfWitness with one when not |
| Node.SelectionResult | v2/goclarinet.go:144-176 | whatever a selection persists is awaiting, requesting, or open or notifying with an eligible peer |
| Node.CloseCallback | v2/goclarinet.go:295-331 | looks up sender, witness and receiver in this order, other than itself, and tells each one found, whatever failed before; Closed exactly when all went well, else Closing with an error; silent when already Closed |
| Node.ReachedAre | v2/goclarinet.go:308-322 | those told are the ones found, in order |
| Rules.CloseTargetsAre | v2/goclarinet.go:307-311 | the nodes told of a close, in order, are exactly sender, witness and receiver as far as there is one and it is not this node |
| NodeService.ClarinetNode.Connect | v2/goclarinet.go:106-132 | nothing happens when the preparations fail or the ID is known; else it fails and leaves the bare request whenever the receiver is not found, the exchange fails, the answer has another ID, has errors or is not accepted, or the node does not find itself; failure and store by selector, side, first grant and notification in the other cases; the ID is returned even beside an error |
| NodeService.ConnectedIs | v2/goclarinet.go:121-130 | the same of the update's callback: what it returns in each of these cases |
| NodeService.ClarinetNode.RunSelection | v2/handlers.go:92-99 | the selection runs on the entry as it then is, whatever its status |
| NodeService.ClarinetNode.CloseConnection | v2/goclarinet.go:294-332 | what the store holds, whom it told and whether it failed, for every status and every failure, sender, witness and receiver being the ones to tell |
| NodeService.ClarinetNode.HandleConnect | v2/handlers.go:18-102 | enters the connection, AwaitingWitness, exactly when both ends are known, one of them asks, this node finds itself and is one of them, the user agrees and the ID is new; the answer in every case, a duplicate's with an error added; a selection queued exactly when this end is the one to choose |
| NodeService.ClarinetNode.HandleWitness | v2/handlers.go:113-189 | enters the connection, Open, exactly when both ends are known, one of them asks, this node is neither, the user agrees and the ID is new, and names itself unless its second lookup fails; the answer in every case |
| NodeService.ClarinetNode.HandleNotification | v2/handlers.go:200-243 | the entry becomes Open with the given witness, all else kept, exactly when it awaits one, the other end sends it, the node finds itself and the user consents; otherwise an error and no change |
| NodeService.ClarinetNode.HandleClose | v2/handlers.go:254-271 | Closed with the user's consent, Closing with an error without it, nothing when Closed already |
| Solo.ConnectRunMatches | v2/goclarinet.go:106-132 | the protocol's events of one call of Connect, run alone to the end, form a run after which the node's store is the method's and no other node's has changed |
| Solo.SelectionRunMatches | v2/handlers.go:92-99 | likewise for a selection the connect adapter started and RunSelection |
| Solo.CloseRunMatches | v2/goclarinet.go:294-332 | likewise for CloseConnection: sender, witness and receiver other than the node are its targets in this order, and the packets added are a close request to each that was found |
| Solo.WitnessServiceMatches | v2/handlers.go:113-189 | likewise for both steps of serving a witness request and HandleWitness, with the answer posted |
| Solo.ConnectServiceMatches | v2/handlers.go:18-102 | serving a connect request changes the node's store, starts a selection and answers as HandleConnect does |
| Reputation.ValueAfter | starterimpl/inmem/inmem.go:264-304 | after r rewards, w weak and s strong penalties in any order the value is r/(r+w+3s), or 1 when there were none; within [0,1]; at least 0.5 exactly when r >= w+3s |
| Reputation.MarksMoveValue | starterimpl/inmem/inmem.go:274-304 | after any history a reward never lowers the value and a penalty never raises it |
| ReputationStore.Store.EnsureRepExists | starterimpl/inmem/inmem.go:327-343 | the peer has an entry afterwards, the old one if there was one, and no peer's reputation changes |
| ReputationStore.Store.Read | starterimpl/inmem/inmem.go:345-350 | gives the peer's reputation, a new one if nothing was recorded, and changes none |
| ReputationStore.Store.Update | starterimpl/inmem/inmem.go:352-361 | the peer's reputation becomes what the callback makes of it, and no other changes |
| ReputationRace.OneEntryPerPeer | starterimpl/inmem/inmem.go:327-343 | in every interleaving of callers racing through the double check, at most one entry is ever made for a peer |
| ReputationRace.CallersShareTheEntry | starterimpl/inmem/inmem.go:327-343 | any two callers for a peer, whenever each got its entry, got the same one |
| ReputationRace.EntriesStay | starterimpl/inmem/inmem.go:334-340 | an installed entry is never replaced |
| ReputationRace.NoUpdateLost | starterimpl/inmem/inmem.go:352-361 | a peer's value is a new reputation put through exactly the update calls for it that got the lock, each once |
| ReputationRace.ArrivesAlone | starterimpl/inmem/inmem.go:327-343 | a caller gets the entry that is there at its first look, or with none there and the global lock free makes one with the starting value |
| ReputationRace.RacingMarks | starterimpl/inmem/inmem.go:274-361 | however rewards and penalties race, first use included, the value is the share the recorded marks come to |
| Trust.TrustFunc | main.go:155-190 | trusts a value exactly when it is at least 0.5 and not below mean minus sample standard deviation of the known peers' values |
| Trust.MeanOf | main.go:178-182 | the loop computes the mean |
| Trust.VarianceOf | main.go:184-188 | the loop computes the sample variance |
| Trust.RejectedBound | main.go:178-190 | when k of n values lie below mean minus sample standard deviation, k(2n-1) < n(n-1) |
| Trust.FewerThanHalfRejected | main.go:178-190 | fewer than half of the values lie below that line |
| Trust.SomeonePassesExactly | main.go:155-190 | some peer passes the whole rule if and only if some peer's value is at least 0.5 |
| Sampling.Handle | v2/handlers.go:300-312 | the loop that deletes from the peer list in place computes the sample that the draws determine |
| Sampling.Delete | v2/handlers.go:304 | deleting in place leaves what stood before the entry and then what stood after it |
| Sampling.SampleIsFair | v2/handlers.go:300-312 | for distinct peers, whatever is drawn, the sample is of min(max(num,0), others) distinct known peers without the node itself, unless a draw from nothing panics |
| Sampling.SafeUnderEveryDrawExactly | v2/handlers.go:305-309 | no sequence of draws panics if and only if the node is not listed or num is at most the number of others |
| Sampling.SelfLeftLast | v2/handlers.go:305-306 | the draws that leave the node until the end panic when as many peers are asked for as are listed |
| Sampling.EverySampleDrawn | v2/handlers.go:300-312 | every list of distinct known peers other than the node comes out for some draws |
| Sampling.DrawsDecide | v2/handlers.go:302-309 | a draw picks the peer at its place, and one that hits the node itself costs a second draw among the others |
| Sampling.NoneAsked | v2/handlers.go:301 | a number that is not positive gives the empty sample, whatever is drawn |
| Sampling.AllOthersExactly | v2/handlers.go:300-312 | a sample holds every other peer if and only if at least as many were asked for as there are, or there are none |
| Signing.SenderParts | starterimpl/inmem/inmem.go:182-185 | the sender's payload is ID, sequence number and base64 data, in this order between dots |
| Signing.WitnessParts | starterimpl/inmem/inmem.go:202-206 | the witness's payload is those and the base64 of the sender's signature |
| Signing.SenderPayloadDetermines | starterimpl/inmem/inmem.go:182-185 | two sender payloads are equal if and only if ID, sequence number and data are |
| Signing.WitnessPayloadDetermines | starterimpl/inmem/inmem.go:202-206 | two witness payloads are equal if and only if those and the sender's signature are |
| Signing.PayloadKindsDiffer | starterimpl/inmem/inmem.go:182-206 | no sender payload is a witness payload |
| Signing.SignedInOrder | starterimpl/inmem/inmem.go:187-221 | with correct schemes, signing by the sender and then by the witness leaves both verifications true |
| Signing.SignedOutOfOrder | starterimpl/inmem/inmem.go:187-221 | in the other order the witness's signature verifies if and only if the sender's signature was already there or the key accepts it for the two different payloads |
| Signing.SenderSignatureCovers | starterimpl/inmem/inmem.go:198-200 | a sender's signature that verifies on two messages covers the same content, or else the key accepts it for two different payloads, and never both |
| Signing.WitnessSignatureCovers | starterimpl/inmem/inmem.go:219-221 | the same for a witness's, which covers the sender's signature too |
| Signing.SignatureKindsClash | starterimpl/inmem/inmem.go:198-221 | a signature that passes as a sender's and as a witness's is one the key accepts for two different payloads |

## Left out

- NodeService.ClarinetNode.HandleConnect: requires a sender and a receiver in the request; a nil one is dereferenced by the transport's peer store, which panics.
- NodeService.ClarinetNode.HandleWitness: the same.
- Reopening.ReopensExactly: continuations pass values; over the wire a selection whose messages cannot be read may stay pending.
- Solo.ConnectRunMatches: the answers a thread takes are in the network from the start; what happens between its steps is the business of the invariant.
- Trust.TrustFunc: reals stand for floating point, so rounding is not modelled; with fewer than two peers the deviation is not a number and the rule is false.
- Sampling.Handle: starts where the user's handler gave no response and the peer store answered; the earlier returns are not modelled.
- ReputationRace.OneEntryPerPeer: the unlocked map read is atomic, as are all map reads in the model.
- Serde.DeserializePeersResponse: an empty record inside the list is an error here; the code indexes its last byte and panics.
- Base64 that is not canonical, and UUID spellings other than the 36-character one, are not given a meaning beyond what the model's parsers do with them.
- Empty input to a message parser: the code indexes its last byte and panics; the parsers require input.
- A peer ID is identified with its text, which is never empty; parsing it is the peer library's.
- libp2p streams, dialling, deadlines and multiaddresses: an exchange or a send succeeds or fails as its parameter or event says.
- The request value that the transport's handler wrapper shares between calls: each handler call gets its own.
- The message store, whose map is nil when created, and the operations the documentation describes that have no code in `v2`.
- UpdatePeer and RequestPeers: address bookkeeping only.
- Listing connections by unlocked iteration over the map.
- Freedom from deadlock: the trust rule takes read locks while one is held.
- The texts of errors and reject reasons are shorter than the code's; nothing depends on them except that a refusal's text is not empty.
- The admin endpoints, configuration, keys and logging.
