# Machine-checked model of mtmux

mtmux lets a browser reach tmux sessions on a machine through a blind pairing broker, a sealed tunnel and a
local relay. This project models the parts of it whose correctness is about state, order and time, and proves
what they promise.

Two layers run through it. A file's state and each of its callbacks are functions on values; invariants and
theorems over all runs are proved about those. Where the source keeps the state in an object and changes it in
place, a class does so too, loops included, and each method is proved to make exactly the change its function
makes, so the theorems hold of the object.

| module | what it models |
|---|---|
| Mailboxes, MailboxObjects | the broker's mailbox store: slot index, caps, compare-and-set claim, two times to live, buffered delivery |
| BrokerState, BrokerProofs, BrokerRuns, BrokerDelivery, BrokerObjects | the pairing handlers as one transition system, with both guessing budgets: what every run keeps, and what each dial and frame delivers |
| AccessRequests, AccessRequestEvents | a signed-in browser's request to one of its machines |
| RateLimit | the sliding-window limiter, against a plain log |
| Exchange, ExchangeEarned, ExchangeObjects | the CLI's end of an exchange: many candidate peers, awaits, grace timer, one result, and what earns it |
| Frames | sealed frames: salt, counter, ciphertext |
| TunnelAgent, TunnelProofs, TunnelRuns, TunnelDelivery, TunnelBinding, TunnelRevocation, TunnelObjects | the tunnel agent's streams: promise chain, hold buffers, trial binding, gate, keyring |
| TunnelRegistry, TunnelRegistryLaws, TunnelRegistryObjects | live tunnels with derived ids, epochs and quotas |
| Bytes | LEB128, length-prefixed concatenation, base64url, constant-time comparison |
| Json, JsonProofs | JSON printing and parsing over UTF-16 code units |
| CastFormat, CastWriter, Timeline | recordings: format, bounded writer, playback arithmetic |
| Utf8, CastBytes | UTF-8 as written and as read back, and recordings cut at any byte |
| Grants, GateRules | grants, their meet, the policy table and the gate, against rules written out beside them |
| LocalOffer, OfferRedemption, SessionTokens | local pairing offers and sliding session tokens |
| Connections | the relay's sockets: admission, per-connection queue, removal, address counts |
| AccessPrompt, PromptVerdict | the race between the two approval channels |

Several statements one would like to make are false of the code. Each is answered by the exact condition under
which the code does meet it, and by a run from the initial state, or a concrete value, that shows why:

- `ruleOut` counts down for peers it does not hold: `Exchange.CounterIsExactThroughoutIff`, shown by
  `Exchange.DuplicateFailureLosesLivePeer` and `Exchange.RefusalAfterFailureCountsTwice`;
- `removeSessionKeys` does not reach a bind in flight: `TunnelRevocation.RemovalIsFinalUnlessBinding`, shown by
  `TunnelRevocation.RemovalDuringTrial`;
- a refusal at the gate goes by stream id: `TunnelRevocation.RefusalShutsIffStillNamed`, shown by
  `TunnelRevocation.ReuseRun`;
- a replaced agent's late close, or a late charge, drops the successor tunnel:
  `TunnelRegistry.LateCloseSparesSuccessorIff` and `LateChargeSparesSuccessorIff`, shown by
  `LateCloseDropsSuccessor`, `LateChargeDropsSuccessor` and, for the other side, `RevocationSparesSuccessor`;
- a socket removed twice makes its address's count wrong: `Connections.RemovalCountsRightIff`, shown by
  `Connections.TwoConnectionsMiscount`;
- a machine's early replies can be lost: `AccessRequests.RepliesConserved` says exactly when;
- `narrower(a, b)` is not always below `b`: `Grants.NarrowerPermitsNoMoreThanBIff`, shown by
  `Grants.NamesDisagree`. Besides the name fallback, a sessions grant narrowed by a recordings grant escapes the
  recordings allow-list. The comment above `narrower` promises a result no wider than either grant; the code
  keeps that promise for `a` only.

Assumptions are stated where they are used: the clock does not go back, random ids and handles are new, the
cipher's decryption undoes its encryption (`Frames.Undoes`), only genuine ciphertexts open (`Frames.Authentic`),
and tunnel ids are derived injectively (`TunnelRegistry.Injective`).

The table below comes in three parts. Its first 85 rows, down to
`Connections.QueueIsFifo`, are the main results. Then come the invariants, the supporting lemmas,
the loops and the runs that show a condition is needed. From
`MailboxObjects.MailboxStore.RemoveMailbox` on they are methods of the classes, each proved to do
in place what its function does, which is what carries the results over to the objects.

## Model

| member | source | states |
|---|---|---|
| `BrokerRuns.GuessingBudget` | apps/api/src/broker.ts:806-856 | over every run, in any limiter window, claims attached through one slot are at most the slot limit and the mailboxes they burn at most that times the per-slot cap |
| `BrokerDelivery.DialReachesEveryWaiting` | apps/api/src/broker.ts:791-874 | dialling a live claim with room in both budgets spends every mailbox on its slot that is stored, unexpired and unclaimed on that claim, each under a handle of its own that the claim's table leads back by, and delivers it the claim's share; the socket is attached if and only if there was such a mailbox, and otherwise hears `peer-gone` and the claim is no more |
| `BrokerRuns.OneShareEver` | apps/api/src/broker.ts:840-856 | over every run at most one `pair:peer-share` is sent to or buffered for a mailbox, and none while it is unclaimed |
| `BrokerRuns.ClaimedOnceForever` | apps/api/src/mailbox.ts:213-237 | over every run a mailbox's `claimedBy` and handle change at most once and never back |
| `BrokerRuns.EverySpendIsCharged` | apps/api/src/broker.ts:806-856 | no mailbox is ever burned except by a dial its own slot's budget granted, for that claim and on that slot, and the totals agree |
| `BrokerRuns.NextKeepsInv` | apps/api/src/broker.ts:431-1317 | every step of the pairing broker, from creating a mailbox to the sweep, keeps the routing, indexing, payload, clock and budget invariants together |
| `BrokerProofs.HolderReachesItsClaimOnly` | apps/api/src/broker.ts:687-773 | a holder's frame reaches no record but the claim routed to its mailbox, as exactly the relayed message under that mailbox's handle |
| `BrokerProofs.ClaimantReachesItsMailboxesOnly` | apps/api/src/broker.ts:884-965 | a claimant's frame reaches no record but the mailbox it owns under the handle it names, never as a second share |
| `BrokerProofs.ClosedClaimOwnsNothing` | apps/api/src/broker.ts:967-993 | after an attached claim's close handler has run, in whatever order it walked its handles, no stored mailbox is still owned by that claim |
| `BrokerDelivery.HolderFramesAreDelivered` | apps/api/src/broker.ts:695-773 | with its route alive, every frame a holder sends under its handle reaches the claim as the message it stands for; confirm and establish are its last word, establish and close take the mailbox, and a frame under another handle closes the socket and changes nothing |
| `BrokerDelivery.ClaimantFramesAreDelivered` | apps/api/src/broker.ts:893-965 | a claimant's confirm, establish or close of one peer reaches the mailbox it owns under that handle; an establish or a close also takes the mailbox and the route; a second share is refused; a bare close ends the claim |
| `BrokerDelivery.GoingTellsEveryMailbox` | apps/api/src/broker.ts:967-993 | when a claimant goes, every mailbox it still owned is told `confirmation-failed` and forgotten, in whatever order its handles are walked, and no other mailbox hears anything |
| `BrokerDelivery.MailboxIsMadeIffRoom` | apps/api/src/mailbox.ts:171-201 | a mailbox is made exactly when fewer than two unexpired ones stand on its slot and fewer than ten thousand are stored besides the slot's expired ones |
| `BrokerDelivery.SweepForgetsExactlyTheExpired` | apps/api/src/broker.ts:1301-1317 | a sweep forgets exactly the mailboxes and claims that have run out and keeps exactly the payloads of the claims it leaves |
| `AccessRequests.OneUndecidedRequestPerMachine` | apps/api/src/broker.ts:544-597 | over every run a machine has at most one undecided request, and a request is attached, forwarded and decided at most once each |
| `AccessRequests.OnlyTheAddressedMachineAnswers` | apps/api/src/broker.ts:1082-1097 | only the machine a request was asked of is told of it, and only its replies go to the browser |
| `AccessRequests.RepliesConserved` | apps/api/src/broker.ts:345-360 | over every run what goes out on a request's socket is its replies in order, none twice: all taken after the socket attached and the first few taken before, as many as the buffer holds; none is lost if and only if none came early, or the socket attached and they all fitted |
| `AccessRequestEvents.BrowserHearsItsMachineOnly` | apps/api/src/broker.ts:1082-1142 | over every run whatever a request's browser is sent was said, after the request was asked, by the very machine it was asked of |
| `AccessRequestEvents.SweepForgetsExactlyTheExpired` | apps/api/src/broker.ts:1307-1310 | a sweep forgets exactly the requests that have run out |
| `RateLimit.NoWindowExceedsLimit` | apps/api/src/rate-limit.ts:30-62 | over every run with a clock that never goes back, any window holds at most `limit` accepted takes per key, pruning and eviction included |
| `RateLimit.RetryAfterIsExact` | apps/api/src/rate-limit.ts:57-62 | after a refusal, waiting the time `retryAfterMs` gives is enough and nothing shorter is, unless the limit is zero, when no wait is |
| `RateLimit.MaintenanceInvisible` | apps/api/src/rate-limit.ts:30-46 | pruning any key and evicting idle ones changes no later decision of any key |
| `ExchangeEarned.EstablishNeedsAGoodTag` | apps/cli/src/pairing-exchange.ts:340-394 | over every interleaving an establish goes to a peer only if that peer's own message carried a tag that verifies under the keys it was being tried with and, with a gate, a later yes answered that very handler, before that handler's descriptor was sealed; a claimant confirms only such a peer |
| `ExchangeEarned.PairedNeedsAGoodTag` | apps/cli/src/pairing-exchange.ts:340-394 | a run that ends paired ends on the keys of such a peer |
| `ExchangeEarned.GoodTagPairs` | apps/cli/src/pairing-exchange.ts:340-394 | an open run does pair with a live peer whose tag verifies, once the gate says yes and the descriptor is sealed |
| `Exchange.SettlesOnce` | apps/cli/src/pairing-exchange.ts:234-250 | over every interleaving of messages, awaits and timers the run settles at most once, sends at most one `pair:establish`, and settles on that peer's keys at once |
| `Exchange.NothingBeforeItsProof` | apps/cli/src/pairing-exchange.ts:297-395 | in the log of every run an establish comes after the entries that its peer was verified under the keys it carries and, with a gate, admitted; a claimant's confirm after the first; `derive` runs at most `maxPeers` times. What earns those entries is `ExchangeEarned.EstablishNeedsAGoodTag` |
| `Exchange.CounterIsExactThroughoutIff` | apps/cli/src/pairing-exchange.ts:256-275 | over whole runs: `outstanding` is the number of live attempts after every event if and only if no event rules out a peer that is not among them |
| `Exchange.NoMatchMeansNobodyLeft` | apps/cli/src/pairing-exchange.ts:257-338 | in a run that rules out no stranger the counter is exact throughout, the grace timer is armed exactly while somebody answered and nobody is left, and "no match" is reported only then |
| `TunnelDelivery.NothingIsLostAtRest` | apps/cli/src/tunnel-agent.ts:403-545 | over every run, told from the frames that arrived for a stream and the lines the relay said on its socket: what is written is what the first of those frames say, what is sent is the first of those lines, sealed; and an open stream with nothing left to do has written and sent all of them, or holds all the lines when no frame has reached it |
| `TunnelRuns.ExactFifo` | apps/cli/src/tunnel-agent.ts:403-545 | for every interleaving, what a stream wrote to loopback is exactly what its first frames say, opened in arrival order under one key, and what it sent is exactly the relay's first lines sealed in order; both are empty until it is let through |
| `TunnelRuns.NothingCrossesUnlessAdmitted` | apps/cli/src/tunnel-agent.ts:484-499 | with a gate installed nothing crosses a stream in either direction unless the gate said yes to that very stream |
| `TunnelRuns.BrowserToLoopback` | apps/cli/src/tunnel-agent.ts:447-515 | when the broker forwards a prefix of a browser's sealed frames and its key bound, loopback gets exactly the browser's first lines |
| `TunnelRuns.LoopbackToBrowser` | apps/cli/src/tunnel-agent.ts:425-439 | whoever opens what the agent sent, in order, reads exactly the relay's first lines |
| `TunnelBinding.FirstFittingEntryBinds` | apps/cli/src/tunnel-agent.ts:460-500 | while the keyring stands and the stream stays open, the first entry whose key opens the first frame is the one that binds it: once it and every entry before it have been tried, whatever happens in between, the stream has both its keys and its device, and the line it opened waits for the gate or is written |
| `TunnelBinding.NoMatchOnlyIfNoneFits` | apps/cli/src/tunnel-agent.ts:460-505 | and the stream is told that no pairing matches only if no entry of the keyring opens its first frame |
| `TunnelRevocation.OneKnownEntryBinds` | apps/cli/src/tunnel-agent.ts:460-479 | one entry that was added to the keyring gives a stream both its keys and its device |
| `TunnelRevocation.RemovalIsFinalUnlessBinding` | apps/cli/src/tunnel-agent.ts:771-785 | after `removeSessionKeys` no stream of the device is live, and none will be until its keys are added again, if and only if no bind to one of its keys that will succeed was in flight |
| `TunnelRevocation.RefusalShutsIffStillNamed` | apps/cli/src/tunnel-agent.ts:403-410 | a refusal shuts the stream it is about if and only if that stream's id still names it |
| `TunnelRevocation.ShutStaysShut` | apps/cli/src/tunnel-agent.ts:403-439 | once closed a stream writes and sends nothing more, in any run |
| `Frames.OpeningUndoesSealing` | packages/crypto/src/frames.ts:184-319 | frames a sealer produced, opened in order, give back the plaintexts in order |
| `Frames.AcceptedCountersIncrease` | packages/crypto/src/frames.ts:242-276 | whatever arrives, accepted frames carry strictly increasing counters from zero, so none is accepted twice or after a later one |
| `Frames.OpenedLinesAreSealedLines` | packages/crypto/src/frames.ts:242-276 | when only genuine ciphertexts open, each line read is the sealed line its counter names: a subsequence, in order |
| `TunnelRegistry.MapsAreInverse` | apps/api/src/tunnel.ts:133-268 | in every reachable state the tunnel and device maps are inverse, registered tunnels are within their byte quota, streams within their cap, and ids are those their devices' epochs derive |
| `TunnelRegistry.IdDependsOnRevocationsOnly` | apps/api/src/tunnel.ts:112-187 | a device's id depends on nothing but how many of its live tunnels were closed as revoked |
| `TunnelRegistry.OneTerminalMessage` | apps/api/src/tunnel.ts:133-244 | each stream's browser is told of its end at most once, and exactly once by the time the stream is gone |
| `TunnelRegistry.LateCloseSparesSuccessorIff` | apps/api/src/broker.ts:1103-1109 | a replaced agent socket's close drops the successor tunnel unless, and only unless, the device was revoked in between |
| `TunnelRegistry.BytesAreTheCharges` | apps/api/src/tunnel.ts:246-253 | over every run a tunnel's byte count is the sum of what was charged to it; a registered tunnel has been charged no more than its quota, and the charge that goes over it forgets it |
| `TunnelRegistryLaws.SweepForgetsExactlyTheExpired` | apps/api/src/tunnel.ts:255-258 | after a sweep over every id the registered tunnels are exactly those that were and have time left |
| `Bytes.LvCatIsInjective` | packages/crypto/src/bytes.ts:40-42 | two lists of fields with one transcript are one list, whatever their lengths and arities |
| `Bytes.LebIsExactBelow32Bits` | packages/crypto/src/bytes.ts:15-28 | reading back gives the value if and only if it is below 2^32 |
| `Bytes.LebIsPrefixFree` | packages/crypto/src/bytes.ts:15-28 | no encoding is a prefix of another's |
| `Bytes.DecodeInvertsEncode` | packages/crypto/src/bytes.ts:59-92 | decoding what was encoded returns the same bytes, for every byte string |
| `Bytes.EncodeInvertsDecodeIffCanonical` | packages/crypto/src/bytes.ts:75-92 | the other way round holds if and only if the text is unpadded, leaves no single character over and sets no dropped bit |
| `Bytes.Base64UrlToBytes` | packages/crypto/src/bytes.ts:75-92 | the decoder writes in bounds, fills exactly floor(3n/4) bytes after padding is stripped, and yields what the characters spell although its accumulator wraps; anything else is refused |
| `JsonProofs.ParseInvertsPrint` | packages/cast/src/format.ts:80-86 | `JSON.parse` of `JSON.stringify` returns the value, for every value with numbers in normal form |
| `JsonProofs.NoProperPrefixParses` | packages/cast/src/format.ts:59-71 | no proper prefix of a printed array or object parses |
| `CastFormat.AnyCutParses` | packages/cast/src/format.ts:107-157 | cut an encoded cast anywhere after its header: it parses to exactly the events whose lines are whole, and is truncated exactly when the cut falls strictly inside an event line |
| `CastFormat.WholeFileRoundTrips` | packages/cast/src/format.ts:89-157 | the whole file reads back with times rounded to the microsecond, and a second trip changes nothing |
| `CastBytes.AnyByteCutParses` | packages/cast/src/format.ts:107-157 | bytes cut anywhere after the header parse as the longest whole text that fits in them: a character cut in two is not noticed |
| `CastWriter.FileHoldsWhatWasAppended` | packages/cast/src/writer.ts:106-154 | after every run on a clock that never goes back the file parses to exactly the appended events, sorted; all but the last line fit the byte limit, a limit of zero still letting one line in |
| `CastWriter.NothingIsLostBeforeTheStop` | packages/cast/src/writer.ts:126-154 | a writer not stopped by the end of a run has appended every nonempty output and every change of size, in order |
| `CastBytes.KilledFileOpens` | packages/cast/src/writer.ts:103-154 | the bytes of a recording cut anywhere after its header, inside a character too, open to a sorted prefix of the appended events |
| `Timeline.IndexAt` | packages/cast/src/timeline.ts:54-69 | the binary search returns the last event at or before t of a sorted list, or -1, and stays in bounds on any list |
| `Timeline.SlicesTile` | packages/cast/src/timeline.ts:76-92 | consecutive slices over any increasing cut points are the whole span, with no gap and no repeat |
| `Timeline.SizeAt` | packages/cast/src/timeline.ts:95-104 | the size at t is the fold of the resizes over what a seek to t replays |
| `Timeline.SquashingKeepsThePlace` | packages/cast/src/timeline.ts:114-131 | on a sorted cast order is kept, and seeking to an event's new time finds the place its old time did |
| `Timeline.SquashIdle` | packages/cast/src/timeline.ts:114-131 | with a positive limit every gap becomes the smaller of itself and the limit and nothing else changes; otherwise nothing changes |
| `GateRules.GateIsExact` | apps/relay/src/policy.ts:215-318 | the gate permits a message if and only if it meets the rules, written out beside the table: the share is active; a recordings share only pings, lists and fetches; what writes is not permitted read-only; the three operations on the machine itself need the full scope; file messages need the access they use; a named session, a recording's target and a pane or window id must be within reach |
| `GateRules.HiddenLooksMissing` | apps/relay/src/policy.ts:190-199 | a session out of a share's reach is answered exactly as one that does not exist |
| `GateRules.MeetIsExact` | apps/relay/src/grant.ts:97-178 | on time, writing, files, recordings and session ids the meet of two grants gives exactly what both give |
| `Grants.NarrowerPermitsNoMoreThanA` | apps/relay/src/grant.ts:119-171 | for all grants, messages and tmux answers, what the gate permits under `narrower(a, b)` it permits under a |
| `Grants.NarrowerPermitsNoMoreThanBIff` | apps/relay/src/grant.ts:119-171 | it never permits more than b if and only if kinds and names agree: not a sessions grant narrowed by a recordings grant, and a name fallback that cannot differ from b's |
| `Grants.RecordingsShareStaysConfined` | apps/relay/src/policy.ts:59-74 | a recordings grant, however it is narrowed further, permits nothing off the allow-list, nothing once ended, and no recording that any of the grants does not name |
| `OfferRedemption.OnlyItsSecretsRedeem` | apps/relay/src/pairing-local.ts:407-475 | over every run an offer is asked about, refused or paid for only if a redeem of it, while it was on show and had time left, carried a nonempty nonce with the digest of the one its own arming made, or typed digits with the digest of those it was given |
| `OfferRedemption.OpeningSpends` | apps/relay/src/pairing-local.ts:407-456 | such a redeem always takes the offer off show; any other leaves it there or costs it a guess, and the fifth guess burns it |
| `OfferRedemption.TypedCodeIsItsDigits` | apps/relay/src/pairing-local.ts:345-348 | separators anywhere in a typed code make no difference, plain digits stand for themselves, and anything else is no code |
| `LocalOffer.EveryOfferEndsOnce` | apps/relay/src/pairing-local.ts:363-456 | over every run, redeems overlapping open questions included, an offer ends at most once, issues a session exactly when it ended paired and then one, and absorbs at most five wrong codes |
| `SessionTokens.TokenAnswersIff` | apps/relay/src/pairing-local.ts:546-580 | over every history a token answers if and only if every gap between uses since its registration was below its window, its grant was active each time, and neither it nor its grant was ended; then with its own grant |
| `PromptVerdict.AnswerIsTheFirstDecision` | apps/cli/src/access-prompt.ts:231-323 | for every order of settlement the request is answered with the first answer that decides it, else with `no-tty` once both channels have had their last word, else not yet: told from the channels' own answers |
| `AccessPrompt.FirstDecisionWins` | apps/cli/src/access-prompt.ts:180-323 | for every order of settlement the request resolves at most once, with the first deciding answer, with `no-tty` exactly when both channels settled undecided, always by then; approved only if somebody said yes; nobody is asked anything after the abort |
| `Connections.RemovalCountsRightIff` | apps/relay/src/connection-manager.ts:181-223 | per-address counts that were exact stay exact through a finished removal if and only if it is the connection's first or nobody else from its address is listed |
| `Connections.NothingRoutedBeforeAdmission` | apps/relay/src/wire-connections.ts:159-320 | over every run no message of a connection is queued or routed unless the gate said yes to that connection |
| `Connections.NobodyIsAskedForNothing` | apps/relay/src/wire-connections.ts:159-240 | over every run, without a frame that carries a good credential nobody is asked about a connection and it is never admitted |
| `Connections.QueueIsFifo` | apps/relay/src/connection-manager.ts:106-139 | over every run the handlers that ran are a prefix of those queued, in order, one at a time, and all of them by the time the close event goes on to removal |
| `BrokerRuns.RunsKeepInv` | apps/api/src/broker.ts:179-1317 | so does every run, and the slot budget's parameters never move |
| `BrokerRuns.StartIsInvariant` | apps/api/src/broker.ts:179-345 | a new broker satisfies them |
| `BrokerRuns.EngageSpends` | apps/api/src/broker.ts:831-856 | one attach burns at most two mailboxes, all on its own slot and all for its claim |
| `BrokerRuns.StepFollows` | apps/api/src/mailbox.ts:147-294 | no step forgets a record, moves it to another slot, changes its age, or changes a claim it already has |
| `BrokerProofs.RoutesAreOneToOne` | apps/api/src/broker.ts:884-890 | two routes to one mailbox are one claim and one handle |
| `BrokerProofs.HolderRelays` | apps/api/src/broker.ts:695-773 | what a holder's frame does to the claim it reaches: that message and no other, and nothing at all when it names another handle |
| `BrokerProofs.ClaimOutlivesMailbox` | apps/api/src/mailbox.ts:239-266 | a claimed mailbox that is stored and unexpired never outlives the claim it was burned by |
| `BrokerProofs.SidIsTheClaimants` | apps/api/src/broker.ts:737-747 | a claim a holder can reach still has its payload, so the all-zero `sid` is never echoed |
| `BrokerProofs.SweepAllKeepsInv` | apps/api/src/broker.ts:1301-1317 | after `sweepAll` the payloads kept are exactly those of the claims stored |
| `BrokerProofs.MailboxMessageKeepsInv` | apps/api/src/broker.ts:695-773 | every frame of a mailbox holder keeps the invariants |
| `BrokerProofs.MailboxClosedKeepsInv` | apps/api/src/broker.ts:775-783 | a holder's disconnect keeps the invariants |
| `BrokerProofs.AttachMailboxKeepsInv` | apps/api/src/broker.ts:650-675 | attaching a holder keeps the invariants |
| `BrokerProofs.AttachClaimKeepsInv` | apps/api/src/broker.ts:791-874 | attaching a claim, charged, refused or fanned out, keeps the invariants |
| `BrokerProofs.FanOutKeepsInv` | apps/api/src/broker.ts:841-856 | the fan-out loop keeps the invariants |
| `BrokerProofs.ClaimMessageKeepsInv` | apps/api/src/broker.ts:893-965 | every frame of a claimant keeps the invariants |
| `BrokerProofs.BurnAllFacts` | apps/api/src/broker.ts:981-990 | walking a claim's handles burns exactly the mailboxes it owns under them |
| `Mailboxes.SharesConserved` | apps/api/src/mailbox.ts:271-286 | attaching a sink loses no buffered share and repeats none; a delivery adds at most the one delivered |
| `Mailboxes.RemoveKeepsInv` | apps/api/src/mailbox.ts:159-169 | forgetting mailboxes keeps the slot index exact, each slot's entry going with its last mailbox |
| `Mailboxes.AddBoxKeepsInv` | apps/api/src/mailbox.ts:171-201 | a mailbox admitted under the caps is indexed once, under its slot |
| `Mailboxes.CreateClaimKeepsInv` | apps/api/src/mailbox.ts:239-251 | a new claim keeps the store's invariant |
| `Mailboxes.RemoveTwice` | apps/api/src/mailbox.ts:159-169 | removing in two goes is removing once |
| `MailboxObjects.Flush` | apps/api/src/mailbox.ts:281-285 | the flush loop hands over every buffered message, in order, once |
| `RateLimit.TakeDecision` | apps/api/src/rate-limit.ts:48-55 | a take is granted exactly when a plain log of all accepted takes holds fewer than `limit` in the window |
| `RateLimit.RunsKeepInv` | apps/api/src/rate-limit.ts:30-62 | the pruned table and the full log agree throughout every run |
| `AccessRequests.StepKeepsInv` | apps/api/src/broker.ts:306-360 | request table and per-device table stay inverse through every step |
| `Exchange.CounterIsExactUnless` | apps/cli/src/pairing-exchange.ts:256-275 | a step keeps `outstanding` equal to the number of live attempts if and only if it does not rule out a peer that is not among them, because `ruleOut` does not check |
| `Exchange.DuplicateFailureLosesLivePeer` | apps/cli/src/pairing-exchange.ts:257-275 | the input that shows the condition is needed: one peer reported failed twice ends a run whose other peer is live |
| `Exchange.RefusalAfterFailureCountsTwice` | apps/cli/src/pairing-exchange.ts:355-370 | one confirm and one failure per peer are not enough: a failure while the gate is open, then a refusal, takes the peer off the counter twice |
| `Exchange.StepKeepsInv` | apps/cli/src/pairing-exchange.ts:234-433 | every callback and every continuation of an await keeps the run's invariant |
| `TunnelRuns.StepKeepsInv` | apps/cli/src/tunnel-agent.ts:403-626 | every step keeps the stream records and the id map in agreement and every stream's accounts exact, the keyring within its cap |
| `TunnelRevocation.WinningTrialBinds` | apps/cli/src/tunnel-agent.ts:460-480 | the bind in flight is not called back: it binds the stream to the removed device |
| `TunnelRevocation.RemovalDuringTrial` | apps/cli/src/tunnel-agent.ts:771-785 | a run from the start that gets there: a frame under the device's key is on trial when its keys are removed, and the stream ends up bound to it |
| `TunnelRevocation.RefusedWritesNothing` | apps/cli/src/tunnel-agent.ts:484-499 | a stream refused while its id names it has written and sent nothing and never will, even if its id is used again |
| `TunnelRevocation.ReusedIdDefeatsTheGate` | apps/cli/src/tunnel-agent.ts:403-410 | the other case: with its id reused while the gate is open, the refusal drops the newer stream and the refused one's next frame reaches loopback; the exact condition is `RefusalShutsIffStillNamed` |
| `TunnelRevocation.ReuseRun` | apps/cli/src/tunnel-agent.ts:403-410 | a run from the start that gets there, with two frames a browser sealed under an added key |
| `TunnelProofs.JobStartOk` | apps/cli/src/tunnel-agent.ts:536-582 | starting the next job of a stream's chain keeps its accounts, or asks for the stream to be dropped |
| `TunnelProofs.TrialOk` | apps/cli/src/tunnel-agent.ts:460-505 | a settled trial keeps them |
| `TunnelProofs.GateOk` | apps/cli/src/tunnel-agent.ts:484-499 | the gate's answer keeps them |
| `TunnelProofs.FlushNextOk` | apps/cli/src/tunnel-agent.ts:495-499 | flushing the lines held back keeps them, in order |
| `TunnelProofs.OpenSettledOk` | apps/cli/src/tunnel-agent.ts:507-514 | an opened or rejected frame keeps them |
| `TunnelProofs.SealSettledOk` | apps/cli/src/tunnel-agent.ts:425-439 | a sealed line sent or dropped keeps them |
| `Frames.OmissionGoesUnnoticed` | packages/crypto/src/frames.ts:247-251 | a frame held back by the forwarder is not missed, because counters need only increase |
| `Frames.CounterReadsBack` | packages/crypto/src/frames.ts:131-142 | the eight-byte counter reads back |
| `Bytes.Leb128` | packages/crypto/src/bytes.ts:15-28 | the loop writes the LEB128 of the value modulo 2^32 and refuses a negative one |
| `Bytes.LebReadsBack` | packages/crypto/src/bytes.ts:15-28 | decoding undoes encoding and leaves what follows |
| `Bytes.LebLength` | packages/crypto/src/bytes.ts:15-28 | at most five bytes |
| `Bytes.FieldsInvertLvCat` | packages/crypto/src/bytes.ts:31-42 | a transcript cuts back into exactly its fields |
| `Bytes.ConstantTimeEqual` | packages/crypto/src/bytes.ts:48-53 | true exactly for equal strings, without an early exit over equal lengths |
| `Bytes.BytesToBase64Url` | packages/crypto/src/bytes.ts:59-73 | the encoder's loop spells the bytes six bits at a time |
| `Bytes.PourIsOctets` | packages/crypto/src/bytes.ts:78-91 | from a byte boundary the wrapped accumulator's output does not depend on what it held |
| `JsonProofs.PrintIsOneLine` | packages/cast/src/format.ts:80-93 | a printed value holds no line break |
| `JsonProofs.ValueStable` | packages/cast/src/format.ts:133-141 | a complete value reads the same whatever follows it, unless it is a number at the very end |
| `CastFormat.CutHeaderIsRefused` | packages/cast/src/format.ts:107-124 | a cut inside the header is refused, as empty or as not JSON |
| `CastFormat.InteriorDamageIsSkipped` | packages/cast/src/format.ts:129-154 | a malformed line before the last is skipped and never reported as truncation |
| `CastFormat.RoundingIsClose` | packages/cast/src/format.ts:74-78 | rounding moves a time by at most half a microsecond and is idempotent |
| `CastFormat.RoundingIsMonotone` | packages/cast/src/format.ts:76-78 | rounding keeps order |
| `CastFormat.ParseCastLoop` | packages/cast/src/format.ts:107-157 | the one-pass parser collects exactly the events and flag of the line-by-line definition |
| `CastFormat.SizeRoundTrips` | packages/cast/src/format.ts:166-175 | `parseSize` undoes `encodeSize` |
| `Utf8.AnyByteCutReads` | apps/web/src/lib/cast-fetch.ts:100-111 | what a `TextDecoder` makes of a byte prefix of well-formed UTF-8: a prefix of the text, and one replacement character when the cut falls inside a character that is not ASCII |
| `Utf8.DecodeInvertsEncode` | apps/web/src/lib/cast-fetch.ts:100-111 | text without a surrogate alone reads back from its UTF-8, whatever bytes follow |
| `CastBytes.PrintIsPaired` | packages/cast/src/format.ts:80-86 | whatever its strings hold, printed JSON has no surrogate alone, so its UTF-8 loses nothing |
| `CastBytes.BytesAreCounted` | packages/cast/src/writer.ts:110-115 | the writer's byte count is the length of what the stream writes |
| `CastWriter.KilledRecordingOpens` | packages/cast/src/writer.ts:103-154 | the same for a cut between code units of the text |
| `CastWriter.WriterHeaderIsGood` | packages/cast/src/writer.ts:74-84 | the header a writer puts first, with any idle limit, is one the parser takes back, with its size and title, and no environment but the terminal |
| `CastWriter.StoppedStaysStopped` | packages/cast/src/writer.ts:126-154 | once stopped nothing is appended and the first reason stays |
| `Timeline.SliceUpTo` | packages/cast/src/timeline.ts:72-74 | what a seek replays: the events at or before t |
| `Timeline.SliceBetween` | packages/cast/src/timeline.ts:85-92 | on any list a stretch of it ending no later than `to`, nothing when `to` is not after `from`; on a sorted one exactly the slice between the two times |
| `Timeline.BetweenHolds` | packages/cast/src/timeline.ts:76-92 | such a slice holds the events in (from, to] and no others |
| `Timeline.PlayingEqualsSeeking` | packages/cast/src/timeline.ts:72-138 | playing slice after slice writes what one seek writes |
| `Timeline.CompileCast` | packages/cast/src/timeline.ts:33-46 | each offset is the length of the text before its event, and the text before it is that long a prefix of the whole |
| `Timeline.ConcatText` | packages/cast/src/timeline.ts:134-138 | the output events' data, in order |
| `Timeline.SquashingIsIdempotent` | packages/cast/src/timeline.ts:114-131 | squashing twice is squashing once |
| `TunnelRegistry.LateChargeSparesSuccessorIff` | apps/api/src/tunnel.ts:246-253 | so does a charge that takes a detached tunnel over quota |
| `TunnelRegistry.LateCloseDropsSuccessor` | apps/api/src/broker.ts:1103-1109 | a run from the start that shows it: an agent reconnects, its first socket's close arrives, and the new tunnel, with time left, is gone |
| `TunnelRegistry.LateChargeDropsSuccessor` | apps/api/src/tunnel.ts:246-253 | the same run, and a charge on the first tunnel that takes it over quota drops the new one, which has carried nothing |
| `TunnelRegistry.RevocationSparesSuccessor` | apps/api/src/tunnel.ts:158-160 | the other side: revoked in between, the device's new tunnel survives both |
| `TunnelRegistry.ApplyKeepsInv` | apps/api/src/tunnel.ts:133-268 | every registry operation keeps the invariant |
| `Grants.NarrowingNeverWidens` | apps/relay/src/grant.ts:119-171 | narrowing a grant any number of times, by anything, gets it no message it had not |
| `Grants.RecordingsGrantIsConfined` | apps/relay/src/policy.ts:59-74 | on its own it permits exactly the allow-list while active, and no session |
| `Grants.EnforceIsMonotone` | apps/relay/src/policy.ts:215-318 | the gate permits no more under a grant that is below another on every axis it reads; what it permits under one is `GateRules.GateIsExact` |
| `Grants.SessionsBelowA` | apps/relay/src/grant.ts:41-65 | the sessions a meet allows are allowed by a, ids and name fallback alike |
| `Grants.SessionsBelowB` | apps/relay/src/grant.ts:41-65 | and by b when the names agree |
| `Grants.RecordingsBelowBoth` | apps/relay/src/grant.ts:97-102 | the recordings a meet allows are allowed by both |
| `Grants.NamesDisagree` | apps/relay/src/grant.ts:57-64 | otherwise there are a name and a server the meet lets in and b does not |
| `LocalOffer.MatchSpendsBeforeAsking` | apps/relay/src/pairing-local.ts:435-441 | a match takes the offer down before anyone is asked, so nothing redeems it again while the question is open |
| `LocalOffer.FifthGuessBurns` | apps/relay/src/pairing-local.ts:418-433 | the fifth wrong code burns the offer and no earlier one does |
| `LocalOffer.WrongNonceIsFree` | apps/relay/src/pairing-local.ts:419-432 | a nonce that is not the offer's, with no typed code, costs the offer nothing; which nonces are is `OfferRedemption.OpeningSpends` |
| `SessionTokens.DeadStaysDead` | apps/relay/src/pairing-local.ts:546-608 | once dead a token stays dead until it is registered again |
| `Connections.CapsHold` | apps/relay/src/wire-connections.ts:117-130 | over every run without such a miscount the counts are exact and neither an address nor the relay exceeds its cap |
| `Connections.HangingUpRemovesTwice` | apps/relay/src/connection-manager.ts:411-421 | the input that shows it: hanging up on an idle connection from the machine, then its close event, is two removals, and with another connection from its address a wrong count |
| `Connections.TwoConnectionsMiscount` | apps/relay/src/connection-manager.ts:411-421 | a run from the start that gets there: two connections from one address, one hung up on |
| `AccessPrompt.StepKeepsInv` | apps/cli/src/access-prompt.ts:231-323 | every settlement keeps the race's invariant |
| `BrokerDelivery.MailIsHeard` | apps/api/src/mailbox.ts:271-286 | a message is handed over, buffered, or lost when sixteen wait; a sink that attaches is handed what was buffered, in order, once |
| `BrokerDelivery.DialRefused` | apps/api/src/broker.ts:795-829 | a dial of a claim that is gone, taken or over budget spends nothing, and each is answered in its own way |
| `BrokerDelivery.FanOutOffers` | apps/api/src/broker.ts:841-856 | every listed mailbox is offered under the handle in its place, and nothing else changes |
| `BrokerDelivery.LiveIsWaiting` | apps/api/src/mailbox.ts:213-228 | the live mailboxes of a slot are exactly those stored on it, unexpired and unclaimed |
| `BrokerDelivery.ClaimIsMade` | apps/api/src/broker.ts:511-520 | a new claim is open for fifteen seconds, with its payload beside it |
| `BrokerDelivery.HolderWithoutRoute` | apps/api/src/broker.ts:722-733 | without a route a holder is told its peer is gone, and its close still takes the mailbox |
| `BrokerDelivery.HolderGoes` | apps/api/src/broker.ts:775-783 | a holder that goes before its last word takes its mailbox with it; after it the mailbox only loses its sink |
| `BrokerDelivery.HolderArrives` | apps/api/src/broker.ts:650-675 | a holder gets what was buffered, then the ready message; an expired mailbox and a second holder are refused |
| `BrokerDelivery.ClaimantWithoutPeer` | apps/api/src/broker.ts:924-932 | a frame for a handle the claim owns nothing under tells the claimant its peer is gone |
| `ExchangeEarned.TagDecides` | apps/cli/src/pairing-exchange.ts:340-370 | a good tag is noted and awaits the gate or the seal; a bad one is answered with a close and costs the peer its attempt |
| `ExchangeEarned.GateDecides` | apps/cli/src/pairing-exchange.ts:355-370 | a yes goes on to the seal, a no closes the peer, and neither matters once the run is settled |
| `ExchangeEarned.SealPairs` | apps/cli/src/pairing-exchange.ts:372-385 | a sealed descriptor goes out and settles the run on that peer's keys and name |
| `ExchangeEarned.ShareBecomesAttempt` | apps/cli/src/pairing-exchange.ts:297-338 | a usable share from a new peer becomes an attempt, disarms the grace timer, and is answered by the mailbox side only |
| `ExchangeEarned.ShareRefused` | apps/cli/src/pairing-exchange.ts:297-325 | a share over the cap ends the run, an unusable one is closed, and one from a peer being tried is ignored |
| `ExchangeEarned.EndingsEnd` | apps/cli/src/pairing-exchange.ts:386-438 | each of the broker's failure, a lost socket, the timers, an abort and a failed seal ends an open run, as itself |
| `ExchangeEarned.FailureRulesOut` | apps/cli/src/pairing-exchange.ts:257-275 | a live peer's failure drops its attempt; with nobody left the run ends at the cap and otherwise waits a moment |
| `TunnelBinding.FirstEntryIsTried` | apps/cli/src/tunnel-agent.ts:447-463 | a first frame that decodes puts the first entry on trial |
| `TunnelBinding.NextEntryIsTried` | apps/cli/src/tunnel-agent.ts:460-472 | an entry that does not open it hands over to the next |
| `TunnelBinding.LastEntryFails` | apps/cli/src/tunnel-agent.ts:461-505 | when the last does not either the stream is dropped and the browser told why |
| `TunnelBinding.GateAnswers` | apps/cli/src/tunnel-agent.ts:484-500 | a yes writes the line that waited and starts flushing what was held; a no or a throw ends the stream |
| `TunnelBinding.OpenedFrameIsWritten` | apps/cli/src/tunnel-agent.ts:507-514 | a later frame that opens is written, one that does not ends the stream |
| `TunnelBinding.LineIsSealedOrHeld` | apps/cli/src/tunnel-agent.ts:425-432 | a relay line is sealed under the next counter once there is a key, and held until then |
| `TunnelBinding.SealedLineIsSent` | apps/cli/src/tunnel-agent.ts:432-439 | a sealed line is sent unless the stream closed meanwhile, and the next held one is sealed |
| `TunnelBinding.ArrivalsJoinTheChain` | apps/cli/src/tunnel-agent.ts:576-583 | a frame joins the chain of the live stream its id names |
| `TunnelBinding.ClosesClose` | apps/cli/src/tunnel-agent.ts:403-410 | a browser's close, a relay's close and a teardown close the streams they are about |
| `TunnelBinding.RemovalTouchesOnlyTheDevice` | apps/cli/src/tunnel-agent.ts:771-785 | removing a device's keys closes its live streams as revoked, drops its entries and touches nothing else |
| `TunnelBinding.NewestKeysStay` | apps/cli/src/tunnel-agent.ts:767-770 | the keyring keeps the newest sixty-four entries |
| `GateRules.TableIsTheRules` | apps/relay/src/policy.ts:67-177 | column by column the policy table is these sets of message types |
| `GateRules.FirstRefusal` | apps/relay/src/policy.ts:230-250 | which refusal comes first: an ended share, a message not for recordings, a read-only share, a share too small |
| `OfferRedemption.AnswerDecides` | apps/relay/src/pairing-local.ts:439-455 | a yes pays the offer it was asked about, a no refuses it |
| `OfferRedemption.ArmingShows` | apps/relay/src/pairing-local.ts:363-379 | digits go on show in place of whatever was there; anything else changes nothing |
| `OfferRedemption.OnlyTimeEndsIt` | apps/relay/src/pairing-local.ts:624-632 | disarming takes the offer off show; asking whether one is live is answered by its time alone |
| `PromptVerdict.ApprovedOnlyByAYes` | apps/cli/src/access-prompt.ts:231-323 | so it is approved only if somebody said yes |
| `PromptVerdict.ChainGoesOn` | apps/cli/src/access-prompt.ts:303-322 | the prompt comes after an offer nobody took, parking after a prompt that could not ask, and neither once the race was stopped |
| `AccessRequestEvents.AskingOpens` | apps/api/src/broker.ts:544-587 | a request opens exactly when the machine is online and has none with time left |
| `AccessRequestEvents.DeadRequestsAreDeaf` | apps/api/src/broker.ts:326-334 | a message about a request that is gone or has run out does nothing but forget it |
| `AccessRequestEvents.FirstSocketAttaches` | apps/api/src/broker.ts:1117-1142 | the first socket of a live request attaches, a second is refused |
| `AccessRequestEvents.FirstCommitIsForwarded` | apps/api/src/broker.ts:1160-1192 | the first commitment goes to the machine, a later one does not, and with the machine gone the request ends |
| `AccessRequestEvents.RevealFollowsCommit` | apps/api/src/broker.ts:1160-1197 | a reveal goes to the machine after the commitment, never before |
| `AccessRequestEvents.OnlyItsMachineIsHeard` | apps/api/src/broker.ts:1082-1097 | any other machine's reply changes nothing; a decision ends the request |
| `TunnelRegistryLaws.ClosingEnds` | apps/api/src/tunnel.ts:133-161 | closing ends the tunnel its id names, tells every browser it carried why, and moves the epoch only when it was revoked |
| `TunnelRegistryLaws.RegisteringServes` | apps/api/src/tunnel.ts:164-187 | a registering agent gets a new empty tunnel under its device's id, and the one it had is ended |
| `TunnelRegistryLaws.LookingUpAnswers` | apps/api/src/tunnel.ts:189-197 | an id answers with its tunnel exactly while that has time left |
| `TunnelRegistryLaws.OpeningCarries` | apps/api/src/tunnel.ts:206-229 | a stream opens exactly when the tunnel is not blocked and has room |
| `TunnelRegistryLaws.ClosingAndAttaching` | apps/api/src/tunnel.ts:231-244 | a stream that is there closes once, its browser told; a browser takes over only a stream that is there |
| `Connections.FrameDecides` | apps/relay/src/wire-connections.ts:159-320 | one frame: dropped while the question is open or when unusable, queued once admitted, and otherwise a good credential raises the question and a bad one closes the socket |
| `Connections.GateDecides` | apps/relay/src/wire-connections.ts:215-242 | a yes admits a socket that is still open, and nothing else does |
| `Connections.AcceptDecides` | apps/relay/src/wire-connections.ts:117-130 | a connection is taken exactly when both counts are below their caps, and then listed and counted |
| `CastWriter.StopsExactlyAtItsLimits` | packages/cast/src/writer.ts:117-154 | it stops for its limits exactly when an event has brought it to one, keeping that event, and otherwise only when told to |
| `TunnelDelivery.FrameJobStarts` | apps/cli/src/tunnel-agent.ts:447-460 | a frame that is not base64url ends the stream, one on a bound stream goes on to be opened |
| `TunnelDelivery.OpeningHandsOver` | apps/cli/src/tunnel-agent.ts:531-534 | loopback opening hands over what was held, in order |
| `TunnelDelivery.StreamsStartEmpty` | apps/cli/src/tunnel-agent.ts:517-531 | a new stream is live under its id and nothing has crossed it |
| `OfferRedemption.RedeemerHears` | apps/relay/src/pairing-local.ts:407-456 | a redeemer hears a session for a day, or waits for the machine, exactly when it opened the offer, and otherwise the same `invalid` whether its secret was wrong, late or spent |
| `OfferRedemption.WaiterHears` | apps/relay/src/pairing-local.ts:439-456 | after the machine's answer it hears a session or a refusal |
| `SessionTokens.OnlyTheDeadAreForgotten` | apps/relay/src/pairing-local.ts:503-608 | registering forgets exactly the tokens that have run out, ending a grant exactly its tokens, ending a token exactly that one |
| `AccessRequestEvents.GoingForgets` | apps/api/src/broker.ts:1200-1205 | a browser that goes takes its request with it, and nothing else |
| `TunnelRegistryLaws.ChargingAnswers` | apps/api/src/tunnel.ts:206-253 | a charge is answered yes exactly while the tunnel stays within its quota; a blocked tunnel opens no stream |
| `Connections.ClosingIsFinal` | apps/relay/src/wire-connections.ts:322-350 | closing is final whoever closes; the operator's is a removal at once, the browser's once its queue has drained |
| `RateLimit.NoWaitIffGranted` | apps/api/src/rate-limit.ts:48-62 | with a positive limit the wait is zero exactly when a take would be granted |
| `RateLimit.IdleKeysAreEvicted` | apps/api/src/rate-limit.ts:38-55 | once ten minutes have passed or fifty thousand keys are held a take keeps no other key whose hits have all left the window, and otherwise forgets none |
| `Bytes.AlphabetIsUrlSafe` | packages/crypto/src/bytes.ts:55-73 | the alphabet is the URL-safe one, in order, and a character's index reads it back |
| `Bytes.GroupsKeepTheirValue` | packages/crypto/src/bytes.ts:59-73 | four characters spell the number their three bytes do, most significant first |
| `Bytes.LowBitsComeFirst` | packages/crypto/src/bytes.ts:15-28 | the low seven bits come first, and a set high bit says that more follow |
| `Frames.CountersAreBigEndian` | packages/crypto/src/frames.ts:131-142 | the counter is eight bytes, its lowest last |
| `CastFormat.ALineInFull` | packages/cast/src/format.ts:74-86 | one event's line in full, character by character |
| `MailboxObjects.MailboxStore.RemoveMailbox` | apps/api/src/mailbox.ts:159-169 | forgets the mailbox and its index entry, and nothing else: the store changes exactly as module Mailboxes says |
| `MailboxObjects.MailboxStore.CreateMailbox` | apps/api/src/mailbox.ts:171-201 | purges the slot, then admits the mailbox exactly when both caps allow: the store changes exactly as module Mailboxes says |
| `MailboxObjects.MailboxStore.PurgeSlot` | apps/api/src/mailbox.ts:171-201 | drops the slot's lapsed mailboxes and counts those left: the store changes exactly as module Mailboxes says |
| `MailboxObjects.MailboxStore.GetMailbox` | apps/api/src/mailbox.ts:203-211 | answers whether the mailbox is live, dropping a lapsed one: the store changes exactly as module Mailboxes says |
| `MailboxObjects.MailboxStore.LiveMailboxesForSlot` | apps/api/src/mailbox.ts:213-228 | returns the slot's live unclaimed mailboxes in order, dropping the lapsed: the store changes exactly as module Mailboxes says |
| `MailboxObjects.MailboxStore.ClaimMailbox` | apps/api/src/mailbox.ts:230-237 | the compare-and-set: wins exactly when nobody had claimed it: the store changes exactly as module Mailboxes says |
| `MailboxObjects.MailboxStore.CreateClaim` | apps/api/src/mailbox.ts:239-251 | stores the claim with the short attach deadline: the store changes exactly as module Mailboxes says |
| `MailboxObjects.MailboxStore.GetClaim` | apps/api/src/mailbox.ts:253-261 | answers whether the claim is live, dropping a lapsed one: the store changes exactly as module Mailboxes says |
| `MailboxObjects.MailboxStore.ExtendClaim` | apps/api/src/mailbox.ts:263-265 | moves the deadline to the full time to live: the store changes exactly as module Mailboxes says |
| `MailboxObjects.MailboxStore.DestroyClaim` | apps/api/src/mailbox.ts:267-269 | forgets the claim: the store changes exactly as module Mailboxes says |
| `MailboxObjects.MailboxStore.DeliverToMailbox` | apps/api/src/mailbox.ts:271-279 | hands a message to the sink, or buffers it up to the cap: the store changes exactly as module Mailboxes says |
| `MailboxObjects.MailboxStore.DeliverToClaim` | apps/api/src/mailbox.ts:271-279 | the same for a claim: the store changes exactly as module Mailboxes says |
| `MailboxObjects.MailboxStore.AttachToMailbox` | apps/api/src/mailbox.ts:281-285 | sets the sink and flushes the buffer in order: the store changes exactly as module Mailboxes says |
| `MailboxObjects.MailboxStore.AttachToClaim` | apps/api/src/mailbox.ts:281-285 | the same for a claim: the store changes exactly as module Mailboxes says |
| `MailboxObjects.MailboxStore.Sweep` | apps/api/src/mailbox.ts:287-294 | drops every lapsed mailbox and claim: the store changes exactly as module Mailboxes says |
| `BrokerObjects.Broker.OpenClaim` | apps/api/src/broker.ts:511-520 | stores claim and payload together: proved to make exactly the change of module BrokerState's function, about which the results above are stated |
| `BrokerObjects.Broker.AttachMailboxSocket` | apps/api/src/broker.ts:650-675 | attaches, or closes an unknown or taken mailbox: proved to make exactly the change of module BrokerState's function, about which the results above are stated |
| `BrokerObjects.Broker.ClaimForMailbox` | apps/api/src/broker.ts:687-692 | the claim a mailbox was burned by, if both still agree: proved to make exactly the change of module BrokerState's function, about which the results above are stated |
| `BrokerObjects.Broker.OwnedMailboxOf` | apps/api/src/broker.ts:884-890 | the mailbox a claim owns under a handle, if both still agree: proved to make exactly the change of module BrokerState's function, about which the results above are stated |
| `BrokerObjects.Broker.ChargeGuess` | apps/api/src/broker.ts:813-829 | charges the slot budget, then the global one; a refusal by the second has spent the first: proved to make exactly the change of module BrokerState's function, about which the results above are stated |
| `BrokerObjects.Broker.FanOutClaim` | apps/api/src/broker.ts:841-856 | offers each live mailbox under a new handle, as `BrokerDelivery.FanOutOffers` says of the function: proved to make exactly the change of module BrokerState's function, about which the results above are stated |
| `BrokerObjects.Broker.AttachClaimSocket` | apps/api/src/broker.ts:791-874 | charges, attaches, extends, fans out, or refuses and destroys, as `BrokerDelivery.DialReachesEveryWaiting` and `DialRefused` say: proved to make exactly the change of module BrokerState's function, about which the results above are stated |
| `BrokerObjects.Broker.SweepClaimPayloads` | apps/api/src/broker.ts:1301-1306 | drops the payloads whose claim is gone: proved to make exactly the change of module BrokerState's function, about which the results above are stated |
| `BrokerObjects.Broker.SweepEverything` | apps/api/src/broker.ts:1312-1317 | sweeps store, then payloads: proved to make exactly the change of module BrokerState's function, about which the results above are stated |
| `BrokerObjects.MailboxSocket.Message` | apps/api/src/broker.ts:695-773 | one frame from a holder: proved to make exactly the change of module BrokerState's function, about which the results above are stated |
| `BrokerObjects.MailboxSocket.Forward` | apps/api/src/broker.ts:722-772 | a frame other than a close, refused unless it names the mailbox's handle: proved to make exactly the change of module BrokerState's function, about which the results above are stated |
| `BrokerObjects.MailboxSocket.Abandon` | apps/api/src/broker.ts:703-719 | tells the claim, if reachable, and gives the mailbox up: proved to make exactly the change of module BrokerState's function, about which the results above are stated |
| `BrokerObjects.MailboxSocket.Close` | apps/api/src/broker.ts:775-783 | a disconnect before the last word burns the mailbox; after it only the sink goes: proved to make exactly the change of module BrokerState's function, about which the results above are stated |
| `BrokerObjects.ClaimSocket.Message` | apps/api/src/broker.ts:893-965 | one frame from a claimant: proved to make exactly the change of module BrokerState's function, about which the results above are stated |
| `BrokerObjects.ClaimSocket.GiveUp` | apps/api/src/broker.ts:901-922 | a close: one peer burned, or the whole claim dropped: proved to make exactly the change of module BrokerState's function, about which the results above are stated |
| `BrokerObjects.ClaimSocket.Pass` | apps/api/src/broker.ts:924-964 | a frame for the mailbox owned under the handle it names, or word that it is gone: proved to make exactly the change of module BrokerState's function, about which the results above are stated |
| `BrokerObjects.ClaimSocket.Burn` | apps/api/src/broker.ts:901-916 | burns one owned mailbox and tells its holder: proved to make exactly the change of module BrokerState's function, about which the results above are stated |
| `BrokerObjects.ClaimSocket.Conclude` | apps/api/src/broker.ts:954-964 | passes the last message on and retires mailbox and handle: proved to make exactly the change of module BrokerState's function, about which the results above are stated |
| `BrokerObjects.ClaimSocket.Close` | apps/api/src/broker.ts:967-993 | burns everything still owned and drops the claim: proved to make exactly the change of module BrokerState's function, about which the results above are stated |
| `RateLimit.RateLimiter.PruneKey` | apps/api/src/rate-limit.ts:30-36 | drops the hits that left the window, and the key with its last, in place, as the limiter's function says |
| `RateLimit.RateLimiter.SweepIdle` | apps/api/src/rate-limit.ts:38-46 | evicts idle keys when due, in place, as the limiter's function says |
| `RateLimit.RateLimiter.TakeUnit` | apps/api/src/rate-limit.ts:48-55 | one take, in place, as the limiter's function says |
| `RateLimit.RateLimiter.RetryAfterMs` | apps/api/src/rate-limit.ts:57-62 | the wait, in place, as the limiter's function says |
| `RateLimit.RateLimiter.Reset` | apps/api/src/rate-limit.ts:64-66 | forgets everything, in place, as the limiter's function says |
| `AccessRequests.RequestDesk.Drop` | apps/api/src/broker.ts:336-344 | drops a request and its device entry, in place, as the module's function says |
| `AccessRequests.RequestDesk.Live` | apps/api/src/broker.ts:326-334 | the request unless it has run out, in place, as the module's function says |
| `AccessRequests.RequestDesk.Ask` | apps/api/src/broker.ts:544-587 | refuses an offline or busy machine, in place, as the module's function says |
| `AccessRequests.RequestDesk.AttachSocket` | apps/api/src/broker.ts:1117-1142 | one listener per request, which first gets what was buffered, in place, as the module's function says |
| `AccessRequests.RequestDesk.OnCommit` | apps/api/src/broker.ts:1145-1192 | forwards the first commitment only, in place, as the module's function says |
| `AccessRequests.RequestDesk.OnReveal` | apps/api/src/broker.ts:1194-1197 | passes a reveal on after the commitment only, in place, as the module's function says |
| `AccessRequests.RequestDesk.OnReply` | apps/api/src/broker.ts:1082-1097 | sends or buffers the addressed machine's reply and ends the request on a decision, in place, as the module's function says |
| `ExchangeObjects.Run.FinishWith` | apps/cli/src/pairing-exchange.ts:242-250 | settles once: exactly the step of module Exchange |
| `ExchangeObjects.Run.RuleOutPeer` | apps/cli/src/pairing-exchange.ts:257-275 | drops the attempt, counts down, fails or arms the grace timer: exactly the step of module Exchange |
| `ExchangeObjects.Run.GiveUp` | apps/cli/src/pairing-exchange.ts:284-287 | tells the broker, then rules out: exactly the step of module Exchange |
| `ExchangeObjects.Run.OnPeerShare` | apps/cli/src/pairing-exchange.ts:297-338 | derives and answers a peer's share: exactly the step of module Exchange |
| `ExchangeObjects.Run.OnPeerConfirm` | apps/cli/src/pairing-exchange.ts:340-370 | checks a tag and waits for gate or seal, as `ExchangeEarned.TagDecides` says: exactly the step of module Exchange |
| `ExchangeObjects.Run.OnAdmitSettled` | apps/cli/src/pairing-exchange.ts:355-370 | the gate's answer: exactly the step of module Exchange |
| `ExchangeObjects.Run.OnSealSettled` | apps/cli/src/pairing-exchange.ts:372-394 | the sealed descriptor goes out, or the run fails: exactly the step of module Exchange |
| `ExchangeObjects.Run.Fire` | apps/cli/src/pairing-exchange.ts:397-438 | one callback is one step of the machine, so every run of the object is one of the runs above: exactly the step of module Exchange |
| `TunnelObjects.StreamObject.Write` | apps/cli/src/tunnel-agent.ts:419-422 | to the socket, or to the hold buffer: exactly the stream function of module TunnelAgent |
| `TunnelObjects.StreamObject.LocalOpened` | apps/cli/src/tunnel-agent.ts:531-534 | sends what was held, in order: exactly the stream function of module TunnelAgent |
| `TunnelObjects.StreamObject.LocalSaid` | apps/cli/src/tunnel-agent.ts:536-540 | queues a seal: exactly the stream function of module TunnelAgent |
| `TunnelObjects.StreamObject.FrameArrived` | apps/cli/src/tunnel-agent.ts:576-582 | queues an open: exactly the stream function of module TunnelAgent |
| `TunnelObjects.StreamObject.RunNext` | apps/cli/src/tunnel-agent.ts:447-475 | the next job up to its await: exactly the stream function of module TunnelAgent |
| `TunnelObjects.StreamObject.Try` | apps/cli/src/tunnel-agent.ts:460-463 | the head of the trial loop: exactly the stream function of module TunnelAgent |
| `TunnelObjects.StreamObject.TrialSettled` | apps/cli/src/tunnel-agent.ts:460-493 | bind, or try the next key, as `TunnelBinding.NextEntryIsTried` and `FirstFittingEntryBinds` say: exactly the stream function of module TunnelAgent |
| `TunnelObjects.StreamObject.Admit` | apps/cli/src/tunnel-agent.ts:493-499 | lets the stream through: exactly the stream function of module TunnelAgent |
| `TunnelObjects.StreamObject.Flush` | apps/cli/src/tunnel-agent.ts:495-499 | seals the next held line: exactly the stream function of module TunnelAgent |
| `TunnelObjects.StreamObject.GateSettled` | apps/cli/src/tunnel-agent.ts:484-491 | yes, no or a throw: exactly the stream function of module TunnelAgent |
| `TunnelObjects.StreamObject.OpenSettled` | apps/cli/src/tunnel-agent.ts:507-514 | writes the line or drops the stream: exactly the stream function of module TunnelAgent |
| `TunnelObjects.StreamObject.SealSettled` | apps/cli/src/tunnel-agent.ts:432-438 | sends the frame unless closed: exactly the stream function of module TunnelAgent |
| `TunnelObjects.AgentObject.Drop` | apps/cli/src/tunnel-agent.ts:403-410 | closes whichever stream the id names now, once |
| `TunnelObjects.AgentObject.AddSessionKeys` | apps/cli/src/tunnel-agent.ts:767-770 | appends, evicting the oldest beyond the cap |
| `TunnelObjects.AgentObject.RemoveFromKeyring` | apps/cli/src/tunnel-agent.ts:771-777 | the backwards splicing loop leaves exactly the other devices' entries, in order, and counts the rest |
| `TunnelObjects.AgentObject.RemoveSessionKeys` | apps/cli/src/tunnel-agent.ts:771-785 | keyring and live streams both lose the device |
| `CastWriter.CastWriterObject.WriteData` | packages/cast/src/writer.ts:127-135 | appends output, then checks the limits, in place, as the writer's function says |
| `CastWriter.CastWriterObject.ResizeWindow` | packages/cast/src/writer.ts:137-144 | appends a size only when it changed, in place, as the writer's function says |
| `CastWriter.CastWriterObject.StopFor` | packages/cast/src/writer.ts:146-154 | idempotent; returns the first reason, in place, as the writer's function says |
| `CastWriter.CastWriterObject.AppendEvent` | packages/cast/src/writer.ts:110-115 | writes one line and counts it, in place, as the writer's function says |
| `TunnelRegistryObjects.RegistryObject.Close` | apps/api/src/tunnel.ts:133-161 | tells every browser and the agent, forgets the tunnel, bumps the epoch on revocation: exactly the registry function |
| `TunnelRegistryObjects.RegistryObject.RegisterAgent` | apps/api/src/tunnel.ts:164-187 | replaces the device's tunnel: exactly the registry function |
| `TunnelRegistryObjects.RegistryObject.Lookup` | apps/api/src/tunnel.ts:189-197 | drops a tunnel that has run out: exactly the registry function |
| `TunnelRegistryObjects.RegistryObject.Open` | apps/api/src/tunnel.ts:206-229 | refuses a blocked or full tunnel: exactly the registry function |
| `TunnelRegistryObjects.RegistryObject.Attach` | apps/api/src/tunnel.ts:231-236 | replaces a stream's browser: exactly the registry function |
| `TunnelRegistryObjects.RegistryObject.CloseOne` | apps/api/src/tunnel.ts:238-244 | ends one stream: exactly the registry function |
| `TunnelRegistryObjects.RegistryObject.ChargeBytes` | apps/api/src/tunnel.ts:246-253 | counts, and drops over quota: exactly the registry function |
| `TunnelRegistryObjects.RegistryObject.SweepExpired` | apps/api/src/tunnel.ts:255-258 | drops what has run out: exactly the registry function |
| `LocalOffer.OfferObject.ArmPairing` | apps/relay/src/pairing-local.ts:363-379 | replaces the offer, refusing a code that is not digits, in place, as the module's function says |
| `LocalOffer.OfferObject.RedeemPairing` | apps/relay/src/pairing-local.ts:407-456 | up to the question, as `OfferRedemption.OpeningSpends` says, in place, as the module's function says |
| `LocalOffer.OfferObject.Answered` | apps/relay/src/pairing-local.ts:442-455 | issues or refuses, in place, as the module's function says |
| `LocalOffer.OfferObject.GateAnswered` | apps/relay/src/pairing-local.ts:439-455 | the machine's answer, in place, as the module's function says |
| `LocalOffer.OfferObject.Disarm` | apps/relay/src/pairing-local.ts:624-626 | takes the offer down unspent, in place, as the module's function says |
| `LocalOffer.OfferObject.HasLiveOffer` | apps/relay/src/pairing-local.ts:629-632 | drops an expired offer, in place, as the module's function says |
| `SessionTokens.TokenStore.PruneExpired` | apps/relay/src/pairing-local.ts:503-511 | drops exactly the expired entries |
| `SessionTokens.TokenStore.RegisterToken` | apps/relay/src/pairing-local.ts:503-521 | prunes and stores |
| `SessionTokens.TokenStore.LookupToken` | apps/relay/src/pairing-local.ts:546-580 | answers and renews, or drops |
| `SessionTokens.TokenStore.EndGrant` | apps/relay/src/pairing-local.ts:590-600 | drops and names every token of the grant |
| `SessionTokens.TokenStore.EndToken` | apps/relay/src/pairing-local.ts:602-608 | drops one token |
| `Connections.Relay.OnConnection` | apps/relay/src/wire-connections.ts:117-130 | caps, then one more connection listed and counted, in place |
| `Connections.Relay.RemoveConnection` | apps/relay/src/connection-manager.ts:214-221 | counts down without asking whether another removal already has, in place |
| `Connections.Relay.Fire` | apps/relay/src/wire-connections.ts:161-350 | one callback is one step of the machine, so every run of the object is a run of it, in place |
| `AccessPrompt.Race.Resolve` | apps/cli/src/access-prompt.ts:240-244 | settles once: exactly the race's function |
| `AccessPrompt.Race.Pass` | apps/cli/src/access-prompt.ts:246-253 | answers with what was held once both have passed: exactly the race's function |
| `AccessPrompt.Race.OnInApp` | apps/cli/src/access-prompt.ts:255-259 | the in-app answer: exactly the race's function |
| `AccessPrompt.Race.OnLocal` | apps/cli/src/access-prompt.ts:261-271 | the chain's result or throw: exactly the race's function |
| `AccessPrompt.Race.OnOffer` | apps/cli/src/access-prompt.ts:303-312 | the first question of the chain: exactly the race's function |
| `AccessPrompt.Race.OnPrompt` | apps/cli/src/access-prompt.ts:312-319 | the second: exactly the race's function |
| `AccessPrompt.Race.OnPark` | apps/cli/src/access-prompt.ts:319-322 | the third: exactly the race's function |

## Left out

- BrokerObjects.Broker.OpenClaim: models `pairClaim` from a parsed body on; the version floor, the upgrade and POST limiters and the schema checks before it are not part of this model
- BrokerRuns.NextKeepsInv: each broker handler reads the clock once, where the source reads it again for every lookup; `sweepAll` reads it twice here too
- BrokerObjects: mailbox and claim records are held by value and handlers hold their ids, so aliasing of one record by two handlers is modelled by the store both share
- BrokerProofs.ClosedClaimOwnsNothing: about a claim whose socket attached; a claim that never attached owns nothing to begin with
- MailboxObjects.MailboxStore.Sweep: `Map` iteration order is left open, since no result depends on it
- Exchange.NothingBeforeItsProof: `derive`, the tag check and `seal` are parameters; CPace and HMAC are not modelled
- Frames.OpeningUndoesSealing: AES-GCM and the subkey derivation are functions with the assumptions named above; salts are inputs
- TunnelRuns.ExactFifo: one broker connection; reconnecting, back-off, keepalive and the `tunnel:challenge` handshake are left out, and a stop, a close and `tunnel:closed` are one teardown event
- TunnelRuns.StepKeepsInv: assumes a new stream's id is not that of a live stream, which `TunnelRevocation.ReusedIdDefeatsTheGate` shows to be needed
- TunnelBinding.FirstFittingEntryBinds: while no key is added or removed; the source reads the keyring live, so a change in the middle of the trials moves the entries under the loop, which `TunnelAgent` models and `TunnelRevocation.OneKnownEntryBinds` covers
- TunnelBinding.NoMatchOnlyIfNoneFits: assumes, besides, that no other stream is given the id, since a drop goes by id
- TunnelObjects.AgentObject: stream records are held by value in the agent's table; StreamObject is the record that callbacks update
- TunnelRegistry.OneTerminalMessage: sinks do not throw; the guard around the agent's sink is the only one in the source, and a browser sink that threw would stop the walk
- TunnelRegistry: resolving an account, metering and settlement are left out except for their one effect here, a tunnel that refuses new streams
- AccessRequests.RepliesConserved: whether a machine is online is an input, decided by the tunnel registry; a reveal is passed on without looking at the request id it names, as in the source
- Bytes.Leb128: a value that is not an integer is outside the model's types
- Bytes.ConstantTimeEqual: timing is not modelled
- JsonProofs.ParseInvertsPrint: numbers are exact decimals, so a double's rounding and the exponent form of very large and very small numbers are not modelled; duplicate and integer-like keys keep their written order
- CastFormat.WholeFileRoundTrips: times below 10^21 seconds, where `toFixed` writes plain digits; arithmetic is exact
- CastWriter.FileHoldsWhatWasAppended: the file is the text handed to the stream; flushing, exclusive create and file modes are left out
- CastWriter.WriterHeaderIsGood: an idle limit that is not finite is not a JSON number and is outside the model's types
- Utf8.AnyByteCutReads: a byte order mark, which `TextDecoder` drops, cannot open a cast and is not modelled
- Timeline: times are real numbers, so floating-point drift in `squashIdle` is not modelled
- Grants.NarrowerPermitsNoMoreThanA: tmux's answers do not change within one call of the gate; message fields that are not strings are absent fields
- LocalOffer.EveryOfferEndsOnce: listeners and the device id minted for the question are left out; the hash is a parameter
- SessionTokens.TokenAnswersIff: labels, use listeners and revocation events are left out; a token is known by its digest
- AccessPrompt.FirstDecisionWins: rendering, the readline prompt and timers are inputs
- apps/cli/src/approve-control.ts and apps/relay/src/device-approval.ts: the channels behind the race appear only as its inputs
- apps/relay/src/auth-throttle.ts and apps/relay/src/rate-limiter.ts: counters with a closed form, easier than what is proved of the sliding window
- apps/api/src/entitlements.ts: rows in an SQL database
- Connections.NothingRoutedBeforeAdmission: whether a frame is within the rate, well formed and carries a good credential is an input; what a routed message does, broadcasts, heartbeat, access log and revocation's closes are left out, as is a gate that throws
- Connections.Relay: connections are held by value; the terminal, watcher and upload clean-up inside a removal is the time between its start and its end
- apps/relay/src/message-router.ts and apps/relay/src/recordings-index.ts: file reads and directory sweeps
- apps/cli/src/live-view.ts: terminal drawing
