# ARFL: the money path and the tunnel, verified

ARFL sells bandwidth for Lightning sats. A client pays a hub for ecash, hands
proofs to two nodes, and the nodes redeem them at the hub and are paid out
later. This project models that path in Dafny, from the mint's database to the
client's network teardown, and proves what it promises for all inputs and all
runs.

- **Mint.** `Ecash`, `EcashStore` and `Mint` are the vocabulary, the database
  statements and one hub process. `Handlers` adds the endpoints. `MintProtocol`
  interleaves the same steps across any number of processes with crashes and
  failing statements; `MintSafety` and `MintRuns` prove that its invariant, which
  bounds redeemed sats by received ones, holds exactly as long as each step meets
  the two conditions of `MintSafety.Sound`. The code checks neither.
  `MintDeviation` shows what the unconditional mark-paid write costs, with a full
  run that redeems one settled sat as two. `MintRecovery` says exactly when a paid
  quote can still be signed for. `MintCaps` puts the caps on a request
  against the mint's keys: without late mark-paid writes, redemptions stay within
  receipts if and only if 64 times the largest denomination is below 2^64.
  `MintBooks` follows every accepted proof into redemptions and swaps.
  Signatures are ideal: a proof verifies only if its keyset, amount and secret
  were signed.
- **Wallet.** `Denominations` is the greedy selection on plain amounts,
  `Holdings` the lists of proofs, `ProofStore` the vault, `Wallet` reserving with
  change from the mint, and `SwapAtHub` what a reservation costs by the hub's spent
  table.
- **Paying nodes.** `Verdicts` follows the hub's verdict through node and client;
  `HopAtHub` follows a batch from the client to the hub's spent table and back;
  `TokenSender` waits for replies; `Connect` is the connect and top-up procedure;
  `TokenReceiver` is the node's side with its reply cache, and `RelayPayment` joins
  the two ends; `Peers` is what a node grants, and `PeerRuns` what holds over any
  sequence of grants, removals and reaper rounds; `Selector` picks the pair.
- **Tunnel.** `Routing` is longest-prefix matching, `Endpoints` resolves addresses,
  `Host` is the machine behind operations that may fail, `Tunnel` is bring-up,
  roll-back, teardown and retry.
- **Payouts.** `Settlement` aggregates usage, `SettlementPeriods` says what one
  period sees and what several pay together, `Payouts` is the budgeted payout
  loop and its retry, `PayoutProtocol` interleaves settlement and retry processes
  step by step, `PayoutDeliveries` says how often a payout can still be paid, and
  `PayoutBudget` what the budget check is worth with several settlements at once.
- **Small cores.** `Nip44` with `Base64`, `UsageReport`, `RateLimit`.

A class stands for an object whose methods update it; its methods are proved
against functions, and the theorems are lemmas about those functions. Whatever
may fail does so freely: the machine and the payout table count the operations
that failed, the vault is told which of its writes work, and the hub's database
has a `faulty` constant, so that its contracts that start with `!faulty ==>` say
what a sound database adds.

Where the code falls short of its documentation the model keeps the code:

- A status poll that read UNPAID may write PAID after the quote was issued
  (`MintDeviation.StaleMarkPaidIssuesTwice`), against the single issuance that
  `internal/ecash/mint.go` describes.
- A claim whose signing failed goes back to PAID only if the statement that
  releases it works; if it fails, or the process dies between claim and
  signatures, the paid quote stays ISSUED with nothing signed for it
  (`MintRecovery.PaidAndLost`). When a quote can still be signed for is exact
  (`MintRecovery.CanIssueExact`).
- Totals of outputs are compared as wrapping 64-bit sums. With a key of 2^58 or
  more, 64 outputs of 2^58 total zero, fit a quote of one sat, and one settled sat
  is redeemed as 2^58 (`MintCaps.SharesAreRedeemed`); a keyset whose largest
  denomination is at most 2^57 is safe (`MintCaps.OverRedeemsExact`).
- A reservation that needs change drops the proofs offered when the mint answers
  409, although a single spent one among them is enough for that answer, and drops
  the payment when the change cannot be written (`Wallets.LosesExact`,
  `Wallets.OneProofLost`). A selection that was burned without a usable answer comes
  back to the balance, worthless (`SwapAtHub.SpendableExact`,
  `SwapAtHub.BalanceTellsExact`).
- A batch with one spent and one unspent proof is given up whole, and a batch of
  spent proofs that was rate-limited comes back (`HopAtHub.PayHop`).
- A process that dies between inserting a payout and marking it leaves it
  pending for ever (`PayoutDeliveries.StrandedPending`), against invariant 10
  of `.notes/economic-invariants.md`.
- A payment error that is not a timeout is taken as "not paid" and retried
  (`PayoutDeliveries.UntruthfulDeclinePaysTwice`); when that can happen is exact
  (`PayoutDeliveries.DeliverableExact` and `TwiceExact`).
- Retried payouts are sent without the budget check (`Payouts.RetryOverspends`),
  and two settlements at once each stay within the budget as they see it and
  overspend together (`PayoutBudget.TwoSettlementsOverspend`), against invariant 2
  of the same notes.
- Usage reports are cumulative but periods are not, so a session across a boundary
  is paid its earlier part twice (`SettlementPeriods.OverpaidExact`), and any number
  of sessions may report one ticket and are each paid for it
  (`SettlementPeriods.SharedTicketPaidForEach`), against invariants 2 and 5; which
  tickets an invoice can bear is exact (`SettlementPeriods.InvoiceBoundExact`).
- A peer whose quota failed and that could not be removed keeps an address that
  is free again, and the next peer is given the same one
  (`PeerRuns.TwoPeersOneAddress`, `PeerRuns.SharingExact`).
- A closed window of the rate limiter can hold twice the limit
  (`RateLimit.ClosedWindowDoubles`).

## Model

| member | source | states |
|---|---|---|
| MintCaps.RedeemedNeverExceedsPaid | internal/ecash/mint.go:382-483 | In every reachable state of every interleaving of mint, swap and redeem requests over several hub processes, with crashes and failing statements anywhere, sats redeemed never exceed sats of settled invoices, as long as PAID is not written over ISSUED and 64 times the largest denomination is below 2^64 |
| MintCaps.OverRedeemsExact | internal/discovery/cashu_api.go:22-31 | Without a late mark-paid write, some run redeems more than was received if and only if 64 outputs of the largest denomination reach 2^64 |
| MintCaps.SharesAreRedeemed | internal/ecash/mint.go:436-441 | A complete run from the empty hub in which one settled sat is redeemed as 2^58, because the 64-bit total of 64 outputs wraps to zero |
| MintCaps.CappedRunsAreSound | internal/discovery/cashu_api.go:301-308 | Every step of a run meets the condition on totals when 64 times the largest denomination is below 2^64 |
| MintRuns.RunExact | internal/ecash/mint.go:382-483 | A run keeps the mint's invariant in every state if and only if each of its steps is sound |
| MintSafety.StepExact | internal/discovery/cashu_api.go:263-324 | One step keeps the invariant if and only if it does not write PAID over ISSUED and does not sign a total that wraps around uint64 more often than what pays for it |
| MintSafety.InvBoundsRedeemed | internal/discovery/cashu_api.go:520-544 | Accepted proofs inject into signatures and grants into settled payments, so the invariant bounds redemptions by receipts |
| MintBooks.RedeemedExact | internal/discovery/cashu_api.go:520-544 | Over every run, sound or not, every sat of every accepted proof was reported redeemed or went into a swap, exactly once, if and only if no redeemed batch was worth 2^64 or more; otherwise less was reported |
| MintRuns.OneClaimEver | internal/ecash/mint.go:443-482 | In every state of a sound run a quote has at most one claim not handed back, at most one claim that ever signed, and it signed no more than was paid |
| MintRuns.SaveIsAtomic | internal/store/ecash_repository.go:135-162 | However the checks of a batch interleaved with other processes, recording it is one all-or-nothing test-and-insert on the table of that moment; two proofs of one point are refused although they differ |
| MintRuns.RejectIsAtomic | internal/ecash/mint.go:294-370 | A proof turned away by a check would have failed the atomic test, and nothing is marked |
| MintRuns.EachPointSpentOnce | internal/store/ecash_repository.go:135-162 | Over every run, sound or not, no point is accepted twice and the spent table is exactly the log of accepted proofs |
| MintSafety.ReleaseFrees | internal/ecash/mint.go:464-482 | Handing a claim back succeeds, leaves the quote PAID and no claim on it |
| MintDeviation.FailedSigningIsRetried | internal/ecash/mint.go:443-482 | After a failed signing whose release statement works, the quote is PAID with no claim on it, and the next request can claim it and is signed for |
| MintRecovery.CanIssueExact | internal/ecash/mint.go:443-482 | In any state of the invariant a quote has been or can still be signed for if and only if it was, or it is UNPAID or PAID, or a job owns its claim, or, over EXPIRED or in unsound runs, a mark-paid write on it is under way |
| MintRecovery.LostClaimIsStuck | internal/ecash/mint.go:464-482 | When the job owning an unsigned claim dies or its release fails, which come to the same state, the paid quote is ISSUED and no sound continuation signs for it |
| MintRecovery.PaidAndLost | internal/ecash/mint.go:464-482 | A complete run from the empty hub in which a sat is paid, neither signing nor release works, and no continuation at all signs for it |
| MintDeviation.StaleMarkPaidIssuesTwice | internal/discovery/cashu_api.go:263-271 | Whenever the unconditional mark-paid write lands on ISSUED, the run can go on to a second live claim on the quote, signed in full |
| MintDeviation.RedeemedCanExceedPaid | internal/store/ecash_repository.go:96-108 | A complete run from the empty hub in which one settled sat is redeemed as two |
| EcashStores.EcashStore.SaveSpentProofs | internal/store/ecash_repository.go:135-169 | Every row is inserted or none, and it succeeds only if no row collides with the table or another row |
| EcashStores.EcashStore.TransitionMintQuoteState | internal/store/ecash_repository.go:115-126 | An atomic compare-and-set of a quote's state |
| EcashStores.EcashStore.UpdateMintQuoteState | internal/store/ecash_repository.go:96-108 | An unconditional overwrite of a quote's state |
| Mints.Mint.SignBlindedMessages | internal/ecash/mint.go:257-290 | Signs every output or none, reporting the first output that cannot be signed and why |
| Mints.Mint.VerifyProofs | internal/ecash/mint.go:294-370 | Success means no duplicates, every proof genuine and unspent; each error names a real cause |
| Mints.Mint.VerifyAndMarkSpent | internal/ecash/mint.go:382-395 | Exactly the atomic all-or-nothing test-and-insert; a rejected batch marks nothing |
| Mints.Mint.Swap | internal/ecash/mint.go:399-416 | Signs outputs exactly when totals match, inputs are acceptable and outputs signable; inputs are burned before signing |
| Mints.Mint.MintTokens | internal/ecash/mint.go:420-483 | Issues exactly for a PAID quote the outputs fit, claims it, and otherwise leaves it as it was and reports why |
| Mints.Mint.CheckProofsState | internal/ecash/mint.go:486-519 | One true verdict per point, in request order |
| Handlers.DiscoveryAPI.HandleGetMintQuote | internal/discovery/cashu_api.go:236-277 | On a sound database an unlimited request with a good id is answered with the quote if and only if it is stored; it is shown, and stored, as PAID if it was PAID or was UNPAID with its invoice settled, and otherwise as it was |
| Handlers.DiscoveryAPI.HandleMintTokens | internal/discovery/cashu_api.go:280-352 | Issues exactly when the invoice was paid, the outputs fit and can be signed; any other answer has exactly the status of the first reason against it, and leaves the quote unpaid or paid, never issued |
| Handlers.DiscoveryAPI.HandleRedeem | internal/discovery/cashu_api.go:483-556 | The verdict is "burned" if and only if the proofs were recorded as spent; the sats are their total and a sat buys a megabyte |
| Handlers.SatsBuyMegabytes | internal/discovery/cashu_api.go:539-544 | The signed 64-bit product of the reply equals the sats times a million below the stated bound |
| Handlers.DiscoveryAPI.HandleSwap | internal/discovery/cashu_api.go:357-422 | On genuine inputs: burned if and only if the totals match and none was spent, 409 if and only if they match and one was, signed if and only if burned and every output can be signed |
| Denominations.ChosenExactIff | internal/wallet/store.go:216-260 | For power-of-two denominations the selection is worth exactly the amount if and only if some part of the holdings is |
| Denominations.ChosenCovers | internal/wallet/store.go:216-260 | For any denominations, whenever the holdings cover the amount the selection covers it; it is greedy, plus, when greedy falls short, one proof that closes the gap and than which no other that would is smaller |
| Denominations.GapCloses | internal/wallet/store.go:238-260 | Every proof greedy skipped exceeds the final remainder, so "cannot assemble" is unreachable once the balance suffices |
| Denominations.GreedyReaches | internal/wallet/store.go:224-235 | On a divisibility chain greedy reaches an amount if and only if something does |
| Denominations.FallingFalls | internal/wallet/store.go:216-222 | The order visited lists every position once, by falling amount |
| Holdings.PutBack | internal/wallet/store.go:164-191 | Putting taken proofs back restores the same proofs, secrets and balance |
| Holdings.MergeKeeps | internal/wallet/store.go:164-191 | Adding never drops a proof, never doubles a secret and adds every new one |
| ProofStores.EncryptedProofStore.Add | internal/wallet/store.go:164-194 | Appends exactly the proofs whose secret is not held; a failed write is reported and the proofs stay in memory |
| ProofStores.EncryptedProofStore.Take | internal/wallet/store.go:198-281 | Succeeds exactly when the balance covers the amount and the write works, splits the holdings into the selection and the rest, and leaves them unchanged otherwise |
| ProofStores.EncryptedProofStore.Select | internal/wallet/store.go:215-260 | The greedy loop with its fallback computes the specified selection, and finds one exactly when the balance suffices |
| Wallets.Wallet.UnblindSignatures | internal/wallet/wallet.go:80-130 | Succeeds exactly when every signature matches the denomination asked for and a known key |
| Wallets.MintedIsSigned | internal/wallet/wallet.go:80-130 | Each proof made carries the amount asked for and signed, the keyset, the secret and the signature of its own output |
| Wallets.SplitAddsUp | internal/wallet/wallet.go:340-341 | The denominations asked for are powers of two that add up to the amount |
| Wallets.Wallet.SwapForChange | internal/wallet/wallet.go:325-363 | An exchange that succeeds yields disjoint payment and change worth exactly the amount and the rest |
| Wallets.Wallet.Reserve | internal/wallet/wallet.go:280-321 | Comes to exactly the specified reservation, whatever the mint answers and whichever writes fail: on success the exact amount leaves the balance, on failure the same proofs are held except for a stated loss |
| Wallets.ReservingAccounts | internal/wallet/wallet.go:280-321 | Every reservation hands out exactly the amount with nothing of it staying behind, or lowers the balance by exactly what it lost and otherwise restores the same proofs |
| Wallets.LosesExact | internal/wallet/wallet.go:291-318 | A reservation lowers the balance without handing anything out if and only if the balance covers the amount, the selection is taken but not exact, and the mint answers 409 or the change it made cannot be written |
| SwapAtHub.SwapHop | internal/discovery/cashu_api.go:395-416 | One swap seen from both ends, with an answer that may be lost: what the hub burned and what the client is told of it |
| SwapAtHub.MadeIsGenuine | internal/wallet/wallet.go:340-363 | Whenever the hub signs what the client asked for, the client finds the signatures right, and every proof made of them is one the hub accepts as its own |
| SwapAtHub.SpendableExact | internal/wallet/wallet.go:280-321 | By the hub's spent table, what could be spent before a reservation can be spent after it, held or handed out, except for exactly its cost: a selection burned without a usable answer, what was still unspent of one given up on a 409, or a payment whose change could not be written |
| SwapAtHub.BalanceTellsExact | internal/wallet/wallet.go:296-311 | The balance falls by that cost if and only if the exchange went through, or the selection was neither burned nor answered 409 |
| Wallets.OneProofLost | internal/wallet/wallet.go:301-304 | A wallet of one proof larger than the amount loses all of it to a 409 |
| Wallets.Wallet.Release | internal/wallet/wallet.go:368-373 | Merges unspent proofs back into the holdings |
| Verdicts.DeliveredVerdictExact | internal/client/cashu_connector.go:68-82 | When verdict and reply arrive, the client gives proofs up if and only if the hub's verdict was burned or already spent, for every verdict, delivery mode and node outcome |
| HopAtHub.PayHop | internal/discovery/cashu_api.go:483-556 | For a batch of genuine proofs whose answers arrive: given up if and only if the hub looked at it, recorded only if none of it was spent, and the client's view equals the spent table if and only if the hub looked and none or all was spent before, or did not look and not all was |
| Verdicts.BurnedButReturned | internal/node/hub_redeemer.go:100-145 | Burned proofs go back to the wallet in exactly two situations: the hub's answer was lost and the node said so, or the node's answer was lost over HTTP |
| Verdicts.SilenceIsSpent | internal/app/service.go:1237-1244 | A missing reply keeps proofs given up over NIP-44 and returns them over HTTP |
| Verdicts.PoolMessageTold | internal/control/peers.go:47-49 | A full address pool is recognised from its message whatever follows it, and the hub's own 503 is not mistaken for it |
| TokenSenders.TokenSender.ConnectWithProofs | internal/client/token_sender.go:155-278 | The first readable reply of the node to this request decides; without one, published proofs are never reported unspent |
| Connects.Service.Connect | internal/app/service.go:646-850 | At every exit, for all answers and failing writes, the balance fell by exactly the price of the hops given up plus what reserving lost, other payments are back, and a hop whose answers were heard is given up exactly when the hub's verdict was that it is spent; each node is asked, and the call succeeds, exactly under the stated conditions, and the session then holds the address each node granted and the sats the balance fell |
| Connects.Service.Extend | internal/app/service.go:893-964 | The same accounting for a top-up, which succeeds exactly when both nodes admit it again and the session, as it is by then, is still there under the addresses they grant; otherwise both accepted payments stay spent |
| Connects.ConnectThenExtend | internal/app/service.go:783-964 | A top-up right after a connect, once reserved and accepted, succeeds if and only if each node grants the address it granted before; the session then counts exactly what both calls took from the balance |
| Connects.ConnectedExact | internal/client/cashu_connector.go:147-233 | The client is connected exactly to a node whose hub burned the proofs, that let it in, and whose answers arrived, and then under the address granted |
| Connects.Service.PayBoth | internal/app/service.go:747-817 | Succeeds exactly when both nodes accept and the outer hop comes up; the exit is asked only after the entry accepted |
| Connects.Service.ReserveBoth | internal/app/service.go:737-752 | Two exact payments with disjoint secrets exactly when both reservations succeed; otherwise the first is back and the balance fell by exactly what was lost |
| Connects.LostReservingExact | internal/app/service.go:737-752 | The two reservations lose sats if and only if the first does, or it succeeds and the second does; then no payment is made |
| Connects.ReservedBoth | internal/wallet/wallet.go:280-321 | Two successive reservations hand out disjoint payments, given fresh swap secrets |
| Connects.GivingBackSettles | internal/app/service.go:1217-1235 | Returning what was not given up settles the books |
| Connects.HeardExactly | internal/app/service.go:1237-1244 | For an intact exchange the client's guess equals the hub's verdict |
| Connects.Service.Disconnect | internal/app/service.go:854-878 | The session is cleared whether or not the tunnel came down, and success is reported exactly when the machine is restored, that is when nothing failed |
| TokenReceivers.TokenReceiver.HandleEvent | internal/node/token_receiver.go:109-200 | A remembered request is answered from memory and never redeemed; any other complete one is redeemed once, answered with what the hub or the peer's callback said, and remembered |
| RelayPayments.Deliver | internal/node/token_receiver.go:109-200 | A payment over relays from end to end: for a first complete request whose verdict reached the node, the client gives the proofs up if and only if they are burned or were spent before, and a peer let in is connected under the address granted; an incomplete request costs nothing, a repeated one is read as before |
| TokenReceivers.TokenReceiver.Cache | internal/node/token_receiver.go:218-238 | At most 1024 replies are kept and only a reply no newer than any other gives way |
| TokenReceivers.TokenReceiver.ExpireReplies | internal/node/token_receiver.go:240-246 | Exactly the replies older than the lifetime go |
| TokenReceivers.HandleAll | internal/node/token_receiver.go:109-246 | Over any sequence of events in time order: every request gets the reply of work on it that has not expired, and one is worked on or redeemed again only when its reply expired or 1024 other requests were worked on at that time or later |
| TokenReceivers.RedeemedAtMostOnce | internal/node/token_receiver.go:109-246 | So within one lifetime and the size of the cache no request is redeemed twice, however often it is repeated |
| TokenReceivers.KeyInjective | internal/node/token_receiver.go:202-204 | Two requests share a cache key only if they are the same |
| Peers.TunnelIPPool.Allocate | internal/control/api.go:337-357 | A peer keeps its address, a new one gets the lowest free one of .2 to .254, and allocation fails only when 253 others hold them all |
| Peers.TunnelIPPool.ReleasePubkey | internal/control/api.go:376-388 | Frees exactly the address the peer held |
| Peers.Server.GrantPeer | internal/control/peers.go:39-72 | Comes to exactly the specified books for every combination of failing calls, with the time of the grant; a peer let in is left without an address if and only if its quota failed and it could not be taken out again |
| Peers.QuotaFailedExact | internal/control/peers.go:62-69 | A peer whose quota failed holds nothing any more and is in the tunnel exactly if it could not be taken out; nothing else on the books changes |
| Peers.Server.HandleRemovePeer | internal/control/api.go:115-133 | Removes a peer with everything it held, or changes nothing |
| Peers.RemovedExact | internal/control/api.go:115-133 | A removal that works takes the peer, its address and its quota off the books and nothing of anyone else's |
| Peers.Server.ReapIdle | internal/control/peers.go:105-143 | Takes out exactly the doomed entries with their peers, quotas and times; every other entry keeps its holder and its time |
| Peers.AddressesAreOwn | internal/control/peers.go:39-72 | Two granted peers share an address only if one of them was left without one |
| PeerRuns.Serve | internal/control/peers.go:39-143 | Any sequence of grants, top-ups, removals and reaper rounds, with any failures, is a run of the specified steps from sound books to sound books |
| PeerRuns.AddressesStayApart | internal/control/peers.go:39-72 | In every state of every run two granted peers have different addresses, each with a quota, unless the roll-back of a grant to one of them failed |
| PeerRuns.StrayExact | internal/control/peers.go:62-69 | A call leaves a peer without an address if and only if its roll-back failed in it, or it was so before and was neither granted nor removed |
| PeerRuns.KeepsAddress | internal/control/api.go:337-357 | A peer that stays granted keeps its address through every sequence of calls |
| PeerRuns.ReapedExact | internal/control/peers.go:105-143 | A round takes out a granted peer if and only if statistics were read, it holds an address, can be removed, and was neither granted nor heard of within the idle limit |
| PeerRuns.RecentIsSpared | internal/control/peers.go:105-143 | Over every sequence of calls no peer granted, topped up or heard of within the idle limit is reaped |
| PeerRuns.SharingExact | internal/control/peers.go:62-69 | From any sound books, calls whose roll-backs all work can come to two granted peers on one address if and only if some peer is left without one now |
| PeerRuns.TwoPeersOneAddress | internal/control/peers.go:62-69 | A run in which a failed roll-back leaves two granted peers on one address |
| Selector.PairIndependentNodes | internal/client/selector.go:194-206 | Operators coincide only if no independent pair exists on any allowed preferred transport; no pair is reported only when none exists |
| Selector.PairWithPolicy | internal/client/selector.go:246-269 | The pair is one that qualifies on the first preferred allowed transport that has any |
| Selector.CollectCandidates | internal/client/selector.go:286-304 | The candidates are exactly the qualifying pairs |
| Selector.ProjectNode | internal/client/selector.go:329-388 | A node is offered with the endpoint of its first usable capability for the transport |
| Selector.ProjectedExact | internal/client/selector.go:329-388 | A node is offered exactly with the endpoint and URL of its first capability for the transport that has an endpoint, or over WireGuard with its own if it lists none |
| Selector.NoneOverlooked | internal/client/selector.go:194-269 | No pair is reported, or two nodes of one operator are selected, only if no two suitable nodes, or none of different operators, can both be reached over a preferred permitted transport |
| Selector.SelectedIsSound | internal/client/selector.go:194-206 | A selected pair has distinct keys, each node in a role it offers, an allowed preferred transport, endpoints and, when needed, connect URLs |
| Selector.RestrictToPinned | internal/app/service.go:538-559 | Narrows the list to the pinned two in one role each, or says which of the two faults stands in the way |
| Selector.SelectPair | internal/app/service.go:506-533 | A pinned or planned pair is selected if and only if both nodes are listed in their roles as two nodes and some permitted preferred transport carries both, on the first such transport; nothing else is |
| Endpoints.HostsOf | internal/tunnel/tunnel.go:838-880 | The distinct IPv4 addresses of an endpoint, refused exactly when there is none or one is not routable |
| Endpoints.ResolveOuterRouteIPs | internal/tunnel/tunnel.go:447-490 | Addresses reached directly and through the outer hop are disjoint and without repeats; refused exactly when a host would serve both hops |
| Endpoints.ListedExactly | internal/tunnel/tunnel.go:447-490 | On the lists are exactly the IPv4 addresses the endpoints name, the pinned ones with the exit's, and all of them can be routed to |
| Tunnels.OneRouteEach | internal/tunnel/tunnel.go:525-543 | No destination of a full session is routed twice |
| Tunnels.Tunnel.UpOuterLocked | internal/tunnel/tunnel.go:327-381 | Brings up the outer hop with the stated routes or leaves nothing but a recorded cleanup |
| Tunnels.Tunnel.BringUpOuter | internal/tunnel/tunnel.go:492-543 | Whatever step fails, the recorded changes are the changes present |
| Tunnels.Tunnel.UpInnerLocked | internal/tunnel/tunnel.go:383-419 | Adds the inner hop to an active session, or ends the session |
| Tunnels.Tunnel.BringUpInner | internal/tunnel/tunnel.go:574-622 | Both half routes and DNS, in the record and on the machine; DNS only after everything else |
| Tunnels.Tunnel.SessionRoutes | internal/tunnel/tunnel.go:525-612 | In every state a session is active in, longest-prefix lookup sends the entry's addresses to the real gateway, the exit's and the pinned ones into the outer interface and, once the inner hop is up, every other IPv4 address into the inner interface; the only exceptions are, exactly, addresses for which the machine has a route of its own that is as long |
| Tunnels.Tunnel.Teardown | internal/tunnel/tunnel.go:658-701 | Attempts every undo in order past any failure; what remains recorded is what remains present and never more than before; it succeeds if and only if nothing failed during it, whatever failed earlier |
| Tunnels.AttemptsExact | internal/tunnel/tunnel.go:658-701 | One attempt for every change on record and no other: DNS, IPv6, routes, and after all routes the interfaces, each kind from the end of its record |
| Tunnels.PrivateExact | internal/tunnel/tunnel.go:795-816 | Tunnel addresses are accepted in exactly the three private blocks |
| Tunnels.Tunnel.DeleteRoutes | internal/tunnel/tunnel.go:679-688 | Routes are undone from the end of the record, so newest first in a first teardown, and the ones that would not go stay recorded in the order they were tried, so that a retry goes oldest first |
| Tunnels.Tunnel.DisconnectLocked | internal/tunnel/tunnel.go:638-652 | Ends the session or retries its cleanup; it succeeds exactly when the machine is as it was, and exactly when nothing failed during it |
| Tunnels.Tunnel.Preflight | internal/tunnel/tunnel.go:243-282 | Succeeds exactly with privileges, without a session and without a failure; success means a full block went in and came off again, failure leaves a recorded cleanup |
| Tunnels.Tunnel.Down | internal/tunnel/tunnel.go:625-636 | Forgets the session's keys; success means the original network state and is reached exactly when nothing failed during the call |
| Tunnels.Lifetime | internal/tunnel/tunnel.go:243-701 | Over every sequence of calls with any failures the record equals the changes present, an active session has IPv6 blocked, session and cleanup never coexist, and the final teardown restores everything if and only if nothing failed during it |
| Settlement.SettlementEngine.Aggregate | internal/payments/settlement.go:84-156 | Each node's tally is exactly the sum of its session shares, over exactly the sessions with a valid ticket chain |
| Settlement.ValueExact | internal/payments/settlement.go:84-126 | A session is worth something exactly on a redeemed ticket of a settled invoice that allows bytes; the least of both reports and the ticket is billed, its price is the greatest number of sats not above the exact rate, and the pool the greatest not above that less the margin |
| Settlement.SharesExact | internal/payments/settlement.go:124-150 | Two nodes share a pool without loss, the exit's half being the larger by at most one sat |
| Settlement.OwedExact | internal/payments/settlement.go:128-156 | A session that is paid for adds both byte counts, what is billed, the share and one ticket for each side a node was; any other adds nothing |
| Settlement.NothingLostOrMade | internal/payments/settlement.go:124-156 | What all nodes are owed together equals what all sessions are worth together |
| Settlement.OrderIrrelevant | internal/payments/settlement.go:84-156 | The order sessions are read in changes no tally |
| Settlement.InvoiceBoundsPools | internal/payments/settlement.go:113-126 | For distinct tickets of one invoice within its allowance, the pools total at most the price less the hub's margin, despite rounding per session |
| SettlementPeriods.SummaryExact | internal/store/repository.go:546-603 | A session has a summary exactly when both sides reported consistently within the period, with the largest bytes of each side |
| SettlementPeriods.SeenInOnePeriod | internal/store/repository.go:546-603 | A session reported within one period is invisible to every other |
| SettlementPeriods.OverpaidExact | internal/payments/settlement.go:84-126 | In sats, for cumulative reports: when both sides report in the later of two consecutive periods it pays what one period over both would, and the earlier payment comes on top; a session that one period would settle is overpaid if and only if both sides reported in the later one and the earlier one paid anything |
| SettlementPeriods.BoundaryPaidTwice | internal/payments/settlement.go:84-126 | A session that used up its ticket and reports once more after the boundary is paid its full price in both periods |
| SettlementPeriods.InvoiceBoundsAllPeriods | internal/payments/settlement.go:84-126 | Over any number of consecutive periods an invoice's pools stay within its price less the margin when no session is billed in two of them and no ticket serves two sessions |
| SettlementPeriods.InvoiceBoundExact | internal/payments/settlement.go:84-126 | Whatever is reported of sessions with given tickets, an invoice's pools over all periods stay within a limit if and only if the pools at full use of every session's ticket, once for each period, do |
| SettlementPeriods.SharedTicketPaidForEach | internal/payments/api.go:262-298 | Any number of sessions that report one used-up ticket are each paid what the whole invoice yields |
| PayoutProtocol.OnePayoutThreeCalls | internal/payments/settlement.go:182-308 | In every run of settlement and retry processes with crashes anywhere: one entry per period and node, one payout per entry, at most three payment calls |
| PayoutProtocol.CallsFollowFailures | internal/payments/settlement.go:261-308 | A payment call happens only on a row marked in flight whose earlier calls were all recorded as failed |
| PayoutProtocol.CanStillChangeExact | internal/store/repository.go:341-429 | A payout can still change if and only if a process works on it or it failed with attempts left; so one left in flight is never resent |
| PayoutDeliveries.StrandedPending | internal/payments/settlement.go:233-246 | A run in which a process dies after the insert, and the payout stays pending through every continuation |
| PayoutProtocol.PaidIsFinal | internal/store/repository.go:376-392 | Nothing about a paid payout ever changes |
| PayoutDeliveries.DeliverableExact | internal/payments/settlement.go:182-308 | From any state of the books a payout can come to reach its node k times if and only if the times it did and the calls it has left add up to k |
| PayoutDeliveries.TwiceExact | internal/payments/settlement.go:261-308 | Even if no delivered payment is reported as declined from now on, a payout can reach its node twice if and only if it already did, or it did once and has a call left: failed with attempts left, about to be recorded so, or being retried |
| PayoutDeliveries.PaidAtMostOnce | internal/payments/settlement.go:261-308 | In a run in which declined payments were not delivered, each payout reaches its node at most once, and one that did has no call left |
| PayoutDeliveries.UntruthfulDeclinePaysTwice | internal/payments/settlement.go:273-286 | A run in which a delivered payment reported as an error is made again |
| Payouts.PayoutEngine.ExecutePayouts | internal/payments/settlement.go:205-254 | Whatever payments and database do, nothing is added that the purchases do not cover; on a sound database exactly the oldest entries that fit are paid |
| Payouts.ExecutedExact | internal/payments/settlement.go:205-254 | A settlement on a sound database pays exactly the oldest unsettled entries from the minimum up that the budget reaches, in order, each its own amount, and the next one would not fit |
| Payouts.PayoutEngine.SendPayout | internal/payments/settlement.go:261-308 | Only a pending or retrying payout is sent; an unknown outcome leaves it in flight and only a declined one fails |
| Payouts.PayoutEngine.RetryFailedPayouts | internal/payments/settlement.go:182-202 | Sends each failed payout with attempts left once more and, whatever statements fail, touches no other and leaves each of those as it was, as sent, or stopped on the way |
| Payouts.RetryBudgetExact | internal/payments/settlement.go:182-202 | Retrying keeps promises within purchases for all outcomes if and only if the retryable amounts still fit |
| Payouts.RetryOverspends | internal/payments/settlement.go:182-254 | Two settlements and a retry that pay out twice what was purchased |
| PayoutBudget.OverspendExact | internal/payments/settlement.go:205-230 | As long as no further settlement begins and nothing is retried, promises stay within purchases when these cover what is promised and what every settlement under way takes to be free; for settlements that have read their totals only, that is exact |
| PayoutBudget.SolventExact | internal/payments/settlement.go:182-254 | One step leaves the purchases covering all that if and only if they cover what it adds: what a settlement that begins takes to be free beside the others, or what a retry sends again |
| PayoutBudget.InTurnStaysSolvent | internal/payments/settlement.go:205-254 | Settlements that follow one another without retries never promise more than was purchased, in any state of any run with crashes and any payment outcomes |
| PayoutBudget.TwoSettlementsOverspend | internal/payments/settlement.go:224-240 | A run in which two settlements see the same two entries and promise twice what was purchased, because the second does not count the payout it could not insert |
| Payouts.PayoutStore.TotalCommittedPayoutSats | internal/store/repository.go:516-526 | The sum of every payout that has not failed |
| Nip44.PaddedCovers | internal/nostr/nip44.go:269-281 | The padded length is never shorter and over by less than one chunk |
| Nip44.PaddedExact | internal/nostr/nip44.go:269-281 | The padded length is the least positive multiple of 32 that holds up to 256 bytes, and beyond that the least multiple of an eighth of the next power of two |
| Nip44.PaddedMonotone | internal/nostr/nip44.go:269-281 | Longer messages never have shorter paddings |
| Nip44.PaddedIdempotent | internal/nostr/nip44.go:269-281 | A padded length is its own padded length |
| Nip44.UnpadExact | internal/nostr/nip44.go:212-266 | Unpadding gives a message back if and only if it has 1 to 65535 bytes |
| Nip44.EncryptDecrypt | internal/nostr/nip44.go:90-191 | Everything encrypted passes the length gates and decrypts to itself |
| Nip44.TamperedIsRefused | internal/nostr/nip44.go:168-174 | A wrong tag is refused whatever the rest |
| Nip44.OnlyTaggedOpens | internal/nostr/nip44.go:147-174 | Whatever opens is of version 2, long enough, and carries the right tag over its nonce and ciphertext |
| Nip44.Encrypt | internal/nostr/nip44.go:69-87 | Encrypts exactly the messages that can be given back |
| Nip44.Decrypt | internal/nostr/nip44.go:125-191 | Computes the specified opening, with every gate |
| Nip44.Pad | internal/nostr/nip44.go:212-225 | Fills the buffer with length, message and zeroes |
| Nip44.Unpad | internal/nostr/nip44.go:228-266 | Both prefix formats with every check |
| Base64.RoundTrip | internal/nostr/nip44.go:121-150 | Decoding undoes encoding for every sequence of bytes |
| Base64.Rfc4648Vectors | internal/nostr/nip44.go:121-150 | The standard alphabet and padding, on the test vectors of section 10 of RFC 4648 |
| UsageReports.PayloadInjective | internal/payments/usage.go:35-53 | Two reports share a signed text only if they agree in all six fields, for arbitrary strings |
| UsageReports.PayloadReadsBack | internal/payments/usage.go:35-53 | A parser recovers the report from its signed text |
| UsageReports.Payload | internal/payments/usage.go:35-53 | Builds the signed text, from which the report reads back |
| UsageReports.Verify | internal/payments/usage.go:69-115 | Accepts exactly well-formed reports, not from the future, whose text was signed |
| UsageReports.VerifiedMeansSigned | internal/payments/usage.go:69-115 | A verified report is one its node signed, field for field |
| RateLimit.NoWindowExceeds | internal/discovery/api.go:279-306 | On a clock that never goes back no window holds more than the limit of accepted requests |
| RateLimit.TurnedAwayExact | internal/discovery/api.go:279-306 | A request is turned away if and only if the limit is reached by accepted requests in the window that ends with it |
| RateLimit.RateLimiter.CheckRateLimit | internal/discovery/api.go:279-306 | The pruned list decides exactly as the full acceptance history would |
| RateLimit.PrunedIsEnough | internal/discovery/api.go:289-296 | Forgetting what left the window changes no later decision |
| RateLimit.ClosedWindowBound | internal/discovery/api.go:289-296 | A closed window never holds more than twice the limit |
| RateLimit.ClosedWindowDoubles | internal/discovery/api.go:289-296 | For every limit it can hold that many: full bursts exactly a window apart are both accepted |
| RateLimit.Serve | internal/discovery/api.go:279-306 | A client's requests are accepted exactly as the reference accepts them |

## Left out

- HTTP, websockets, SQL, file formats, locks and timeouts: handlers are ordered calls on atomic store statements, a write succeeds or has no effect, and randomness, clocks, DNS answers and remote replies are parameters.
- Cryptography (secp256k1, ChaCha20, HMAC, HKDF, AES-GCM, Argon2, Schnorr): ideal functions; blinding factors and DLEQ proofs do not appear.
- The gonuts library is not part of this model: token totals are wrapping uint64 sums, an amount is split into its binary digits, and two proofs are duplicates when equal in every field.
- Denominations.ChosenCovers: does not claim the least possible overpayment, because the code does not reach it; needing 3 from {4, 1} it selects 5.
- Wallets.Wallet.Reserve: totals are unbounded sums where the code adds uint64, and Mint, which stores freshly bought proofs, is not modelled apart from the signature checks it shares with a swap.
- Connects.Service.Connect: accounts for the holdings in memory; after a failed write the vault on disk lacks what was put back until the next write that works. Bytes allowed and key preparation are left out.
- Connects.Service.Extend: takes the session another call leaves behind as a parameter, applied once both nodes have answered.
- Verdicts.DeliveredVerdictExact: speaks of the hub's verdict, not of its table, which HopAtHub.PayHop adds, and supposes that both answers arrive; the lost-reply cases are exactly the two of Verdicts.BurnedButReturned.
- MintCaps.OverRedeemsExact: lets a keyset contain every denomination up to its largest; the run it exhibits uses 2^58 alone.
- MintRuns.RejectIsAtomic: speaks of the moment of the check; the table only grows, so the batch would fail at any later moment too.
- Nip44.CalcPaddedLen: computes the floating-point logarithm of the code as an exact integer one; base64 line breaks and non-canonical last digits are not modelled.
- Tunnels.Tunnel.Teardown: trusts the configurator interface, where deleting a route removes the one added; on Linux adding a route replaces one of the host's own with the same destination, which is below that interface. SetDNS and CreateInterface are taken to change nothing when they fail.
- Endpoints.ResolveOuterRouteIPs: takes parsed lookups and trimmed endpoints; addresses and prefixes are numbers, and parsing or formatting their text is not modelled.
- Tunnels.Tunnel.SessionRoutes: looks at the IPv4 table; which packets WireGuard lets through an interface, and route metrics, are not modelled. Where two routes of one length cover an address, none of them is taken to win.
- Settlement.InvoiceBoundsPools: assumes distinct tickets, which the code does not check; SettlementPeriods.InvoiceBoundExact says what shared ones cost. Products are unbounded where the code uses int64.
- SettlementPeriods.OverpaidExact: speaks of sessions that one period over both would settle; one whose node or ticket changed at the boundary has no such reference.
- Payouts.PayoutEngine.ExecutePayouts: speaks of one loop; several at once are the runs of PayoutBudget.
- PayoutBudget.OverspendExact: is exact for settlements that have read their totals and not yet their entries, with nothing older left to pay; once lists are read, which entries are on them and in what order decides, and only the bound holds.
- Peers.TunnelIPPool.Release: takes the last octet as a number; formatting and parsing it is not modelled. Peers added by an administrator bypass the pool and are left out, and so is what WireGuard does with an address two peers were given.
- PeerRuns.RecentIsSpared: supposes that the clock read at grants does not go back.
- HopAtHub.PayHop: is stated for a sound database and a batch signed by the mint with distinct points; lost answers are the cases of Verdicts.BurnedButReturned.
- TokenReceivers.HandleAll: reads the clock once for each event, where the code reads it again when it stores the reply.
- SwapAtHub.SpendableExact: takes holdings signed by the mint with distinct points, new secrets the hub has not seen, and a table no one else changes meanwhile.
- UsageReports.Payload: treats a string as its bytes.
- The circuit breaker, legacy HMAC tickets, blind RSA tokens, leases, withdrawals, node discovery, the hub registry, user interfaces and platform network configurators: easy case checks or outside the money path.
