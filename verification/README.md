# swapd, modelled and proved in Dafny

swapd swaps coins on chain for lightning payments: a user pays a taproot
address, the server pays the user's invoice with the same payment hash, learns
the preimage from that and claims the output with it. These modules model the
parts of the server in which a mistake loses money and prove what those parts
keep, over all inputs and all runs.

| file | what it models |
|---|---|
| `Types.dfy` | identifiers, machine integers with their saturating and truncating conversions |
| `Timelock.dfy` | confirmations, both `blocks_left` functions, the payout window, the relative lock they are measured against |
| `ClaimTx.dfy` | `create_claim_tx`: sorting, fee, dust rule, witnesses |
| `TapScript.dfy` | the claim script and what it takes to spend through it |
| `Serialization.dfy` | the bytes of a claim, its weight and what its id commits to |
| `PaySwap.dfy` | every check `pay_swap` makes before it locks a swap |
| `SwapRepository.dfy` | the swap, attempt and lock tables, each repository call one atomic step |
| `Protocol.dfy` | pay and refund handlers, both monitors, the lightning node and restarts as one state machine |
| `Attribution.dfy` | whose payment a recorded success is, with the exact condition and runs that break it |
| `PublicServer.dfy` | `pay_swap` and `refund_swap` call by call, with everyone else acting at each await |
| `PaymentMonitor.dfy` | the historical payment monitor and the lightning node it asks |
| `PreimageMonitor.dfy` | the preimage monitor |
| `MemChain.dfy` | headers, paths, and the in-memory chain with its hash map of linked blocks |
| `ChainRepository.dfy` | the chain tables, the SQL that changes and reads them, and the repository class |
| `ChainMonitor.dfy` | `process_block`, `do_sync` and whole lives of the sync with stops anywhere |
| `ClaimService.dfy` | the paid-outpoint query, `list_claimable`, and crafting, broadcasting and recording a claim |
| `Replacement.dfy` | when a stored claim is replaced, what replacements cost, how long their chains get |
| `ClaimMonitor.dfy` | one round of `do_claim`: the split, the rechecks, the new claims |
| `Settlement.dfy` | the parts together: what runs of the protocol say about claims |

Code that only computes is a function. Code that changes tables, chains or
lists is a class or a method with loops, proved against a function or a relation
on the values before and after; what the design promises is then proved about
those. `dafny verify dfyconfig.toml` checks everything.

## Main results

- **A refund excludes payment, for ever** (`Protocol.RefundExcludesPayment`,
  `Protocol.PaymentExcludesRefund`, `Settlement.ClaimableIsNeverRefunded`): in
  every interleaving, with restarts anywhere, once a refund signature for a swap
  is out nothing for it is pending or complete at the node, no pay call is on its
  way and no preimage is stored, then or later; and a swap with a claimable
  output never has a signature out, earlier or later.
  `Protocol.RefundCanBeReleased` and `Protocol.PaymentCanComplete` show that both
  outcomes occur.
- **The handlers are the protocol** (`PublicServer.Server.PaySwap`,
  `PublicServer.Server.RefundSwap`): written call by call, with any steps of
  everyone else at each await, they only ever move along runs of the state
  machine, and give each answer exactly when its reason holds: a signature when the
  swap had no payment lock and neither query saw a payment, so that nothing can be
  paid any more; a success when a payment of the swap has completed, with preimage
  and result stored unless that very call fails.
- **A request is paid if and only if it should be** (`PaySwap.PassesExactlyWhen`,
  `PaySwap.EligibleMeans`, `Timelock.WindowGrantedWhen`): the checks in terms of the
  configuration, the fee rate, the tip and the listed outputs.
- **Whose payment a success is** (`Attribution.SuccessIsOwnExactly`,
  `Settlement.NewClaimsArePaidFor`, `Settlement.UnpaidOutputIsClaimable`): every
  output in a new claim belongs to an attempt of its own swap that is recorded as
  successful and was for exactly the value of its outputs. That the node completed
  that very attempt holds if and only if it was not locked after the swap got its
  preimage and its success did not replace a failure.
- **The blocks table is always one path from the birthday block**
  (`ChainMonitor.Monitor.DoSync`, `Live`, `Lives`, `History`, `Load`): wherever a
  sync stops, the stored headers load back to exactly the stored path; a completed
  sync leaves chain and table equal to the node's chain and has undone exactly the
  dropped blocks, tip first.
- **What `get_utxos` reports at any point of any history**
  (`ChainMonitor.Monitor.QueriesAfterSync`, `ChainTables.UtxosExactWhen`,
  `ChainTables.RefundStaysListed`): it equals the unspent watched outputs of the
  chain if and only if every transaction spending one also pays a watched address.
  See the note on the shadowed alias below.
- **A round of claiming does what it should and nothing else**
  (`ClaimMonitor.ThreeWays`, `ClaimMonitor.RoundIsSafe`, `ClaimMonitor.RoundDelivers`,
  `ClaimMonitor.OutputIsSpent`): whatever is answered, only replacements and whole
  groups are sent and stored; and whenever chain and outputs allow it every output
  that is paid for, or that a valid claim spends, is spent by what the round sent.
- **Claims are worth what they pay and can be mined** (`Serialization.SignedWeightGap`,
  `Serialization.BytesIdentify`, `TapScript.ClaimUnlocks`): the fee is the requested
  rate on the bytes of the signed transaction less n + 2 weight units, the id commits
  to all but the witnesses, and each witness opens the output it is for.
- **What claims cost to replace** (`Replacement.LineageIsBounded`,
  `Replacement.LineageIsFinite`, `Replacement.ReplacementsPayMoreWhen`): every chain
  of replacements ends; while the replacement rule's addition does not wrap, each
  one pays a quarter of the weight more; and over given outputs every replacement
  pays more if and only if those outputs cannot pay the first wrapping rate. A rise
  of 253, not 250, is what pays for relaying every replacement
  (`Replacement.StepThatPaysRelay`, `Replacement.MinimumStepFallsShort`).
- **Why `get_utxos` holds up for claims** (`Settlement.MadeClaimIsRecorded`,
  `Settlement.ClaimsKeepUtxosRight`): a claim that was watched in time is recorded
  as a spender, so the report is right as long as only such claims spend.

The results about passing requests are not about nothing: `Settlement.SomeRequestsPass`
gives two for one swap and one for another.

## Where the code and its evident intent differ

- `swapd/src/postgresql/chain_repository.rs:196-198`: the inner alias `i` shadows
  the outer one, so the second EXISTS does not ask about the transaction at hand.
  The model keeps the query as written. A spender is therefore recorded only when
  it also pays a watched address; `ChainTables.UtxosExactWhen` gives the exact
  condition and `ChainTables.RefundStaysListed` a concrete refund that stays listed.
- `swapd/src/claim/monitor.rs:263`: `fee_per_kw + 250` is an unchecked 32-bit
  addition. The workspace sets no overflow checks for release builds, so the model
  wraps; `Replacement.RichOutputReplacedForNothing` is a replacement that pays
  nothing more because of it.
- `swapd/src/public_server.rs:466-500`: when storing the result of `pay` fails, the
  error is logged and the answer is a success all the same, with no preimage stored
  and the attempt still locked (`Attribution.SuccessUnstored`). The preimage monitor
  makes up for it (`Attribution.MonitorMakesUp`,
  `PreimageMonitor.Monitor.DoQueryPreimages`).
- `swapd/src/lnd/client.rs:178-215`: a payment whose label was not stored is looked
  up by hash, which may find a later payment of the swap. A round of the monitor
  that is cut short is repeated with its whole list
  (`swapd/src/swap/payment_monitor.rs:56-67`), so an attempt recorded as failed can
  be asked for again and then be recorded as successful (`Attribution.RevisedNotOwn`).
- `swapd/src/public_server.rs:304-305`: the window covers the invoice's final
  delta plus the viable minimum only when that minimum is positive (or the claim
  reserve leaves no window at all); `Timelock.WindowCoversFinalDelta` is the exact
  condition.
- `swapd/src/public_server.rs:264` checks the preimage before the lock at `:418-428`,
  not under it. A second request for the swap can pass the check, lock after the
  first one is paid and recorded, and then be recorded as successful too, because
  `swapd/src/cln/client.rs:187` and `:206` look for any completed payment of the
  hash. `Settlement.UnpaidOutputIsClaimable` follows such a run to an output that is
  claimed as paid although no completed payment was made for it.

## Assumptions

- One server process. Pay calls in flight die with it: the node does not act after
  a restart on a call made before it. The historical monitor loads its list before
  the servers start (`swapd/src/main.rs:440-460`).
- Labels and refund ids are unique (hash and nanoseconds; 32 random bytes), and so
  are the addresses of swaps, which are derived from fresh keys.
- The node's contract: ended payments stay as they are; a `Success` from `pay` or
  from a payment lookup means that some payment of the hash is complete, under
  whatever label; a `Failure` means that the label's own payment has failed for
  good; `PaymentNotFound` means it was never sent; an error from `pay` says nothing.
  A preimage lookup may lose the label (`NO_LABEL`). Only
  `PaymentMonitor.dfy` and `PreimageMonitor.dfy`, which follow one monitor at work,
  take a lookup by label to answer for that label, and one hash to have one
  preimage.
- `has_pending_or_complete_payment` reads completed and pending payments in two
  separate steps, as `swapd/src/cln/client.rs:138-165` does; the one query of
  `swapd/src/lnd/client.rs:285-316` is the case of both at one moment, a payment it
  has only initiated counting as pending.
- Headers form a tree in which a hash names one header and heights count up by
  one; the birthday block is an ancestor of every tip the node reports; the height
  a block states (BIP 34) is that of its header. Blocks on a reported chain are
  valid: a transaction id names one transaction, a transaction is in one block of
  a chain, outputs come before their spends, no output is spent twice.
- The key of `tx_inputs` is (spending transaction, input index), and `tx_blocks`
  cascades from `blocks` (`swapd/src/postgresql/migrations/20241206_initial.up.sql:85-103`).
- The key of `claims` is the transaction id
  (`swapd/src/postgresql/migrations/20241206_initial.up.sql:117-118`), which commits to
  everything but the witnesses (`Serialization.BytesIdentify`, for a hash without collisions).
- An outpoint has one value.

## Model

| member | source | states |
|---|---|---|
| Timelock.BlocksLeftDifferByOne | swapd/src/swap/swap_service.rs:34-58 | for heights in 32-bit range the two block counts differ by exactly one if and only if the output lies no higher than the next block |
| Timelock.ClaimableBlocksLeftIsDeadline | swapd/src/swap/swap_service.rs:34-38 | the count is the number of further blocks that can be mined before the refund's relative lock matures (BIP 68, section "Specification"; BIP 112) |
| Timelock.WindowFitsLock | swapd/src/public_server.rs:287-302 | whatever saturates or truncates, a granted window plus the claim reserve ends no later than the lock of any output at or above the lowest confirmation |
| Timelock.WindowGrantedWhen | swapd/src/public_server.rs:287-312 | for all heights: a window is granted if and only if the blocks to the lock exceed the claim reserve and, with a positive viable minimum, leave final delta and minimum besides it; it is all they leave |
| Timelock.WindowCoversFinalDelta | swapd/src/public_server.rs:296-312 | for every output in the chain a granted window covers final delta plus viable minimum, if and only if that minimum is positive or the reserve is at least the longest lock time |
| ClaimTx.CreateClaimTx | swapd/src/swap/swap_service.rs:205-297 | the fold, the overwritten output and the signing loop compute the specified transaction, or the same error; what that transaction is, weighs and pays is the subject of the next rows |
| ClaimTx.SignInputs | swapd/src/swap/swap_service.rs:256-294 | every input gets the witness of its own swap and keeps its previous output |
| ClaimTx.SortSorts | swapd/src/swap/swap_service.rs:212-214 | the listing used is in outpoint order |
| ClaimTx.SortedListingUnique | swapd/src/swap/swap_service.rs:212-214 | with distinct outpoints there is only one such listing |
| ClaimTx.ClaimIsReproducible | swapd/src/swap/swap_service.rs:212-254 | two listings of the same claimables with distinct outpoints give the same transaction or the same error |
| ClaimTx.ClaimConserves | swapd/src/swap/swap_service.rs:215-294 | output plus fee is the total of the inputs, the output is no dust, inputs are sorted, each claimable is spent with its own witness and nothing else is spent |
| ClaimTx.ClaimPossibleWhen | swapd/src/swap/swap_service.rs:219-254 | a claim can be made if and only if the height is a usable lock time and, with a positive dust limit, the inputs cover fee and limit; its lock time is the height; only a height beyond that is reported as such |
| ClaimTx.FeeMonotone | swapd/src/swap/swap_service.rs:236-243 | a higher rate or a longer script never lowers the fee |
| ClaimTx.ClaimCarriesOver | swapd/src/swap/swap_service.rs:236-254 | a claim possible at one rate stays possible at lower rates, other usable heights and scripts no longer, and pays out no less |
| TapScript.LeafOpensWhen | swapd/src/swap/swap_service.rs:161-167 | the claim script, run opcode by opcode, ends in just true if and only if the signature is by the claim key and the preimage hashes to the script's hash |
| TapScript.WitnessUnlocksWhen | swapd/src/swap/swap_service.rs:287-292 | the witness, items in that order, spends the claim leaf by the rules of BIP 341 and 342 if and only if its preimage hashes to that of the swap |
| TapScript.ClaimUnlocks | swapd/src/swap/swap_service.rs:256-294 | with the right preimages every input of a claim opens the output it spends |
| Serialization.BaseSizeIsLength | swapd/src/swap/swap_service.rs:219-235 | the size used for fees is, for every transaction, the length of its bytes: version, inputs, output and lock time field by field |
| Serialization.SameCompact | swapd/src/swap/swap_service.rs:236-237 | a compact number can be read off the bytes it starts |
| Serialization.BytesIdentify | swapd/src/swap/swap_service.rs:219-235 | two claims have the same bytes without witnesses, so the same id, if and only if lock time, outpoints, destination and value agree |
| Serialization.WitnessesOfClaim | swapd/src/swap/swap_service.rs:161-167 | the witnesses of a claim are 223 bytes per input, one more than the constant; the script's part is the sum of its opcodes |
| Serialization.SignedWeightGap | swapd/src/swap/swap_service.rs:236-248 | the fee, inputs less output, is the requested rate on the signed weight (by BIP 141 from the bytes) less n + 2 units, rounded up to a satoshi |
| PaySwap.MinHeight | swapd/src/public_server.rs:282-293 | the lowest confirmation height among the outputs |
| PaySwap.Eligible | swapd/src/public_server.rs:315-347 | the outputs kept are exactly the listed ones that are eligible |
| PaySwap.EligibleMeans | swapd/src/public_server.rs:138-151 | eligible are exactly the outputs worth the configured minimum and one and a half times the rate that have their confirmations |
| PaySwap.EligibleCounts | swapd/src/public_server.rs:315-347 | each of them is kept as often as it is listed |
| PaySwap.EligibleOfConcat | swapd/src/public_server.rs:315-347 | filtering works output by output, so the order is kept |
| PaySwap.CountedMeans | swapd/src/public_server.rs:315-356 | every output counted is listed and meets those three conditions; without an answer of the address filter every listed output that does is counted, as often as it is listed |
| PaySwap.ChecksGiveSoundPlan | swapd/src/public_server.rs:222-404 | a request that passes has an amount of exactly 1000 times its outputs' value, outputs that are listed, worth both minima and confirmed, a time limit that fits every output's lock, and with a positive viable minimum one that covers the final delta |
| PaySwap.PassesExactlyWhen | swapd/src/public_server.rs:222-404 | a request passes if and only if its amount is that of the counted outputs and within the limits, the swap is unpaid, a window is granted and the trial claim can be paid for; and the plan is given field by field |
| PaySwap.RefusalMeans | swapd/src/public_server.rs:222-404 | what each refusal says about the request |
| PaySwap.ChecksLimitAmount | swapd/src/public_server.rs:225-267 | only the invoice of an unpaid swap passes, at an amount between both minima and the maximum, and for at least one output |
| PaySwap.TrialClaimCarriesOver | swapd/src/public_server.rs:374-404 | the trial claim is a promise: the same outputs can be claimed later at any rate up to the estimate to any script no longer |
| SwapTables.LockPaymentKeepsInv | swapd/src/postgresql/swap_repository.rs:440-508 | locking for payment under a new label keeps: a payment lock excludes all others, and is there exactly while its attempt has no result |
| SwapTables.LockRefundKeepsInv | swapd/src/postgresql/swap_repository.rs:511-544 | locking for refund keeps that invariant |
| SwapTables.UnlockPaymentKeepsInv | swapd/src/postgresql/swap_repository.rs:547-590 | recording a result keeps it, when the result names the swap of its attempt |
| SwapTables.UnlockRefundKeepsInv | swapd/src/postgresql/swap_repository.rs:593-612 | unlocking a refund keeps it |
| SwapTables.RefundLockSettlesAttempts | swapd/src/postgresql/swap_repository.rs:447-460 | while a refund lock is there every attempt of the swap has its result and there is no payment lock |
| SwapRepository.Repository.AddSwap | swapd/src/postgresql/swap_repository.rs:87-113 | a new hash adds its row, a known one changes nothing; the lock invariant is kept |
| SwapRepository.Repository.LockAddPaymentAttempt | swapd/src/postgresql/swap_repository.rs:440-508 | succeeds exactly for a known swap without any lock; the swap then has this one lock, the attempt is the one more without a result, other swaps' locks stay and the lock invariant is kept |
| SwapRepository.Repository.LockSwapRefund | swapd/src/postgresql/swap_repository.rs:511-544 | succeeds exactly for a known swap without a payment lock; no payment can then lock it, none of its attempts is without a result, other swaps' locks stay and the invariant is kept |
| SwapRepository.Repository.UnlockAddPaymentResult | swapd/src/postgresql/swap_repository.rs:547-590 | afterwards the attempt has a result, its lock is gone, a success has left the preimage, and the invariant is kept |
| SwapRepository.Repository.UnlockSwapRefund | swapd/src/postgresql/swap_repository.rs:593-612 | gives back one refund lock; the swap is without a lock afterwards exactly when it was the last |
| SwapRepository.Repository.GetUnhandledPaymentAttempts | swapd/src/postgresql/swap_repository.rs:381-437 | lists every attempt without a result, each once |
| Protocol.StepKeepsInv | swapd/src/public_server.rs:214-627 | every step of every handler, monitor, the node and a restart keeps the invariant of tables, node, handlers in flight and refunds handed out, with successes reported for any payment of the hash |
| Protocol.RunKeepsInv | swapd/src/public_server.rs:214-627 | so does every run from empty tables |
| Protocol.ReleasedIsUnpaid | swapd/src/public_server.rs:582-627 | in a state with a signature out nothing is pending, complete, on its way or stored for that swap |
| Protocol.RefundExcludesPayment | swapd/src/public_server.rs:418-627 | in every run, from the release of a refund signature on no payment of that swap is pending or complete, ever |
| Protocol.PaymentExcludesRefund | swapd/src/public_server.rs:418-627 | while a payment is pending or complete, no signature for its swap was handed out up to then |
| Protocol.LocksOfReachableStates | swapd/src/postgresql/swap_repository.rs:440-612 | in every reachable state a swap has one payment lock alone or refund locks only, a payment lock exists exactly while its attempt has no result, a recorded failure is for good and a recorded success means that the swap was paid |
| Protocol.TermsOfPayments | swapd/src/public_server.rs:418-458 | every payment that reached the node was recorded with 1000 times the value of its outputs, under a limit that with the claim reserve fits the lock of each, and that covers final delta plus viable minimum when that is positive |
| Protocol.PreimagesArePaidFor | swapd/src/claim/preimage_monitor.rs:67-128 | a stored preimage was revealed by a completed payment of that very swap |
| Protocol.RefundCanBeReleased | swapd/src/public_server.rs:502-627 | some run releases a refund |
| Protocol.PaymentCanComplete | swapd/src/public_server.rs:214-480 | every request that passes the checks has a run in which it is paid and its preimage stored |
| Attribution.StepKeepsOwn | swapd/src/public_server.rs:264-480 | every step keeps: while an attempt locked in time is undecided, all other attempts of its swap are dead, and undoubted successes are own ones |
| Attribution.SuccessIsOwn | swapd/src/cln/client.rs:168-229 | in every run a recorded success is the attempt's own payment unless it was locked late or replaced a failure |
| Attribution.LateNotOwn | swapd/src/public_server.rs:264-428 | for any two requests that pass, a run in which the second locks late and is recorded as successful without a payment of its own |
| Attribution.RevisedNotOwn | swapd/src/lnd/client.rs:178-215 | a run in which an attempt pending at a restart fails, is recorded as failed in a round that is cut short, and is recorded as successful in the next one because another payment of the swap has completed |
| Attribution.RoundsAreReachable | swapd/src/swap/payment_monitor.rs:32-77 | the monitor's part of it: `initialize` keeps two pending attempts, the next round settles one and errs at the other, and both stay listed |
| Attribution.LateAndRevisedNotOwn | swapd/src/swap/payment_monitor.rs:42-77 | both exceptions in one run |
| Attribution.SuccessUnstored | swapd/src/public_server.rs:466-500 | a run in which a request is over, its swap paid, and neither preimage nor result stored |
| Attribution.MonitorMakesUp | swapd/src/claim/preimage_monitor.rs:67-128 | in any state of any run, asking for a payment the node has completed and recording the answer stores the preimage, marks the attempt, takes its lock away and changes nothing else |
| Attribution.SuccessIsOwnExactly | swapd/src/public_server.rs:264-480 | successes are always own ones if and only if neither exception applies; each alone breaks it, and so do both |
| PublicServer.OthersSpareHandler | swapd/src/public_server.rs:418-480 | whatever others do at an await, the handler finds its own progress untouched, in a state of some run |
| PublicServer.Server.CreateSwap | swapd/src/public_server.rs:167-211 | adds the swap and stays on a run |
| PublicServer.Server.PaySwap | swapd/src/public_server.rs:214-500 | call by call it stays on a run; each answer is given if and only if its reason holds: the refusal of the checks, a lock or a failing store when the swap was to be locked, no outcome at the node when `pay` returned; the attempt recorded has the invoice and amount of the request and the counted outputs; success means a completed payment of the swap; the result is stored unless that call fails |
| PublicServer.Server.Record | swapd/src/public_server.rs:463-480 | stores the result, with the preimage of a success, unless the store fails |
| PublicServer.Server.LockForPayment | swapd/src/public_server.rs:418-438 | locks the swap if and only if it has no lock and the store works |
| PublicServer.Server.HasPayment | swapd/src/cln/client.rs:138-165 | answers what its two queries saw, each at a moment during the call, the one for pending payments first |
| PublicServer.Server.RefundSwap | swapd/src/public_server.rs:582-627 | a signature is handed out if and only if the swap is known, had no payment lock, and both queries were answered and saw nothing; then nothing is paid or can still be; each error has its reason, "payment exists" that one was there when asked; after a denial the refund lock is given back unless that call fails |
| PaymentMonitor.SettleOne | swapd/src/postgresql/swap_repository.rs:547-590 | recording one more outcome turns the tables settled for a set of labels into those settled for one label more |
| PaymentMonitor.SettledMeans | swapd/src/swap/payment_monitor.rs:79-150 | settling makes a completed attempt a success with its swap's preimage, and one that failed or is unknown a failure, takes away the locks of both, and leaves other attempts and their locks |
| PaymentMonitor.SettledSparesRest | swapd/src/swap/payment_monitor.rs:79-150 | swaps without a completed attempt among them, and all refund locks, stay as they are |
| PaymentMonitor.SettleTwice | swapd/src/swap/payment_monitor.rs:79-150 | settling in two goes is settling once |
| PaymentMonitor.SettledStays | swapd/src/swap/payment_monitor.rs:79-150 | later changes of the node do not touch what has been settled |
| PaymentMonitor.SettledKeepsInv | swapd/src/swap/payment_monitor.rs:79-150 | settling keeps the invariant of the tables |
| PaymentMonitor.UnhandledAfter | swapd/src/swap/payment_monitor.rs:79-150 | exactly the labels not settled are left without a result |
| PaymentMonitor.InterruptedRunConverges | swapd/src/swap/payment_monitor.rs:32-40 | a run cut short and repeated ends in the tables of a single run over both |
| PaymentMonitor.HistoricalPaymentMonitor.DoCheckPayments | swapd/src/swap/payment_monitor.rs:79-150 | of the attempts before the call that failed (all, unless one may fail) it hands back those the node reported as pending in this call and settles the others as the node says |
| PaymentMonitor.HistoricalPaymentMonitor.Initialize | swapd/src/swap/payment_monitor.rs:32-40 | succeeds unless a call fails; after success every payment lock left belongs to an attempt the node reported as pending during this call, and all others carry the node's outcome |
| PaymentMonitor.HistoricalPaymentMonitor.Start | swapd/src/swap/payment_monitor.rs:42-77 | over any number of rounds, failed ones included, every label loaded is settled once as the node says or still listed; without failing calls those still listed are what the node last reported as pending |
| PreimageMonitor.Monitor.DoQueryPreimages | swapd/src/claim/preimage_monitor.rs:67-128 | all the node answers and only that is stored, the attempt it names marked and unlocked; refund locks and other swaps stay; every query is answered unless a call fails, and then no queried swap with a completed payment is left without its preimage |
| PreimageMonitor.LearnOne | swapd/src/claim/preimage_monitor.rs:107-123 | recording a found preimage, with or without its label, keeps tables and preimages sound |
| Headers.PathsAgree | swapd/src/chain/types.rs:32-37 | paths from one base agree wherever they meet |
| MemChain.Chain.Append | swapd/src/chain/memchain.rs:37-56 | extends the path by one block, or refuses without a change exactly when the block is no child of the tip |
| MemChain.Chain.Prepend | swapd/src/chain/memchain.rs:78-96 | puts a block below the base, or refuses without a change exactly when it is not the base's parent |
| MemChain.Chain.GetBlock | swapd/src/chain/memchain.rs:71-76 | finds exactly the blocks on the path |
| MemChain.Chain.ContainsBlock | swapd/src/chain/memchain.rs:66-68 | true exactly for the hashes on the path, so for no removed block |
| MemChain.Chain.Rebase | swapd/src/chain/memchain.rs:99-117 | puts the other chain's blocks up to the base's parent below the base; errs before any change, exactly when that base is neither the other's base nor a child of one of its blocks |
| MemChain.Chain.Retip | swapd/src/chain/memchain.rs:119-146 | the path becomes its prefix below the other's base followed by the other; errs without a change exactly when that base is unknown |
| MemChain.Chain.Truncate | swapd/src/chain/memchain.rs:119-140 | makes a block the tip and leaves nothing above it in the map |
| MemChain.Chain.IterForwards | swapd/src/chain/memchain.rs:165-199 | following the links from the base yields the path |
| MemChain.Chain.IterBackwards | swapd/src/chain/memchain.rs:201-235 | following the parents from the tip yields the path reversed |
| MemChain.FromHeaders | swapd/src/chain/memchain.rs:237-254 | succeeds exactly for a nonempty list of linked headers, tip first, and gives that path |
| ChainTables.AddKeepsInv | swapd/src/postgresql/chain_repository.rs:150-208 | adding a processed block, also one already there, keeps the tables in agreement with the blocks stored and the addresses watched when each was processed |
| ChainTables.UndoKeepsInv | swapd/src/postgresql/chain_repository.rs:426-432 | so does undoing any block |
| ChainTables.WatchKeepsInv | swapd/src/postgresql/chain_repository.rs:211-222 | so does watching more addresses |
| ChainTables.AddAfterWatchKeepsInv | swapd/src/chain/monitor.rs:278-330 | adding a block keeps it too when addresses were added after the block's outputs were filtered; those count from the next time on |
| ChainTables.UtxosReported | swapd/src/postgresql/chain_repository.rs:392-423 | reported are exactly the outputs on the chain to addresses watched in time that no transaction paying such an address spends |
| ChainTables.TxosReported | swapd/src/postgresql/chain_repository.rs:306-331 | per address all such outputs, spent or not, at the heights of their blocks |
| ChainTables.UtxosExactWhen | swapd/src/postgresql/chain_repository.rs:186-203 | the report is the unspent watched outputs if and only if every spender of one pays a watched address |
| ChainTables.RefundStaysListed | swapd/src/postgresql/chain_repository.rs:186-203 | a funding and its refund, after which the spent output is still listed |
| ChainRepository.ListingIsPath | swapd/src/postgresql/chain_repository.rs:250-273 | sorted by height, the rows of a stored path are that path reversed |
| ChainRepository.Repository.FilterWatchAddresses | swapd/src/postgresql/chain_repository.rs:225-247 | exactly the watched ones among the addresses |
| ChainRepository.Repository.GetBlockHeaders | swapd/src/postgresql/chain_repository.rs:250-273 | all stored headers, each once, highest first |
| ChainMonitor.CollectBlock | swapd/src/chain/monitor.rs:246-276 | the loops over transactions collect every output with an address and every input, and nothing else |
| ChainMonitor.Extract | swapd/src/chain/monitor.rs:246-320 | what is handed to the repository are exactly the block's outputs to watched addresses and all its spends |
| ChainMonitor.Monitor.ProcessBlock | swapd/src/chain/monitor.rs:246-338 | processing the next block extends the stored path, processing the last one again leaves it, and the tables stay right, also when addresses are added in between |
| ChainMonitor.Monitor.WalkBack | swapd/src/chain/monitor.rs:165-192 | the walk from the node's tip ends at the last block both chains share, with the new chain from there to the tip |
| ChainMonitor.Monitor.UndoStale | swapd/src/chain/monitor.rs:200-215 | undoes exactly the old chain's blocks above the fork, tip first, the table staying a path at every stop |
| ChainMonitor.Monitor.ProcessNew | swapd/src/chain/monitor.rs:219-240 | processes the new chain from the fork on, in order, again with a path at every stop |
| ChainMonitor.Monitor.DoSync | swapd/src/chain/monitor.rs:152-244 | complete: chain and table are the node's chain and exactly the dropped blocks were undone; stopped anywhere: the table is a path from the same base; it stops only if something stops it |
| ChainMonitor.Monitor.Load | swapd/src/chain/monitor.rs:47-50 | at any such point the stored headers load back to exactly the stored path |
| ChainMonitor.Monitor.CreateBirthday | swapd/src/chain/monitor.rs:52-72 | the base is the block twenty below the node's tip |
| ChainMonitor.Monitor.Live | swapd/src/chain/monitor.rs:128-150 | one life of the sync, stopped anywhere, leaves right tables of valid blocks on the same base; unless something stops it every round completes and the table is the last chain the node reported |
| ChainMonitor.Monitor.Lives | swapd/src/chain/monitor.rs:47-150 | so does any number of lives; unless something stopped them the table is the last chain reported in any |
| ChainMonitor.Monitor.History | swapd/src/chain/monitor.rs:47-150 | from empty tables: a first start and any number of lives leave right tables on the birthday block, and the last chain reported unless something stopped them |
| ChainMonitor.Monitor.QueriesAfterSync | swapd/src/postgresql/chain_repository.rs:306-423 | what both queries report whenever the tables are right, which is at every point of every history; get_utxos is the unspent watched outputs if and only if every spender pays a watched address |
| Claimables.GetSwapsWithPaidOutpoints | swapd/src/postgresql/swap_repository.rs:317-376 | per queried address of a swap: that swap, with exactly the outputs of its successful attempts |
| Claimables.ListClaimable | swapd/src/claim/service.rs:71-104 | the outputs whose swap has a preimage, each once, marked with an invoice exactly when a successful attempt was made for it |
| Replacement.MinIsLeast | swapd/src/claim/monitor.rs:251-258 | the least of the block counts, absent only without inputs |
| Replacement.MinBlocksLeftIsDeadline | swapd/src/claim/monitor.rs:251-259 | for heights in 32-bit range the fee target is the number of blocks until the first refund of any input can be mined |
| Replacement.ReplacementRaisesRate | swapd/src/claim/monitor.rs:261-263 | replacing raises the rate by 250 for every estimate if and only if the addition cannot wrap |
| Replacement.CraftedPays | swapd/src/claim/service.rs:114-140 | a recorded claim pays the fee of the rate recorded with it, has inputs, and lists them once and in order |
| Replacement.ReplacementSpendsTheSame | swapd/src/claim/monitor.rs:283-292 | a replacement spends the same outpoints to the same address and is itself such a claim |
| Replacement.ReplacementPaysMore | swapd/src/claim/monitor.rs:261-292 | its absolute fee is higher by at least a quarter of the estimated weight (BIP 125, section "Implementation Details", rule 3) |
| Replacement.VirtualSizeIsSigned | swapd/src/swap/swap_service.rs:236-240 | the virtual size in the next two rows is a quarter of the signed weight, rounded up |
| Replacement.StepThatPaysRelay | swapd/src/claim/monitor.rs:28 | towards scripts of 22 bytes and more a rise pays one satoshi per virtual byte of every replacement (rule 4) if and only if it is at least 253 per 1000 weight units |
| Replacement.MinimumStepFallsShort | swapd/src/claim/monitor.rs:28 | a replacement by just 250, one input to a P2WPKH address: 137 satoshis more for 139 virtual bytes |
| Replacement.SmallClaimsDoNotWrap | swapd/src/claim/monitor.rs:263 | claims worth up to 1984274775 satoshis never reach a rate at which the rule wraps |
| Replacement.LineageAt | swapd/src/claim/monitor.rs:245-299 | along a chain of replacements in which no addition wraps the rate grows by 250 and the fee by a quarter of the weight each time |
| Replacement.LineageSpendsTheSame | swapd/src/claim/monitor.rs:245-299 | along any chain of replacements outpoints and address stay |
| Replacement.LineageIsFinite | swapd/src/claim/monitor.rs:245-299 | so the length of such a chain is bounded by the value of the inputs |
| Replacement.LineageIsBounded | swapd/src/postgresql/claim_repository.rs:32-75 | any chain of stored replacements is bounded, since outpoints and address stay and no transaction is stored twice |
| Replacement.ReplacementsPayMoreWhen | swapd/src/claim/monitor.rs:261-299 | over given outputs and address every replacement pays more if and only if the outputs cannot pay the first wrapping rate and the dust limit |
| Replacement.RichOutputReplacedForNothing | swapd/src/claim/monitor.rs:263 | an output of 24 bitcoin whose claim is replaced without paying a satoshi more |
| ClaimMonitor.CollectByOutPoint | swapd/src/claim/monitor.rs:121-126 | a map with every listed outpoint, each under its own key |
| ClaimMonitor.CollectRechecks | swapd/src/claim/monitor.rs:135-169 | rechecked are exactly the stored claims whose inputs are all claimable, in order; unhandled exactly the outputs none of them spends |
| ClaimMonitor.GroupBySwap | swapd/src/claim/monitor.rs:174-199 | each paid one of those once, under the hash of its own swap, in no empty group |
| ClaimMonitor.Partition | swapd/src/claim/monitor.rs:135-199 | both together, for any list of stored claims |
| ClaimMonitor.ThreeWays | swapd/src/claim/monitor.rs:135-199 | every claimable output is rechecked, or at exactly one place in exactly one group, or skipped as unpaid |
| ClaimMonitor.RechecksMeaning | swapd/src/claim/monitor.rs:137-168 | membership in the recheck list, in both directions |
| ClaimMonitor.RecheckEffect | swapd/src/claim/monitor.rs:245-299 | a recheck sends and stores nothing but the claim itself or a replacement of it |
| ClaimMonitor.RecheckNeedsEstimate | swapd/src/claim/monitor.rs:251-259 | the estimate is asked for the least blocks left of the inputs; without inputs or without an estimate nothing happens |
| ClaimMonitor.RecheckRebroadcasts | swapd/src/claim/monitor.rs:261-281 | below the stored rate plus 250 exactly the stored transaction is sent again and nothing is stored; a refusal for too low a fee counts as success |
| ClaimMonitor.RecheckReplaces | swapd/src/claim/monitor.rs:283-299 | from there on, with outputs that can pay, a replacement at the estimate is made; if all answers are positive and its id is new its row is all that is stored, its transaction all that is sent, and its address watched |
| ClaimMonitor.MakeClaimEffect | swapd/src/claim/service.rs:106-146 | whatever is answered on the way, making a claim sends and stores nothing but that claim |
| ClaimService.ClaimIsStored | swapd/src/claim/service.rs:106-146 | a claim the outputs can pay for, taken by the chain and accepted by both repositories, is answered with its transaction if and only if its id is new, and stored with the destination, rate and bumping it was asked for |
| ClaimService.ClaimLeaves | swapd/src/claim/service.rs:106-146 | whatever fails on the way: what is sent, stored, watched and answered |
| ClaimMonitor.ClaimEffect | swapd/src/claim/monitor.rs:303-333 | a new claim sends and stores nothing but a bumpable claim for exactly its group |
| ClaimMonitor.GroupNeedsAnswers | swapd/src/claim/monitor.rs:308-321 | a new claim asks for the estimate at the least blocks left and needs an address; without either nothing happens |
| ClaimMonitor.GroupIsClaimed | swapd/src/claim/monitor.rs:308-333 | a group that can pay is claimed: a bumpable claim for just its outputs, at the rate and to the address answered; with positive answers its row is all that is added |
| ClaimMonitor.ClaimSpendsGroup | swapd/src/claim/monitor.rs:303-333 | a new claim spends exactly the outputs of its group |
| ClaimMonitor.RoundIsSafe | swapd/src/claim/monitor.rs:119-242 | whatever is answered, a round sends and stores only replacements of still valid claims and claims for whole groups, and every stored claim stays as recorded |
| ClaimMonitor.RoundDelivers | swapd/src/claim/monitor.rs:119-242 | no recheck and no group is passed over: in the ledger at the end of the round each has led to what its answers allow |
| ClaimMonitor.OutputIsSpent | swapd/src/claim/monitor.rs:119-242 | after a round in which the chain took what was sent and the outputs could pay, every claimable output that is paid for or that a valid claim spends is spent by a transaction that was sent |
| ClaimMonitor.Monitor.DoClaim | swapd/src/claim/monitor.rs:119-242 | every still valid claim is rechecked and every group claimed, each once, with that effect and all that they have to deliver |
| Settlement.ListedIsSettled | swapd/src/claim/service.rs:79-101 | a claimable has its swap's paid-for preimage, and an invoice mark names an attempt recorded as successful for that output |
| Settlement.NewClaimsArePaidFor | swapd/src/claim/monitor.rs:174-198 | in every run each output in a new claim belongs to an attempt of the same swap, for exactly the value of its outputs, recorded as successful; the node completed it unless it was locked late or its success replaced a failure |
| Settlement.UnpaidOutputIsClaimable | swapd/src/public_server.rs:264-428 | what the first exception costs: a run to a claimable output, marked as paid, for which no completed payment was made |
| Settlement.SomeRequestsPass | swapd/src/public_server.rs:214-404 | concrete requests that pass the checks: two for one swap with different outputs, one for another swap |
| Settlement.MadeClaimIsRecorded | swapd/src/claim/service.rs:141-143 | a claim made, stored and watched is recorded as a spender by every block processed afterwards that holds it |
| Settlement.ClaimsKeepUtxosRight | swapd/src/postgresql/chain_repository.rs:186-203 | get_utxos is right as long as only claims watched in time spend watched outputs |
| Settlement.ClaimableIsNeverRefunded | swapd/src/public_server.rs:582-627 | in every run a swap with a claimable output never has a refund signature out, before or after |

## Left out

- RPC clients of the lightning and bitcoin nodes, gRPC decoding, argument parsing, logging and timestamps: plumbing.
- MuSig2, Schnorr, taproot trees and signature hashes: a signature is an opaque witness item of the right size that names its key, and a control block one that names its swap.
- Fee estimators and the address filter: their answers are arbitrary (the filter may only drop and reorder outputs).
- The lightning fee limit of a payment: an argument the node is handed, with no bearing on the results.
- The internal server and its manual claims and payout reports: separate commands.
- The daily full sync beside the tip sync: both share the tables without coordination; only the tip sync is modelled.
- `get_claims`: its result is any selection of stored claims, which is all the round relies on.
- SQL row parsing, hex and address conversions.
- Errors of the database: a stop between two calls of the chain sync and the monitors, a named failing call in the two handlers; a commit whose confirmation is lost is not modelled.
- Protocol.LocksOfReachableStates: does not promise that a recorded success is the attempt's own payment, because `pay` may answer for another payment of the hash; `Attribution.SuccessIsOwnExactly` says when it is.
- PublicServer.Server.PaySwap: the request is taken after its invoice has been parsed, and its chain and fee queries are answered at once.
- PublicServer.Server.RefundSwap: starts at the swap found; decoding the transaction and making the signature are left out.
- ClaimMonitor.Monitor.DoClaim: runs the rechecks and claims one after the other in some order; the source lets them interleave at awaits, which changes the order of rows and broadcasts but not what they are.
- ClaimTx.CreateClaimTx: sums of amounts are unbounded; the source adds in 64 bits, which the supply of coins cannot overflow.
- ClaimTx.SignInputs: what a signature commits to is not modelled.
- MemChain.Chain.Rebase: modelled although the program does not call it at present.
- PaymentMonitor.HistoricalPaymentMonitor.Start: cancellation is a bound on the number of rounds; handlers running beside it are in the state machine of `Protocol.dfy` instead.
- PreimageMonitor.Monitor.DoQueryPreimages: asks one swap after the other, in any order, where the source has all queries in flight at once; an error while storing is one of the stops of the state machine.
- Protocol.StepKeepsInv: handlers that fail before their first lock take no step at all, as they leave nothing behind.
