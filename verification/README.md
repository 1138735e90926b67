# Verified models of the Panoptes benches, deploy tool and services

Dafny models of the self-contained algorithms in the Panoptes client tools, with proofs of what they
guarantee. `dafny verify dfyconfig.toml` checks everything.

| file | what it models |
|---|---|
| `OrderMatching.dfy` | the order book of the exchange bench and the swapper's drain loop |
| `Transfers.dfy` | ledgers and multi-transfer transactions, shared by the two funding benches |
| `Replays.dfy` | replays of funding transactions, for both benches |
| `ExchangeFunding.dfy` | the irregular funding tree of the exchange bench |
| `BenchTpsFunding.dfy` | the regular 4-ary funding tree of the throughput bench |
| `RotatingTransfers.dfy` | the rotating transfer generator of the throughput bench |
| `CrateOrdering.dfy` | the publishing order of the workspace crates |
| `ProgramDeploy.dfy` | chunked program writes and resumable buffer initialisation |
| `ConfirmationLoop.dfy` | the send, confirm and re-sign loop of program deployment |
| `RetryQueue.dfy` | the transaction retry queue of the banks server |
| `BlockProduction.dfy` | block production accounting per slot and per leader |
| `TokenAmount.dfy` | fixed-point printing and trimming of token amounts |
| `Wrappers.dfy`, `Collections.dfy` | optional values and results, helpers on collections |

Keys, signatures and messages are opaque values with equality, and signing is injective. RPC answers,
clocks and hash-map iteration orders are arbitrary inputs. Integers are unbounded; 64-bit and 32-bit
limits appear as preconditions, as wrap-around or as casts where the code depends on them.

## Where the code and its description differ

- The crate ordering script only knows dependencies whose names start with `solana`. `solana-core`
  depends on the workspace crate `panoptes-faucet` (core/Cargo.toml:55), so the published list need not
  put it first. `RespectsAllIff` says exactly when it does; `PrefixLosesDependency` is a workspace, made
  up for the purpose, where it does not.
- `--slot-limit n` is described as limiting the results to n slots, but the window has n + 1 slots unless
  the epoch or the ledger provides no more than n (`SlotLimitHoldsIff`, `SlotLimitExceeded`).
- The funding transactions of the throughput bench are called replayable because a source is either
  empty or full. No replay makes a transaction of the tree apply twice exactly when each one, with two fees,
  costs more than what its source holds beyond it: its lamports, the largest fee, and whatever it held
  before (`TreeReplayIff`). If nobody held anything before, that means 3 * lamports + 2 * fee > max_fee
  (`FreshTreeReplayIff`); `ReplayPaysTwice` is a tree where it fails. A funding key that holds more than the
  total, the case in which no airdrop is asked for, can pay twice all the same (`RichKeyPaysTwice`).
- The exchange bench also signs its funding transactions again. A round can be replayed exactly when each
  transaction costs more than half of what its source holds (`RoundReplayIff`). The bench gives its source
  twice the total before the first of two fundings (bench-exchange/src/main.rs:72-77), so that the first
  transaction can always apply twice (`RichSourcePaysTwice`). If everybody starts out empty but for the
  total of the source, the whole run can be replayed exactly for certain numbers of keys (`FundKeys`,
  `ReplayableIff`), not for instance for seven (`SevenKeysPaidTwice`).
- The throughput bench drops a transaction from its resends once the first recipient it can read holds the
  amount. That means that the transaction has applied exactly if the check did not pass beforehand
  (`PassedMeansAppliedIff`); a recipient with an old balance passes without one (`OldBalancePasses`).
- Destination keys are rotated so that later transfers differ. With one or two transfers per chunk the
  next visit in the same direction repeats every pair (`RotationTooShort`, `TwoPairsRepeat`).
- Trimming a token amount without decimals strips zeros of the integer itself
  (`TrimmedWithoutDecimalsIff`): a hundred tokens are shown as 1 (`HundredTrimsToOne`).
- Resuming a partial initialisation accepts an account with data as it is, whatever its size, and also
  when the system program still owns it (`InitReadyIff`, `InitKeepsWrongSize`).

## Model

| member | source | states |
|---|---|---|
| OrderMatching.GreedyBeatsSelection | bench-exchange/src/order_book.rs:120-133 | a greedy run that is full or has left nothing viable earns at least as much as any equally many asks and bids of the book, however they are paired |
| OrderMatching.GreedyIsOptimal | bench-exchange/src/bench.rs:426-432 | no set of at most `batch_size` disjoint ask/bid pairs of the book has a larger total spread than the drained swaps |
| OrderMatching.GreedyConserves | bench-exchange/src/bench.rs:426-432 | the drained asks and bids together with the remaining book are exactly the book before the drain |
| OrderMatching.RunConserves | bench-exchange/src/order_book.rs:98-118 | over any run of pushes and pops every order is accepted as often as it is popped or outstanding |
| OrderMatching.RunMonotone | bench-exchange/src/order_book.rs:16-41 | between pushes popped ask prices never fall, bid prices never rise and spreads never grow |
| OrderMatching.OrderBook.Push | bench-exchange/src/order_book.rs:98-109 | an ask enters the book if and only if tokens * price, taken modulo 2^64, is at least 1000, a bid with a price if and only if tokens * 1000, taken modulo 2^64, is at least the price; a bid at price zero divides by zero; otherwise the book is unchanged |
| OrderMatching.FittingTradeIff | programs/exchange/src/exchange_state.rs:189-209 | while the products fit 64 bits an order is tradeable if and only if its tokens are worth at least one scaled unit on the other side |
| OrderMatching.HugeAskRefused | programs/exchange/src/exchange_state.rs:189-209 | an ask whose product is exactly 2^64 wraps around to nothing and is refused |
| OrderMatching.OrderBook.Peek | bench-exchange/src/order_book.rs:16-41 | the two heap heads are a cheapest ask and a dearest bid, present exactly when both sides are nonempty |
| OrderMatching.OrderBook.Pop | bench-exchange/src/order_book.rs:110-133 | removes a cheapest ask and a dearest bid, or nothing exactly when no ask and bid of the book are viable |
| OrderMatching.OrderBook.GetNumOutstanding | bench-exchange/src/order_book.rs:116-118 | the sizes of the two sides |
| OrderMatching.Drain | bench-exchange/src/bench.rs:426-432 | the swaps are a greedy run of at most `batch_size` pairs (one if it is zero), stop only when full or when nothing is viable, and maximise total spread |
| Transfers.LandEffect | bench-exchange/src/bench.rs:736-745 | one multi-transfer transaction debits its source by all amounts and the fee, credits each recipient once and touches nobody else |
| Transfers.LandBalance | bench-exchange/src/bench.rs:736-745 | what landing does to every balance: all transfers and the fee, or the fee alone, or nothing if not even the fee is there |
| ExchangeFunding.SplitBalance | bench-exchange/src/bench.rs:713-721 | nested floor divisions are exact in units: equal whole shares go out and the source keeps one unit and the remainder; every intermediate result is a 64-bit integer |
| ExchangeFunding.FundFrom | bench-exchange/src/bench.rs:712-734 | a source serves the last min(unfunded, 4, spare) keys and its balance falls by exactly what they get |
| ExchangeFunding.PaymentKeepsBooks | bench-exchange/src/bench.rs:740-745 | a landed payment keeps the ledger equal to the books for listed, unfunded, finished and foreign keys alike |
| ExchangeFunding.TreatSource | bench-exchange/src/bench.rs:712-734 | treating one source keeps the unit balance, the books, the trail of payments and the shape of the round |
| ExchangeFunding.Round | bench-exchange/src/bench.rs:709-734 | after a round the spare units of all funded accounts again equal the number of unfunded keys, and the planned payments realise the books |
| ExchangeFunding.RoundAmounts | bench-exchange/src/bench.rs:712-748 | amounts never decrease along a round, so the first amount of a chunk bounds every later transfer from below |
| ExchangeFunding.RecipientKeeps | bench-exchange/src/bench.rs:676-693 | once its payment has landed a recipient holds at least the amount for the rest of the round |
| ExchangeFunding.LandRound | bench-exchange/src/bench.rs:736-802 | landing chunk by chunk applies every payment, and once a chunk has landed some recipient of each of its transactions holds the first amount of the chunk |
| ExchangeFunding.VerifyFundingTransferIff | bench-exchange/src/bench.rs:682-690 | the balance check passes if and only if some recipient holds the amount |
| ExchangeFunding.RetainUnverified | bench-exchange/src/bench.rs:778-782 | after a chunk has landed, exactly the transactions whose success is not reported yet stay outstanding |
| ExchangeFunding.Retain | bench-exchange/src/bench.rs:803-810 | dropping accounts loses no spare unit and no lamport, and leaves leftovers of at most three spare units followed by accounts of equal worth |
| ExchangeFunding.FundRound | bench-exchange/src/bench.rs:705-812 | every pass of the outer loop keeps all invariants, pays nondecreasing amounts, leaves fewer unfunded keys and takes the units of the sources to those of the next round |
| ExchangeFunding.NeverOutOfFunds | bench-exchange/src/bench.rs:706-708 | the panic for missing funded accounts is unreachable |
| ExchangeFunding.BalancesWithinTotal | bench-exchange/src/bench.rs:696-721 | every book balance lies between `lamports` and the total; every state between rounds keeps this |
| ExchangeFunding.FundKeys | bench-exchange/src/bench.rs:695-813 | terminates without leaving 64 bits; each destination is paid exactly once and gains exactly `lamports`, the source keeps exactly one share, all others are untouched; if nobody held anything but the source its total, no transaction of the run, resent in its own round or later, applies twice if and only if the number of destinations is replayable |
| ExchangeFunding.ReplayableIff | bench-exchange/src/bench.rs:713-721 | which numbers of keys are replayable: below four all but one; from four on those that leave no remainder of one, are not seven, and whose quarter less one is replayable |
| ExchangeFunding.ReplayableRound | bench-exchange/src/bench.rs:712-734 | the units of a round are replayable if and only if none is two or eight and those of the next round are |
| ExchangeFunding.RoundReplayIff | bench-exchange/src/bench.rs:747-801 | however the transactions of a round are signed again and resent, none applies twice, if and only if each costs more than half of what its source holds, its book balance and whatever it held before |
| ExchangeFunding.FreshRoundReplayIff | bench-exchange/src/bench.rs:747-801 | for sources that held nothing before, if and only if none has two or eight units |
| ExchangeFunding.RichSourcePaysTwice | bench-exchange/src/bench.rs:174-178 | a source that held its book balance before pays twice when its transaction is replayed |
| ExchangeFunding.SevenKeysPaidTwice | bench-exchange/src/bench.rs:747-801 | with seven keys to fund, the transaction that the first round plans applies twice when it is replayed |
| BenchTpsFunding.NeedClosedForm | bench-tps/src/bench.rs:683-714 | the funds of a node with h levels below it are lamports * (1 + ... + 4^h) + max_fee * (1 + ... + 4^(h-1)) |
| BenchTpsFunding.GenerateKeypairs | bench-tps/src/bench.rs:853-867 | the key count is 4 + 16 + ... + 4^d for the smallest depth that covers `count`, within four times `count`, with one extra fee per inner node |
| BenchTpsFunding.PlannedTotal | bench-tps/src/bench.rs:896-898 | the total computed up front is exactly what the root needs |
| BenchTpsFunding.QuarterIsExact | bench-tps/src/bench.rs:690 | each division by four leaves no remainder and gives a child exactly what its own subtree needs |
| BenchTpsFunding.LevelHasKeys | bench-tps/src/bench.rs:691-693 | before level j there are keys left exactly when j is below the depth, and then at least four per source, so draining never underflows |
| BenchTpsFunding.PaymentKeepsBooks | bench-tps/src/bench.rs:691-697 | a source that pays its four children keeps lamports + max_fee minus its fee, and each child gains its funds |
| BenchTpsFunding.PlanLevel | bench-tps/src/bench.rs:688-697 | a level drains exactly four keys per source from the end of the list and its payments realise the level's books |
| BenchTpsFunding.FundLevel | bench-tps/src/bench.rs:686-714 | level j with 4^j sources leads to level j + 1 with 4^(j+1) sources, each holding exactly what its subtree needs |
| BenchTpsFunding.FundKeys | bench-tps/src/bench.rs:675-715 | ends with 1 + 4 + ... + 4^(d-1) transactions, each applied in turn; every key is paid exactly once; leaves end with exactly lamports, inner nodes with lamports + max_fee minus their fee |
| BenchTpsFunding.GenerateAndFundKeypairs | bench-tps/src/bench.rs:869-924 | the truncated keys are the first `count`; funding is skipped if and only if both sampled keys hold four fifths; it fails if and only if it is not skipped, the funding key holds less than the total and the airdrop fails; otherwise each key gained between lamports and lamports + max_fee and the funding key ends with its excess, lamports and max_fee less its fee |
| BenchTpsFunding.VerifyFundingTransferIff | bench-tps/src/bench.rs:498-506 | the check passes if and only if the first recipient whose balance can be read holds the amount |
| Replays.AlwaysSolvent | bench-tps/src/bench.rs:528-559 | under any interleaving of resends a source applies at most once, and what it holds and has spent came from what it held and was paid, if two applications would cost more than all it ever gets |
| Replays.AtMostOnceIff | bench-tps/src/bench.rs:672-674 | when no payer is paid, replays apply at most once if and only if no source holds enough for two applications |
| Replays.OrderlyIff | bench-tps/src/bench.rs:672-714 | for any plan that can be carried out in order, replays of whatever age apply at most once if and only if no source holds and is paid enough for two applications |
| Replays.RoundSafeIff | bench-exchange/src/bench.rs:747-801 | with transactions of earlier rounds among the resends, no old one applies again and no new one twice, if and only if no old one can be paid for any more and no new one twice |
| Replays.RunSafeIff | bench-exchange/src/bench.rs:705-812 | over a whole run of rounds nothing applies a second time, if and only if no source of any round can pay twice out of what it then holds |
| Replays.AnyOrderLandsRound | bench-exchange/src/bench.rs:747-801 | in a safe round without fees, once each transaction was attempted, every balance is the same as if they had landed one by one, whatever their order and the replays |
| BenchTpsFunding.TreeReplayIff | bench-tps/src/bench.rs:672-714 | over the whole tree, however all its transactions are resent across levels and in any order, none applies twice, if and only if each costs more, with two fees, than the lamports, the largest fee and whatever its source held before |
| BenchTpsFunding.FreshTreeReplayIff | bench-tps/src/bench.rs:672-714 | if nobody held anything before, if and only if 3 * lamports + 2 * fee > max_fee |
| BenchTpsFunding.RichKeyPaysTwice | bench-tps/src/bench.rs:906-917 | a funding key that holds its payment and two fees more than the total can pay twice |
| BenchTpsFunding.ReplayPaysTwice | bench-tps/src/bench.rs:672-674 | in any planned tree with one lamport per key and an uncharged largest fee of three, the last transaction applies twice when it is replayed |
| BenchTpsFunding.LevelReplayIff | bench-tps/src/bench.rs:686-714 | in every state the funding loop reaches, the transactions of the level apply at most once if and only if 4 * amount + 2 * fee exceeds lamports + max_fee and whatever any source held before |
| BenchTpsFunding.FreshLevelReplayIff | bench-tps/src/bench.rs:686-714 | above the leaves, for sources that held nothing before, if and only if 3 * lamports + 2 * fee > max_fee |
| BenchTpsFunding.PassedMeansAppliedIff | bench-tps/src/bench.rs:498-506 | that a passed check means an applied transaction, whatever is resent, holds if and only if beforehand the first readable recipient did not hold the amount |
| BenchTpsFunding.OldBalancePasses | bench-tps/src/bench.rs:498-506 | a first recipient with an old balance passes without any transaction |
| RotatingTransfers.GenerateSystemTxs | bench-tps/src/bench.rs:328-349 | one transfer per zipped pair, in the direction the reclaim flag asks for |
| RotatingTransfers.RotateOnce | bench-tps/src/bench.rs:149-151 | rotating the deque once is the same as one more visit of the closed form |
| RotatingTransfers.VisitEffect | bench-tps/src/bench.rs:334-349 | landing a visit takes one lamport from every sender of the chunk, gives one to every receiver and touches nobody else |
| RotatingTransfers.Round | bench-tps/src/bench.rs:124-160 | each pass of the loop sends the pairs of its visit and moves to the next chunk, turning around after a full pass |
| RotatingTransfers.GenerateChunkedTransfers | bench-tps/src/bench.rs:109-161 | after any number of rounds every source is at its start balance or one below, every destination at its own or one above, and round r sent the closed-form pairs of its visit; after an even number of full passes every balance is back at its start |
| RotatingTransfers.PairReuseIff | bench-tps/src/bench.rs:149-151 | two visits in the same direction share a pair if and only if the chunk size divides the difference of their numbers |
| RotatingTransfers.RotationTooShort | bench-tps/src/bench.rs:149-151 | the next visit in the same direction repeats all pairs if and only if a chunk has at most two |
| RotatingTransfers.TwoPairsRepeat | bench-tps/src/bench.rs:149-151 | with two transfers per chunk the first and the third visit use the same pairs |
| CrateOrdering.LoadGraph | ci/order-crates-for-publishing.py:23-29 | the keys are the names in the metadata, ordered by their first entries; each has the manifest path and the `solana` dependencies of its last entry |
| CrateOrdering.DictionaryShape | ci/order-crates-for-publishing.py:23-29 | keys never repeat, and graph, manifests and key order have the same ones |
| CrateOrdering.DirectCycles | ci/order-crates-for-publishing.py:31-36 | reports exactly the pairs of packages, possibly equal, that depend on each other |
| CrateOrdering.LongChainReachesCycle | ci/order-crates-for-publishing.py:47-65 | a dependency chain with as many edges as there are packages runs into a cycle |
| CrateOrdering.StuckIffReachesCycle | ci/order-crates-for-publishing.py:47-65 | after n or more rounds the packages left are exactly those from which a cycle can be reached |
| CrateOrdering.CyclicIffStuck | ci/order-crates-for-publishing.py:47-65 | some package survives n rounds if and only if the graph has a cycle |
| CrateOrdering.ReadyPackages | ci/order-crates-for-publishing.py:55-63 | in dictionary order, exactly the packages whose longest chain has as many edges as rounds have passed |
| CrateOrdering.PeelLayer | ci/order-crates-for-publishing.py:48-65 | round k moves exactly the packages whose longest dependency chain has length k from the dictionary to the list |
| CrateOrdering.PeelLayers | ci/order-crates-for-publishing.py:44-68 | either all packages are placed in publishing order or the fuse blows with exactly the packages that have chains as long as the fuse |
| CrateOrdering.GetPackages | ci/order-crates-for-publishing.py:20-68 | succeeds if and only if the dependency graph is acyclic; the result is the publishing order, each name with the manifest path of its last metadata entry; an error names exactly the mutual pairs or the packages that reach a cycle |
| CrateOrdering.PublishedOnce | ci/order-crates-for-publishing.py:44-68 | the published list contains every package exactly once |
| CrateOrdering.PublishedBeforeIff | ci/order-crates-for-publishing.py:55-65 | one package is published before another if and only if its longest chain is shorter, or equally long and it is the older key |
| CrateOrdering.PublishedAfterDependencies | ci/order-crates-for-publishing.py:3-5 | a package is published after every dependency the graph knows about |
| CrateOrdering.RespectsAllIff | ci/order-crates-for-publishing.py:29 | all workspace dependencies come first if and only if those without the prefix happen to come first by chain length and dictionary place |
| CrateOrdering.PrefixLosesDependency | ci/order-crates-for-publishing.py:29 | a made-up workspace without cycles whose published list has a crate before its own workspace dependency |
| ProgramDeploy.BuildWrites | cli/src/program.rs:969-988 | write i carries the i-th chunk of 229 bytes, the last one perhaps fewer but at least one, at its 32-bit offset, and there are just enough writes |
| ProgramDeploy.LandAllAt | programs/bpf_loader/src/lib.rs:106-121 | after any faithful writes a position holds its program byte if some write covered it and its old byte otherwise |
| ProgramDeploy.AnyOrderWritesProgram | cli/src/program.rs:1120-1130 | in any order and with any repetition, writes that include each generated one leave the program in the buffer and every other byte untouched |
| ProgramDeploy.ConfirmedDeployWritesProgram | cli/src/program.rs:1295-1317 | when every write message counts as confirmed and each message reported confirmed was executed, the buffer holds the program |
| ProgramDeploy.WriteProgram | cli/src/program.rs:1295-1317 | end to end: if the confirmation loop succeeds on the generated writes, then in any buffer, and for any executions that include each message an answer reported confirmed, the program is in place and every other byte untouched |
| ProgramDeploy.InitRefusedIff | cli/src/program.rs:1203-1236 | the message is refused exactly for an executable account, else for a foreign owner, else for an unexpected balance of a system account, and asks for exactly the missing balance |
| ProgramDeploy.InitExecutes | cli/src/program.rs:1192-1238 | the initial message succeeds exactly when the payer can afford it and the size is permitted; the balance becomes max(old, minimum) at the payer's expense |
| ProgramDeploy.InitResumes | cli/src/program.rs:1192-1238 | calling again on the account that the executed message left asks for nothing, unless an empty account was to stay empty and owned by the system program |
| ProgramDeploy.InitReadyIff | cli/src/program.rs:1203-1218 | the account that the executed message left has the requested owner and length if and only if it was untouched or already had them |
| ProgramDeploy.InitKeepsWrongSize | cli/src/program.rs:1210-1218 | an account of ten bytes keeps them although twenty were asked for |
| ConfirmationLoop.ConfirmedIff | cli/src/program.rs:1453-1468 | a message counts as confirmed if and only if some answer in the log reported for one of its signings the level confirmed or finalized or, without a level, no confirmation count or one above 1 |
| ConfirmationLoop.FarEnoughIff | cli/src/program.rs:1456-1467 | the test on a status passes exactly for these statuses, and fails exactly for a missing one, for processed, and without a level for a count of at most 1 |
| ConfirmationLoop.ResignedOnlyAfterExpiry | cli/src/program.rs:1484-1527 | a new blockhash is asked for only right after an answered slot past the last valid slot of the signing in force |
| ConfirmationLoop.NothingSignedAgain | cli/src/program.rs:1480-1533 | if all queries are answered with statuses far enough along for all they ask, nothing is signed again |
| ConfirmationLoop.SigningInForce | cli/src/program.rs:1524-1533 | the signing in force is the latest one answered, or that of the input if none was |
| ConfirmationLoop.QuietAfterConfirmation | cli/src/program.rs:1456-1467 | a confirmed message is never sent, asked about or signed again |
| ConfirmationLoop.EveryRoundSends | cli/src/program.rs:1402-1420 | a message counted as sent in every round was sent after each start of a round and before the next one |
| ConfirmationLoop.AnswerAt | cli/src/program.rs:1372-1535 | the answers in the log are those of the RPC node, one per question and in its order |
| ConfirmationLoop.Confirmer.SendAll | cli/src/program.rs:1387-1441 | a round sends every unconfirmed message under the signing in force and makes exactly those pending; it stops only with a failed epoch query |
| ConfirmationLoop.Confirmer.DropConfirmed | cli/src/program.rs:1451-1468 | a signature stays pending if and only if no status at a place of the query that holds it is confirmed, finalized or, without a level, uncounted or counted above 1 |
| ConfirmationLoop.Confirmer.AskStatuses | cli/src/program.rs:1446-1469 | one query of at most 256 pending signatures: its answer decides which messages become confirmed, a failed one none |
| ConfirmationLoop.Confirmer.Poll | cli/src/program.rs:1444-1511 | asks about every pending signature exactly once; then nothing is pending, or the slot answered last is past the last valid slot, or everything pending is sent again, or the run stops; if all queries so far were answered with statuses far enough along for all they ask, nothing is pending |
| ConfirmationLoop.Confirmer.Resign | cli/src/program.rs:1519-1533 | gives up exactly without retries left; otherwise the pending messages, and no others, are signed with the blockhash and last valid slot just answered |
| ConfirmationLoop.PollUntilDecided | cli/src/program.rs:1443-1517 | the inner loop ends with nothing pending, or with something pending and the signing expired, or with a failed query, or where the answers end |
| ConfirmationLoop.SendAndConfirm | cli/src/program.rs:1372-1535 | every run, read off a permitted log of the answers given: success only if answers confirmed every message; failure only after exactly six rounds that each sent every message left, each of them asked about under the last signing, which has expired too; an RPC error if and only if the last answer was one; a run with input never succeeds on answers that only hold statuses not far enough along, and never fails or signs again if all queries are answered far enough along |
| RetryQueue.RetainAndCount | banks-server/src/send_transaction_service.rs:112-163 | keeps exactly the entries that are neither rooted nor past their last valid slot nor known to have failed, and sends exactly those of them that the working bank does not know, once each; each counter is the size of the set it is named after and the five sum to the old size |
| RetryQueue.JudgeIsFate | banks-server/src/send_transaction_service.rs:121-160 | which of the five fates an entry meets, in terms of the rooted signatures, the root slot and the statuses of the working bank |
| RetryQueue.KeptSize | banks-server/src/send_transaction_service.rs:119-160 | retried plus retained is the new size |
| RetryQueue.SendTransactionService.Accept | banks-server/src/send_transaction_service.rs:74-85 | sends the transaction once in any case, and queues or replaces its entry exactly while the queue has room |
| RetryQueue.SendTransactionService.ProcessTransactions | banks-server/src/send_transaction_service.rs:112-163 | after a sweep a signature is queued if and only if it was, is not rooted, has not expired and is not known to have failed; it is resent if and only if it is queued and unknown to the working bank; the counters are the sizes of these sets |
| RetryQueue.RunBounded | banks-server/src/send_transaction_service.rs:70-107 | over every run the queue never exceeds 10,000 entries |
| RetryQueue.LeavesOnlyWhenSettled | banks-server/src/send_transaction_service.rs:121-160 | a signature leaves only at a sweep whose banks have it rooted, a root past its last valid slot, or its failure |
| RetryQueue.SurvivorPassedEverySweep | banks-server/src/send_transaction_service.rs:121-160 | at every sweep since its acceptance a queued entry was not rooted, not expired and not known to have failed |
| RetryQueue.GoneAfterExpiry | banks-server/src/send_transaction_service.rs:127-131 | a sweep with a root past its last valid slot keeps a signature out until it is accepted anew |
| BlockProduction.EpochsTile | sdk/program/src/epoch_schedule.rs:78-138 | every epoch starts right after the last slot of the one before, through warmup and after it |
| BlockProduction.EpochLengths | sdk/program/src/epoch_schedule.rs:54-138 | the first epoch starts at slot 0; warmup epochs have 32 slots and then twice as many each time, later ones `slots_per_epoch` |
| BlockProduction.SlotWindow | cli/src/cluster_query.rs:1035-1083 | succeeds if and only if the epoch is not in the future and the ledger reaches back to the end, the smaller of the current slot and the last slot of the epoch; it starts at the largest of the first slot of the epoch, the oldest slot of the ledger and, with a limit, the end less the limit; each error carries its numbers, and no subtraction underflows |
| BlockProduction.SlotLimitHoldsIff | cli/src/cluster_query.rs:1048-1052 | the limit is respected if and only if no more slots are available, and is otherwise exceeded by one |
| BlockProduction.SlotLimitExceeded | cli/src/cluster_query.rs:300-303 | a window of two slots for a limit of one |
| BlockProduction.FillLeaders | cli/src/cluster_query.rs:1098-1107 | every slot shows a leader the schedule gives it, and a question mark exactly when there is none |
| BlockProduction.AdvanceCursor | cli/src/cluster_query.rs:1122-1145 | the cursor test agrees with membership among the confirmed blocks |
| BlockProduction.MergeStatuses | cli/src/cluster_query.rs:1114-1146 | one status per slot in order, skipped if and only if not confirmed, with per-leader counts of slots and skips |
| BlockProduction.LeaderEntries | cli/src/cluster_query.rs:1150-1162 | one entry per leader; blocks are slots minus skips without underflow |
| BlockProduction.Totals | cli/src/cluster_query.rs:1083-1086 | summed over all leaders, slots give the window and skips what the confirmed blocks leave of it |
| BlockProduction.ShowBlockProduction | cli/src/cluster_query.rs:1081-1174 | every leader of a slot has exactly one entry, which counts its slots and those of them without a confirmed block; per-leader slots, skips and blocks sum to the three totals, and the block count never exceeds the slots |
| TokenAmount.ParseDecimal | account-decoder/src/parse_token.rs:173 | parsing a printed 64-bit integer gives it back |
| TokenAmount.PrintsAmount | account-decoder/src/parse_token.rs:170-184 | a decoded amount prints as its numeral with that many decimals |
| TokenAmount.AnyAmountPrints | account-decoder/src/parse_token.rs:170-184 | with decimals, any amount string prints as the 64-bit number it spells, with or without a plus sign, and as zero if it spells none |
| TokenAmount.ReadPrint | account-decoder/src/parse_token.rs:170-184 | reading the printed numeral gives exactly the amount and the decimals, and it has no superfluous leading zero |
| TokenAmount.PrintInjective | account-decoder/src/parse_token.rs:170-184 | with the same decimals different amounts print differently |
| TokenAmount.PrintRead | account-decoder/src/parse_token.rs:170-184 | every canonical numeral is what its own value prints as |
| TokenAmount.TrimIsReduce | account-decoder/src/parse_token.rs:186-191 | trimming the string is dividing the number by ten while it ends in a fraction zero |
| TokenAmount.TrimmedKeepsValue | account-decoder/src/parse_token.rs:186-191 | with decimals the trimmed string is a canonical numeral of the same value |
| TokenAmount.TrimmedIsShortest | account-decoder/src/parse_token.rs:186-191 | it is the unique shortest canonical numeral of that value |
| TokenAmount.TrimmedWithoutDecimalsIff | account-decoder/src/parse_token.rs:186-191 | without decimals the value survives if and only if the amount is not divisible by ten |
| TokenAmount.HundredTrimsToOne | account-decoder/src/parse_token.rs:186-191 | an amount of 100 without decimals is trimmed to "1" |

## Left out

- RPC clients, sockets, threads, sleeps and timers: they appear only as inputs and as the cut-off points of runs.
- Signing failures, serialization, base58, base64, compression and ELF verification: external libraries.
- Floating-point code (`ui_amount` and the power of ten behind it, throughput statistics, inflation and rent display).
- Command-line parsing, table and JSON output, address labels: wide and shallow.
- The other account decoders: field-by-field copies.
- ExchangeFunding.LandRound: every transaction lands exactly once, in order, before its chunk is verified; that neither order nor resends matter in a safe round is AnyOrderLandsRound, and the ten-retry exit and the program account that the balance check also samples are not modelled.
- ExchangeFunding.RetainUnverified: whether the success of a transaction has been reported is an input.
- ExchangeFunding.FundKeys: destinations are distinct and differ from the source, as generated keys are; fees are zero.
- BenchTpsFunding.FundKeys: each transaction lands once within its level; the sampling of balances that decides on resends is not modelled, resends are treated separately by TreeReplayIff.
- RotatingTransfers.GenerateChunkedTransfers: all transfers land without fees before the next round; the split of transactions over sender threads and the dropping of old transactions are not modelled.
- The closing assertion of the swapper that the book is empty: it depends on timing.
- ProgramDeploy.AnyOrderWritesProgram: programs up to 2^32 bytes, beyond which offsets wrap; larger accounts cannot be allocated.
- ProgramDeploy.InitExecutes: the system program's checks that the payer carries no data and that the new owner is no sysvar are not modelled.
- ConfirmationLoop.SendAndConfirm: all input transactions carry the same blockhash, as the caller signs them; the answer of a round's first epoch query stands for the leader schedule query too; whether a confirmed transaction executed without error is not known to the loop, so ProgramDeploy.WriteProgram takes it as a hypothesis.
- BlockProduction.SlotWindow: epoch arithmetic beyond 64 bits is not modelled.
- BlockProduction.MergeStatuses: confirmed blocks come strictly increasing, as the RPC service promises.
- BlockProduction.LeaderEntries: the final sort of the entries by leader is not modelled.
- OrderMatching.OrderBook.Push: the asset pair and settled tokens of an order, which the book never reads, are not modelled.
