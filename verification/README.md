# The monero-oxide-output wallet: a verified model

A Dafny model of the wallet scan engine and the components around it, with proofs of what they promise.

The daemon may switch chains between any two calls, answer hash probes inconsistently, return fewer blocks
than asked, or fail; the process may be killed after any published checkpoint. The scan is compared with one
simple thing: `Scan.Fresh`, a single pass over one parent-linked chain from the restore height - and that pass
with what the chain itself says about every output (`OnePass.ScanTellsTheChain`).

| file | what it holds |
|---|---|
| `Chain`, `Seqs`, `Money`, `Sums` | blocks, outputs, consensus validity; partial maps over sequences; saturating sums |
| `Scan` | what one block does to the working state, what a rewind takes back, the fresh scan |
| `Rewinding`, `Cores`, `Replay` | rewind undoes scanning; coverage replay refines a fresh scan |
| `OnePass`, `Spenders`, `Origins`, `ChangeGuess`, `Stamps`, `Registration` | the fresh scan against the blocks themselves: outputs, spends, spending transactions, timestamps, watched subaddresses |
| `RecentHashes`, `RecentWindow` | the bounded hash window and fork location |
| `Engine` | one refresh and whole runs against an arbitrary daemon; the safety theorem |
| `CatchUp`, `Retries` | progress: a truthful daemon brings the wallet to its tip; how often an unclear answer is asked for again |
| `Each` | properties of single outputs that every refresh keeps, sealed or not |
| `InStep`, `WholeRuns` | view-only refreshes and sends shadowed by a plain wallet; runs of every kind, and when what they leave is one chain's |
| `Limits`, `Genesis`, `Gaps`, `Sends` | where the guarantee stops: for each situation a run that loses it, and the exact condition |
| `Samples` | the few blocks those runs are made of |
| `Sealing` | view-only scans, the rescan marker, unsealing and process death on one chain |
| `SealedReplay` | where the marker does not help: sealed replays, and wallets sealed for longer than the hash window |
| `ScanLoop`, `ParallelScan`, `Prefetch`, `RefreshLoop` | the scan as the program runs it: an object updated in place by loops, proved to do what `Scan` and `Engine` say |
| `Ledger`, `LedgerRows`, `LedgerBuild`, `Settling`, `Checkpoints` | the transfer ledger declaratively, row by row from the outputs, rebuilt by loops over hash maps, under repeated checkpoints, and over whole runs |
| `WalletStore`, `StoredWallet` | the stored wallet object and every mutator; what they do to the scan state are the steps of `WholeRuns` |
| `History`, `HistoryRows` | sorted, filtered, paged history and its cached index; what it lists, from the outputs and pending sends |
| `Epee` | the budgeted portable-storage skipper |
| `FeePreview` | the input selection loop of the fee preview |
| `Exclusion` | refresh, mutators, lifecycle operations and cancellation as interleaved steps |

`dafny verify dfyconfig.toml` checks all of it.

## Hypotheses

- Every block a daemon ever serves is consensus-valid, on whatever chain it lies: along one chain an output is
  created once, spent at most once and only in a later block than its own; an outpoint always names the same
  output; no two outpoints share a one-time key or a key image; a miner transaction spends nothing
  (`Chain.GoodFacts`, `Chain.GoodBlock`, `Chain.Consensus`).
- The ownership scan is a deterministic function of a block and the registered subaddresses, and the key image a
  function of the output. Both are parameters of the blocks.
- A run keeps to `Engine.OpOk` and `Engine.EventOk`, in `WholeRuns` to `WholeRuns.HoldOk`: neither a lagging daemon nor
  a manual rewind lowers the cursor out of the hash window; opening an open wallet again does not lower its restore
  height; an imported cache reaches the open wallet's restore height unless its scan starts over; coverage does not grow
  while the restore height is 0 and the hashes of block 0 and its successor are retained; blocks fetched one by one build
  on each other; and an unseal does not rewind out of the window. `Limits`, `Genesis`, `Gaps` and `SealedReplay` hold, for
  each of these, a run that loses the guarantee without it and the exact condition under which the code is right.
- The runs of `Engine` are of scans alone. Sends and sweeps, seals and unseals are steps of `WholeRuns`, where nothing
  else is assumed of them: they are what a wallet may fail to be one chain's for, and the theorems say exactly when.
- `spending_txid` is kept once set, so what a coverage replay is compared on is everything but that id; and a replay
  keeps known outputs where they are, so it is compared as a set.

## Findings

Behaviour of the code that differs from what its comments or documentation suggest; each is a lemma.

- The one-by-one fetch used when a daemon refuses batches checks no link between the blocks it collects, so a chain
  switch inside such a batch is published as if it were one chain (`Limits.OneByOneMixesChains`,
  `Limits.OneByOneIsSafeIffLinked`).
- A daemon reporting a height below the hash window, or a manual rewind to or below the window's start, makes the next
  parent check vacuous, and blocks of two chains are published as one (`Limits.LaggingDaemonMixesChains`,
  `Limits.ManualRewindMixesChains`; exactly when: `Limits.ClampIsSafeIff`, `Limits.ManualRewindIsSafeIff`).
- With restore height 0 and a retained window, block 0's parent is compared with block 0's own hash: after coverage
  growth a refresh against a daemon on the retained chain gets nowhere (`Genesis.GenesisRefreshIsStuck`), and, when it
  changes chain at the wrong moment, jumps to the fork past unscanned blocks (`Genesis.GenesisRunSkipsPayment`; harmless
  exactly when those blocks hold nothing for the new addresses: `Genesis.JumpSafeIff`, `Genesis.GenesisSafeIff`).
- Opening an open wallet with a lower restore height keeps its cursor, so the new heights are never scanned
  (`Gaps.ReopenSkipsPayment`); so does importing a cache that ends below the open wallet's restore height
  (`Gaps.ImportSkipsPayment`).
- Resetting the tracked outputs leaves the cursor in place, so the outputs are not found again
  (`Limits.ResetForgetsPayment`, `Limits.ResetForgetsIff`).
- A sealed coverage replay that relocates a known output does not lower the rescan marker, so a wallet can be unsealed
  and still hold an output without a key image (`SealedReplay.UnsealedYetBlind`, `Sealing.MarkerStaysIff`; exactly
  when an unseal is good: `WholeRuns.UnsealedExplainedIff`).
- An unseal whose marker has fallen out of the hash window makes the next parent check vacuous. It happens to every wallet
  that, while sealed, scans 4096 blocks past a first find above its restore height (`SealedReplay.LongLookLosesMarker`,
  `SealedReplay.UnsealKeepsChainIff`).
- Sends and sweeps mark their inputs spent without a height, and neither a rewind nor a replay takes such a mark back: the
  wallet is no chain's until a block with the spend comes, and stays so if none does (`Sends.SentIsUnexplained`,
  `Sends.SendExplainedIff`, `WholeRuns.ShownExplainedIff`, `Sends.MinedIsClean`).
- For the same reason the next checkpoint takes their pending record for settled although no block contains the
  transaction (`Settling.SweptPendingIsDropped`); a second identical checkpoint can change the ledger
  (`Settling.SecondCheckpointChangesNothingIff`).
- A sweep whose inputs were spent in the meantime debits the total twice (`WalletStore.SweepTotalIsExactIff`).
- The fee preview can give up although the funds suffice (`FeePreview.ThirtyCoins`, `FeePreview.GivesUpIff`).
- An unseal that has finished clears the cancel flag outside the registry lock and can erase a cancellation meant for a
  refresh that started in between (`Exclusion.LateUnsealLosesCancellation`; possible exactly while such an unseal is
  pending: `Exclusion.CancellationLostIff`).
- The range-mismatch branch of the prefetch queue is never taken (`Prefetch.FrontTile`).

## Model

| member | source | states |
|---|---|---|
| Chain.ReconcileImages | monero-oxide-output/src/ffi/refresh.rs:3171-3182 | the image set a replayed height is reconciled with is exactly the set of images the block spends, with or without a miner transaction in front of the decoded list |
| Rewinding.SightingsMark | monero-oxide-output/src/ffi/refresh.rs:3184-3420 | spend detection touches only outputs whose key image was seen, and only their spend record |
| Rewinding.ReceiveAppends | monero-oxide-output/src/ffi/refresh.rs:3552-3646 | receiving outputs nobody has seen only appends, in the order found |
| Rewinding.RewindUndoesScan | monero-oxide-output/src/lib.rs:1386-1429 | rewinding the scan of a chain to a height gives the very output sequence, spend records, timestamps, marker and cursor of scanning only that far |
| Rewinding.RewindComposes | monero-oxide-output/src/lib.rs:1386-1429 | a rewind followed by a deeper one is the deeper one, for any working state |
| Rewinding.RewindOutputsCompose | monero-oxide-output/src/lib.rs:1394-1410 | in either order two rewinds keep what the deeper one keeps |
| Rewinding.ReorgIsFreshScan | monero-oxide-output/src/ffi/refresh.rs:2811-2870 | scan chain a, rewind to the fork, scan the rest of chain b: the result is the one-pass scan of b |
| Rewinding.ApplyBlocksSplit | monero-oxide-output/src/ffi/refresh.rs:3098-3127 | however the blocks are split into batches, the result is the block-by-block fold |
| Rewinding.SameScan | monero-oxide-output/src/ffi/refresh.rs:3127-3691 | on one chain neither the retained window nor the replay heights influence what is found |
| RecentHashes.WindowIsLastHashes | monero-oxide-output/src/lib.rs:1255-1333 | after any run of pushes and rewinds every lookup is the last hash pushed at that height, nothing lies above the latest push, at most 4096 are kept |
| RecentWindow.WindowKeepsExactly | monero-oxide-output/src/lib.rs:1255-1333 | which hashes are kept, exactly: appends, duplicates, overlaps, gaps, pushes below the start, cuts; contiguous, none missing |
| RecentWindow.ScanKeepsLastHashes | monero-oxide-output/src/ffi/refresh.rs:3149-3157 | a scan keeps the hashes of exactly the last 4096 blocks of its chain |
| RecentHashes.LocatedHeight | monero-oxide-output/src/lib.rs:1350-1384 | a located height is inside the window or the restore height, and after the rewind the window's last entry sits right below it |
| RecentHashes.ForkIsExact | monero-oxide-output/src/lib.rs:1350-1384 | against a daemon on one chain: no fork is reported exactly when the whole window agrees, else the entries below the located height are precisely the shared ones |
| RecentHashes.FindReorgRewindHeight | monero-oxide-output/src/lib.rs:1350-1384 | the downward loop computes the fork search, errors included |
| RecentHashes.ResumeNeverIgnoresFork | monero-oxide-output/src/ffi/refresh.rs:2072-2103 | the resume decision never keeps the cursor when a fork was found, even while the cursor is back at the restore height |
| Replay.ReplayStep | monero-oxide-output/src/ffi/refresh.rs:5252-5265 | one replayed block keeps: rewinding the state to the cursor is the fresh scan entry by entry, leftovers lie only at heights still to be reconciled |
| Replay.NoLeftovers | monero-oxide-output/src/ffi/refresh.rs:1924-1930 | once every retained height is passed nothing of the old history is left |
| Replay.CoverageReplayIsFreshScan | monero-oxide-output/src/ffi/refresh.rs:3171-3182 | retained history of any other chain and a smaller gap limit, scanned again from the restore height, ends in exactly the outputs, heights and spends of a fresh scan of the new chain at the larger limit |
| Replay.AgreesGrown | monero-oxide-output/src/lib.rs:4097-4109 | growing coverage and dropping the cursor leaves a state the replay can start from |
| Engine.PassKeeps | monero-oxide-output/src/ffi/refresh.rs:2140-3868 | every pass of the loop - cancel, failure, retry, short response, parent match, fork rewind, abort - leaves a state explained by one parent-linked chain |
| Engine.CommitSafe | monero-oxide-output/src/ffi/refresh.rs:160-225 | a checkpoint publishes only states explained by one chain |
| Engine.LoopSafe | monero-oxide-output/src/ffi/refresh.rs:2140-3925 | everything the loop publishes is so explained; a partly applied batch is never among it |
| Engine.RefreshSafe | monero-oxide-output/src/ffi/refresh.rs:1905-4079 | the same for a whole refresh: progress mark, resume probe and rewind, loop, final commit |
| Engine.SafeMeansOneChain | monero-oxide-output/src/ffi/refresh.rs:3868-3888 | a safe wallet's content below `last_scanned` is exactly the one-pass scan of one parent-linked run of served blocks from the restore height |
| Engine.WholeRunSafe | monero-oxide-output/src/ffi/refresh.rs:2140-3925 | after any sequence of refreshes cut off anywhere, coverage growth, rewinds, rescans, opening anew or again, exports and imports, from any restore height, the open wallet and every cache ever exported are explained by one chain each |
| CatchUp.RefreshCatchesUp | monero-oxide-output/src/ffi/refresh.rs:1905-4079 | a refresh against a daemon that stays on one chain and answers truthfully, whatever chain the wallet was on and whatever it retains: the last wallet published stands at the daemon's tip and the daemon's chain explains it |
| CatchUp.LoopCatchesUp | monero-oxide-output/src/ffi/refresh.rs:2140-3925 | the same for the loop alone, also when the chain changed after the resume probe: one answer for the fork, one for each block at most |
| CatchUp.ForkPass | monero-oxide-output/src/ffi/refresh.rs:2795-2870 | the first truthful answer after a fork rewinds to just what the chains share |
| Retries.RetriesGoOn | monero-oxide-output/src/ffi/refresh.rs:450-463 | up to three consecutive mismatching parents that the fork search cannot explain change neither the state nor what is published; the loop goes on |
| Retries.FourthGivesUp | monero-oxide-output/src/ffi/refresh.rs:450-463 | the fourth in a row ends the refresh without publishing anything more |
| Retries.RetryBudgetIff | monero-oxide-output/src/ffi/refresh.rs:2808-2926 | a run of them followed by a response that settles the matter publishes what that response and the rest publish by themselves exactly when there were at most three |
| Retries.CutOff | monero-oxide-output/src/ffi/refresh.rs:2140-3925 | a cancellation or failed fetch at any point of a run: exactly what was published until then stays published |
| Retries.RetriedFetch | monero-oxide-output/src/ffi/refresh.rs:2140-3925 | a retried fetch at any point of a run leaves no trace in what is published |
| Retries.InterruptedBatch | monero-oxide-output/src/ffi/refresh.rs:2140-3925 | nothing of a response that is malformed, or interrupted while it is scanned, is published, nor anything after it |
| Each.PublishesAll | monero-oxide-output/src/ffi/refresh.rs:1905-4079 | whatever the daemon does, a property of single outputs that no spend, move, find, rewind or guessed spender breaks holds throughout everything a refresh publishes, sealed or not |
| InStep.RefreshInStep | monero-oxide-output/src/ffi/refresh.rs:1905-4079 | whatever the daemon does, a refresh of a wallet with blind outputs or open sends, view-only or not, publishes what a plain wallet's refresh of the same answers would, but for those key images and spends |
| WholeRuns.RunExplainedIff | monero-oxide-output/src/lib.rs:2711-2716 | after any run of refreshes and view-only refreshes, seals, unseals, growth, rewinds, sends, caches and process death, the open wallet and every cache is explained by one chain exactly when every output has its key image and every spend its height |
| WholeRuns.ShownExplainedIff | monero-oxide-output/src/ffi/refresh.rs:3868-3888 | looking below the cursor only: what the wallet shows is one chain's exactly when every output below the cursor has its key image and, if marked spent, its spending height |
| WholeRuns.UnsealedExplainedIff | monero-oxide-output/src/lib.rs:3571-3624 | unsealing after any such run, exports and imports of sealed caches included: the wallet is explained by one chain exactly when the marker covers every output without a key image and every spend without a height |
| WholeRuns.CleanIsSafe | monero-oxide-output/src/lib.rs:3571-3624 | after any such run a wallet without a marker is safe for all further runs exactly when it is clean |
| WholeRuns.SteadyRunExplainedIff | monero-oxide-output/src/lib.rs:3571-3624 | as long as a sealed wallet's coverage does not grow and no daemon is behind what it scanned, the unsealed wallet has every key image, and is explained by one chain exactly when every spend has its height |
| WholeRuns.SteadyUnspentRunExplained | monero-oxide-output/src/lib.rs:3571-3624 | without sends such a run, sealed and unsealed any number of times across any reorganisations, always ends explained by one chain |
| WholeRuns.RunAll | monero-oxide-output/src/ffi/refresh.rs:1905-4079 | a property of single outputs that no step on one output breaks holds throughout every run, with nothing asked of the daemon's timing |
| Sends.SendExplainedIff | monero-oxide-output/src/lib.rs:2711-2716 | a send leaves a safe wallet explained by a chain exactly when it marks nothing that was unspent |
| Sends.SentIsUnexplained | monero-oxide-output/src/ffi/send.rs:2030-2050 | a wallet scans the block that pays it and sends the payment on: explained before, explained by no chain after |
| Sends.MinedIsClean | monero-oxide-output/src/ffi/refresh.rs:3184-3420 | a block that spends every output left without a height makes the wallet clean again |
| OnePass.ScanTellsTheChain | monero-oxide-output/src/ffi/refresh.rs:3127-3691 | the fresh scan, said without scanning: an output is there exactly when a block of the chain creates it for a watched address, at that block's height, and spent exactly when and where a block spends its key image |
| OnePass.SafeWalletTellsItsChain | monero-oxide-output/src/ffi/refresh.rs:3868-3888 | what any published wallet shows below its cursor is what one chain of served blocks says, output by output |
| OnePass.AgreesIffTold | monero-oxide-output/src/ffi/refresh.rs:3127-3691 | a state agrees with the scan of a chain exactly when every entry is what the chain says of that output |
| Spenders.SpendIsPaired | monero-oxide-output/src/ffi/refresh.rs:3191-3404 | from the inputs of the block alone: an output no input names is untouched; any other is spent at this height, by the miner transaction if that has its image, by the transaction recorded before, or by the one whose id stands at the place of the first decoded transaction, the miner's left out, that has it - and by none when the id list is shorter |
| Spenders.BlockNamesSpender | monero-oxide-output/src/ffi/refresh.rs:3127-3691 | the same through a whole block: afterwards the id is that one, or was guessed for a spend the block names nobody for |
| Spenders.SpendsIff | monero-oxide-output/src/ffi/refresh.rs:3191-3404 | a block spends a key image exactly when one of its inputs has it |
| Origins.ScanNamesItsChain | monero-oxide-output/src/ffi/refresh.rs:3184-3420 | every transaction id a scan records - receiver, spender, or spender guessed from change - is one of the block at the recorded height, and where the inputs of the block name one transaction for a key image that is the one recorded |
| ChangeGuess.GuessIff | monero-oxide-output/src/ffi/refresh.rs:3649-3681 | spends of a height nobody is named for go to the only transaction that pays the wallet there, none of whose outputs they are, and that returns something but less than they are worth; to nobody when there is none or more than one; nothing else moves |
| Stamps.StampsTellTheChain | monero-oxide-output/src/ffi/refresh.rs:3682-3689 | the timestamps of a scan: a height has one exactly when its block has a time and pays a watched address or spends what a lower block of the chain paid to one |
| Registration.RegisterScanSubaddresses | monero-oxide-output/src/ffi/refresh.rs:5239-5250 | refused beyond 100000 registrations; else the scanner watches exactly what the coverage covers and the count is the number registered |
| Gaps.AgreesPrefixedIff | monero-oxide-output/src/ffi/refresh.rs:3127-3691 | a state agrees with a chain put in front by unscanned blocks exactly when it agrees with the rest and those blocks pay no watched address |
| Gaps.ReopenExplainedIff | monero-oxide-output/src/lib.rs:3985-4005 | an open wallet opened again is explained by one chain exactly when its restore height is not lowered, or a linked run of served blocks over the new heights holds nothing for it |
| Gaps.ReopenSkipsPayment | monero-oxide-output/src/lib.rs:3985-4005 | a wallet opened at height 2 and again at height 1, paid in block 1: no chain explains it |
| Gaps.AgreesContinuedIff | monero-oxide-output/src/ffi/refresh.rs:3127-3691 | a state agrees with a chain continued by unscanned blocks exactly when it agrees with the chain and retains just what those blocks say |
| Gaps.ImportExplainedIff | monero-oxide-output/src/ffi/cache.rs:119-132 | an imported wallet is explained by one chain exactly when the cache reaches the open restore height, or coverage has to grow, or the skipped blocks of some continuation say just what the cache retains there |
| Gaps.SettledRetainsIff | monero-oxide-output/src/ffi/cache.rs:119-132 | for a cache without retained history that is: the skipped blocks pay no watched address and spend none of its outputs |
| Gaps.ImportSkipsPayment | monero-oxide-output/src/lib.rs:3541-3561 | an empty cache from height 1 imported into a wallet restored from height 2, paid in block 1: no chain explains it |
| Engine.ImportCovers | monero-oxide-output/src/ffi/cache.rs:119-132 | an import widens coverage just so far that it reaches what the cache, the open wallet and the outputs found need |
| Limits.OneByOneIsSafeIffLinked | monero-oxide-output/src/ffi/refresh.rs:285-302 | a batch fetched one by one leaves any one chain of served blocks behind exactly when its blocks happen to build on each other |
| Limits.OneByOneMixesChains | monero-oxide-output/src/ffi/refresh.rs:285-302 | a refresh that publishes a batch of two chains, explained by no chain, which a range response would have refused |
| Limits.ClampIsSafeIff | monero-oxide-output/src/ffi/refresh.rs:206-211 | after a commit against a daemon of some height, every accepted next batch of every daemon that has the chain leaves one chain behind exactly when that height did not fall below the window |
| Limits.ScannedTwoIsReached | monero-oxide-output/src/lib.rs:3985-4005 | opened at height 2, scanned and opened again at height 1: a safe wallet that retains only the hash of block 2 |
| Limits.LaggingDaemonMixesChains | monero-oxide-output/src/ffi/refresh.rs:206-211 | from there two refreshes, the first against a lagging daemon, publish a wallet no chain explains |
| Limits.ManualRewindIsSafeIff | monero-oxide-output/src/lib.rs:4298-4316 | the same for a manual rewind: exactly when it stays inside the window or goes all the way |
| Limits.ManualRewindMixesChains | monero-oxide-output/src/lib.rs:4298-4316 | from there a manual rewind and one refresh publish a wallet no chain explains |
| Genesis.GrownScanProceedsIff | monero-oxide-output/src/ffi/refresh.rs:2795-2826 | after coverage growth a valid batch of a daemon confirming the retained tip is applied exactly unless the restore height is 0 and the hash of block 0 is retained |
| Genesis.AgreesWiderIff | monero-oxide-output/src/lib.rs:4097-4109 | a state that agrees with the scan of a chain agrees with its scan at a wider coverage exactly when the chain holds nothing for the addresses that are new |
| Genesis.JumpSafeIff | monero-oxide-output/src/ffi/refresh.rs:2811-2870 | after growth at restore height 0 a jump to a retained height leaves a safe wallet exactly when the skipped blocks hold nothing for the addresses that are new |
| Genesis.GenesisSafeIff | monero-oxide-output/src/ffi/refresh.rs:2811-2870 | whatever a daemon answers to the fork search, the committed wallet is safe, exactly when no retained block but the newest holds anything for the addresses that are new |
| Genesis.GenesisPassCases | monero-oxide-output/src/ffi/refresh.rs:2795-2870 | a pass there stops, changes nothing, or rewinds to a retained height below the newest |
| Genesis.GenesisRefreshIsStuck | monero-oxide-output/src/ffi/refresh.rs:2795-2826 | in that case a refresh publishes its progress mark and nothing else, whatever else a daemon confirming the tip does |
| Genesis.GenesisRunSkipsPayment | monero-oxide-output/src/ffi/refresh.rs:2811-2870 | scan, growth and a refresh across a chain change publish a wallet past block 0 that misses its payment |
| Limits.ResetForgetsIff | monero-oxide-output/src/lib.rs:4478-4504 | after a reset the wallet still matches its chain exactly when none of its outputs lay below the cursor |
| Limits.ResetForgetsPayment | monero-oxide-output/src/lib.rs:4478-4504 | a wallet with one output, reset: no chain explains it |
| Limits.SettledWalletIsFreshScan | monero-oxide-output/src/ffi/refresh.rs:1924-1930 | a wallet with no retained history at or above its cursor is the fresh scan as a whole |
| Limits.CoverageNeverShrinks | monero-oxide-output/src/lib.rs:4097-4109 | no refresh, growth, rewind, rescan, opening again, export or import narrows the open wallet's coverage |
| Limits.BatchCommitIsNeverClamped | monero-oxide-output/src/ffi/refresh.rs:3868-3888 | a batch is committed at exactly the height after its last block, however short the response; the clamp never acts inside the loop |
| Limits.ProgressMark | monero-oxide-output/src/ffi/refresh.rs:1906-1914 | the mark a refresh starts with touches the cursor only: kept between restore and daemon height, raised to the restore height, or taken back to a lower daemon |
| Sealing.MarkerStep | monero-oxide-output/src/ffi/refresh.rs:3602-3621 | one sealed block moves the marker exactly when it finds something new, to the lowest such height |
| Sealing.FaithfulStep | monero-oxide-output/src/ffi/refresh.rs:3552-3646 | one block, sealed or not, keeps the state equal to an unsealed scan below the marker |
| Sealing.FaithfulRewound | monero-oxide-output/src/lib.rs:1386-1429 | a rewind keeps that, whether or not it passes the marker |
| Sealing.FaithfulUnsealed | monero-oxide-output/src/lib.rs:3571-3591 | the pending rescan leaves exactly an unsealed scan up to the marker, no output without a key image |
| Sealing.MarkerCoversBlindOutputs | monero-oxide-output/src/ffi/refresh.rs:3602-3621 | in every reachable state each output without a key image lies at or above the marker, and an unsealed wallet has none |
| Sealing.SealingIsInvisible | monero-oxide-output/src/lib.rs:3593-3624 | any interleaving of scans, seals, view-only scans, unseals, rewinds and process deaths on a fixed chain, then unsealing and scanning to the tip, gives the outputs, spends and timestamps of an always-unsealed scan |
| Sealing.CursorWithinChain | monero-oxide-output/src/lib.rs:3571-3582 | the cleanup rewind never moves the cursor past what was scanned |
| Sealing.MarkerStaysIff | monero-oxide-output/src/ffi/refresh.rs:922-947 | from any state whose marker covers its blind outputs, a sealed receive keeps that exactly when the marker is not above the height, or something new is found, or no blind output is found again |
| Sealing.UnsealLeavesBlindIff | monero-oxide-output/src/lib.rs:3571-3591 | unsealing leaves an output without a key image behind exactly when one lies below the height the rescan rewinds to, wherever the marker is |
| SealedReplay.UnsealOutOfWindow | monero-oxide-output/src/lib.rs:3571-3591 | after an unseal to a marker out of the window, for every chain some daemon that has it gets a batch accepted that leaves no chain behind |
| SealedReplay.UnsealKeepsChainIff | monero-oxide-output/src/lib.rs:3571-3591 | after any run, an unseal that leaves a clean wallet leaves one that takes only batches of one chain exactly when the marker has not fallen out of the window |
| SealedReplay.MarkerIsFirstFind | monero-oxide-output/src/ffi/refresh.rs:3602-3621 | a view-only scan leaves the marker at the first height the chain pays a watched address, and none without such a height |
| SealedReplay.LongLookLosesMarker | monero-oxide-output/src/lib.rs:3571-3591 | a new wallet that looks once, sealed, at any chain: the marker is its first find, and has fallen out of the window exactly when that lies above the restore height and at least 4096 blocks back; unsealing then leaves a wallet that can lose its chain |
| SealedReplay.UnsealedYetBlind | monero-oxide-output/src/ffi/refresh.rs:935-947 | sealed find, growth, reorganisation, sealed replay, unseal: an unsealed wallet without a marker that holds an output without a key image and that no chain explains |
| ParallelScan.ScanOrdered | monero-oxide-output/src/ffi/refresh.rs:657-687 | chunks scanned in any order and flattened in input order give the serial result for every block |
| ParallelScan.ChunksFitWorkers | monero-oxide-output/src/ffi/refresh.rs:657-687 | no more chunks than workers, none of them empty |
| ScanLoop.IndexImages | monero-oxide-output/src/ffi/refresh.rs:3184-3190 | the key-image index maps each image to the first output carrying it and leaves out absent images |
| ScanLoop.WorkingState.PushRecentBlockHash | monero-oxide-output/src/lib.rs:1255-1309 | the in-place window push is the specified one |
| ScanLoop.WorkingState.RewindTo | monero-oxide-output/src/lib.rs:1386-1429 | the in-place rewind is the specified one and keeps seen outpoints, distinct outpoints and distinct keys |
| ScanLoop.WorkingState.ReconcileReplayedHeight | monero-oxide-output/src/ffi/refresh.rs:5252-5265 | the `retain_mut` loop keeps outputs, seen outpoints and key set in step |
| ScanLoop.WorkingState.MarkSpends | monero-oxide-output/src/ffi/refresh.rs:3184-3420 | index once, mark every sighting in order; outpoints and keys do not move |
| ScanLoop.WorkingState.ReceiveOutput | monero-oxide-output/src/ffi/refresh.rs:922-930 | a known outpoint only moves, a known one-time key is refused, anything else is tracked |
| ScanLoop.WorkingState.RelocateReplayedOutput | monero-oxide-output/src/ffi/refresh.rs:935-947 | only the height changes, an error exactly when the key differs |
| ScanLoop.FindChangeTransaction | monero-oxide-output/src/ffi/refresh.rs:3649-3681 | returns a transaction exactly when it is the only possible change of the height's anonymous spends, whatever the set order |
| ScanLoop.WorkingState.AttributeSpends | monero-oxide-output/src/ffi/refresh.rs:3649-3681 | gives exactly those spends that transaction id |
| ScanLoop.WorkingState.ScanBlock | monero-oxide-output/src/ffi/refresh.rs:3127-3691 | one block in place is the specified block step, failing exactly when it fails |
| ScanLoop.WorkingState.ScanBatch | monero-oxide-output/src/ffi/refresh.rs:3098-3692 | one response in place is the serial fold of its blocks, the cursor moving by their number |
| RefreshLoop.ValidateRangeBlocks | monero-oxide-output/src/ffi/refresh.rs:902-920 | accepts exactly consecutively numbered blocks, each on its predecessor, block 0 on the zero hash |
| RefreshLoop.ValidateResponse | monero-oxide-output/src/ffi/refresh.rs:285-302 | what each fetch path lets through |
| RefreshLoop.HandleResponse | monero-oxide-output/src/ffi/refresh.rs:2795-2926 | parent check, then rewind, retry, abort or scan, in place |
| RefreshLoop.RunLoop | monero-oxide-output/src/ffi/refresh.rs:2140-3925 | the loop publishes exactly the checkpoints of the specification |
| RefreshLoop.RefreshWallet | monero-oxide-output/src/ffi/refresh.rs:1905-4079 | so does a whole refresh, from progress mark to final commit |
| Prefetch.TilingGrows | monero-oxide-output/src/ffi/refresh.rs:2955-3022 | the next speculative range starts where the queued ones end |
| Prefetch.FrontTile | monero-oxide-output/src/ffi/refresh.rs:2229-2260 | the queue front of an aligned pipeline is exactly the range the loop asks for: from the cursor, a batch or what is left to the tip |
| Prefetch.Fetch | monero-oxide-output/src/ffi/refresh.rs:902-920 | an answer is used exactly when it is linked, starts where the range does and is no longer than it |
| Prefetch.Pipeline.Take | monero-oxide-output/src/ffi/refresh.rs:2229-2260 | a hit exactly on the wanted range; a mismatch drops everything speculative |
| Prefetch.Pipeline.Deepen | monero-oxide-output/src/ffi/refresh.rs:2955-3022 | requests continue the queue without a gap until it is deep enough or reaches the tip |
| Prefetch.Pipeline.Drain | monero-oxide-output/src/ffi/refresh.rs:3808-3864 | one request in flight is waited for if no answer is queued: it becomes the front, or its failure drops the rest |
| Prefetch.Pipeline.Follow | monero-oxide-output/src/ffi/refresh.rs:2827-2926 | continue appends the batch, a rewind keeps what lies below its height, retry and abort change nothing; each leaves the pipeline aligned at the next height, the speculation dropped unless the batch is used |
| Prefetch.Pipeline.Gather | monero-oxide-output/src/ffi/refresh.rs:2195-3022 | whatever the daemon answers, however deep the speculation, whatever the parent check decides: the blocks that stay scanned are consecutive heights up to the cursor, each once, each from an answer to a range asked for; with a steady daemon they are those of the loop without any speculation |
| Sums.SumPermuted | monero-oxide-output/src/lib.rs:2998-3016 | an amount sum over the outputs does not depend on their order |
| Sums.SumByOwner | monero-oxide-output/src/lib.rs:2998-3016 | summing per transaction and then over transactions is summing once |
| Ledger.OrderDoesNotMatter | monero-oxide-output/src/lib.rs:2991-3153 | the ledger depends on the outputs as a multiset only, the attribution heuristic included |
| Ledger.FinalSpent | monero-oxide-output/src/lib.rs:3018-3067 | what a transaction is charged is the sum of the outputs it effectively spends |
| Ledger.Conservation | monero-oxide-output/src/lib.rs:2991-3105 | incoming rows minus outgoing rows equal the unspent outputs plus the anonymous spends of heights without a unique candidate, less what spenders return beyond what they consume |
| Ledger.BalancedIff | monero-oxide-output/src/lib.rs:2991-3105 | the books balance exactly when every spending transaction consumes at least what it returns |
| LedgerRows.RowsTold | monero-oxide-output/src/lib.rs:3069-3105 | from the outputs alone: a transaction has a row exactly when something of value came from it or counts as spent by it, outgoing exactly in the second case; its height is the greatest known one at which it spent, else at which it paid; its time the positive stamp of that height; mined exactly when a receipt and some output of it is |
| LedgerRows.RowAmounts | monero-oxide-output/src/lib.rs:3069-3105 | its amount short of saturation: what it spent less what it returned, or what it paid |
| ChangeGuess.ChargeIff | monero-oxide-output/src/lib.rs:3018-3067 | nameless spends of a height are charged to the only transaction that pays the wallet last there, something but less than they are worth, spends nothing else of value, and none of whose outputs is spent namelessly |
| LedgerBuild.Aggregate | monero-oxide-output/src/lib.rs:2998-3016 | the per-transaction aggregates and the list of anonymous spends |
| LedgerBuild.SpentByHeight | monero-oxide-output/src/lib.rs:3018-3027 | anonymous spends per known height, and the transactions they came from |
| LedgerBuild.IncomingAtHeight | monero-oxide-output/src/lib.rs:3029-3040 | each receiving transaction is listed once, at its one height, in any map order |
| LedgerBuild.Candidates | monero-oxide-output/src/lib.rs:3042-3057 | the two filters leave exactly the possible change transactions |
| LedgerBuild.AttributeByHeight | monero-oxide-output/src/lib.rs:3042-3066 | heights visited in any order change at most one transaction each and no transaction twice |
| LedgerBuild.WriteRows | monero-oxide-output/src/lib.rs:3069-3105 | one row per transaction that received or spent anything |
| LedgerBuild.RebuildTransferLedger | monero-oxide-output/src/lib.rs:2991-3153 | the rebuild over hash maps is the declarative ledger, for every iteration order |
| LedgerBuild.FoldPending | monero-oxide-output/src/lib.rs:3107-3150 | the pending loop is the fold of its records, in order |
| Settling.FoldRowIs | monero-oxide-output/src/lib.rs:3107-3150 | pending records of one transaction in one step: the last gives the amount, the first known fee stays |
| Settling.SentRowsTold | monero-oxide-output/src/lib.rs:3107-3150 | the ledger with pending sends, row by row: payment plus fee of the last record, the first known fee, pending exactly when the outputs know no height, times from the receipt, the first record or the chain |
| Settling.RebuildIsAFixpoint | monero-oxide-output/src/lib.rs:2964-3153 | rebuilding with the fees of a rebuilt ledger gives the same ledger |
| Settling.SurvivesIff | monero-oxide-output/src/ffi/refresh.rs:185-189 | a pending record survives a checkpoint exactly when the outputs give its transaction no row, or a receipt without a height |
| Settling.PendingSurvivesUntilSeen | monero-oxide-output/src/ffi/refresh.rs:185-189 | a record survives a checkpoint exactly as long as no tracked output of any amount is recorded as spent by its transaction or received from it at a height above 0 |
| Checkpoints.PendingSurvivesUntilMined | monero-oxide-output/src/ffi/refresh.rs:185-189 | a pending send survives all checkpoints of any run - sealed or not, across reorganisations, replays, rewinds, caches and process death - as long as no served block contains its transaction and no input was marked for it |
| Checkpoints.MinedChangeSettles | monero-oxide-output/src/ffi/refresh.rs:185-189 | once the chain that explains the wallet holds change of the transaction above height 0, the next checkpoint settles the record |
| Checkpoints.MinedSpendSettles | monero-oxide-output/src/ffi/refresh.rs:185-189 | so does a scanned block whose inputs name the transaction as the spender of a tracked output, change or not |
| Settling.SweptPendingIsDropped | monero-oxide-output/src/ffi/sweep.rs:1624-1642 | an input marked for the transaction already settles the record |
| Settling.SecondCheckpointChangesNothingIff | monero-oxide-output/src/ffi/refresh.rs:178-189 | a second identical checkpoint leaves the ledger alone exactly when payment plus fee is inputs minus change, and fees are known, for every settled pending record |
| Settling.ThirdCheckpointChangesNothing | monero-oxide-output/src/ffi/refresh.rs:4063-4079 | whatever the second changed, the third changes nothing more |
| WalletStore.Balances | monero-oxide-output/src/ffi/refresh.rs:191-203 | total and unlocked are the sums saturating at 18446744073709551615, unlocked at most total |
| WalletStore.UnlockedBalance | monero-oxide-output/src/ffi/input_policy.rs:7-22 | the available balance is the saturating sum of unspent, unlocked, unblocked outputs and at most the total |
| WalletStore.UnlockedIff | monero-oxide-output/src/lib.rs:2792-2812 | an output counts as unlocked exactly when unspent, sixty blocks deep if mined and ten if not, and past its own lock |
| WalletStore.QuarantinedIff | monero-oxide-output/src/ffi/input_policy.rs:24-58 | an outpoint is quarantined afterwards exactly when the last answer that decides - about an output still unspent with the same key image, "unspent" deciding only where it may release - says spent, or none decides and it was before |
| WalletStore.MarkingDebits | monero-oxide-output/src/ffi/sweep.rs:1628-1640 | marking removes exactly the newly spent amount from the unspent ones |
| WalletStore.SweepTotalIsExactIff | monero-oxide-output/src/ffi/sweep.rs:1639-1640 | below 64-bit saturation the debited total is right exactly when the debit is what the marking newly spent, or everything was |
| Sends.SweepIsSend | monero-oxide-output/src/lib.rs:2711-2716 | marking swept inputs one by one spends each known one by the transaction recorded already or else this one, without a height: the send step of whole runs |
| WalletStore.KeysRepeat | monero-oxide-output/src/ffi/cache.rs:103-106 | a cache is refused for repeated keys exactly when two outputs share one |
| Wallets.StoredWallet.constructor | monero-oxide-output/src/lib.rs:4006-4032 | a new wallet is valid, empty and at its restore height |
| Wallets.StoredWallet.CommitRefreshCheckpoint | monero-oxide-output/src/ffi/refresh.rs:160-225 | cursor, ledger, balances, pending records and scan state move in one step, and keep the invariant |
| Wallets.StoredWallet.UpdateScanProgress | monero-oxide-output/src/lib.rs:1196-1216 | progress is clamped between restore and chain height |
| Wallets.StoredWallet.ExpandScanCoverage | monero-oxide-output/src/lib.rs:4097-4109 | coverage only grows, and growth sends the cursor back |
| Wallets.StoredWallet.RewindScanCursor | monero-oxide-output/src/lib.rs:4282-4336 | never forward; otherwise the shared rewind, with ledger and balances recomputed |
| Wallets.StoredWallet.ForceRescanFromHeight | monero-oxide-output/src/lib.rs:4374-4412 | everything found is forgotten and the cursor goes with the new restore height |
| Wallets.StoredWallet.ResetTrackedOutputs | monero-oxide-output/src/lib.rs:4478-4504 | everything found is forgotten, cursor and window stay |
| Wallets.StoredWallet.ApplyPendingSpendRescan | monero-oxide-output/src/lib.rs:3571-3591 | takes the marker and rewinds to it, never forward |
| Wallets.StoredWallet.RestoreSpendAuthority | monero-oxide-output/src/lib.rs:3593-3624 | unsealing succeeds exactly with the wallet's own mnemonic; a refusal changes nothing |
| Wallets.StoredWallet.OpenAgain | monero-oxide-output/src/lib.rs:3985-4005 | opening an open wallet: the mnemonic must be its own, a pending rescan is made good, the restore height only falls and the cursor stays |
| Wallets.StoredWallet.ExportCache | monero-oxide-output/src/lib.rs:3455-3482 | the cache is well-formed and shows the wallet's scan state |
| Wallets.StoredWallet.ImportCache | monero-oxide-output/src/ffi/cache.rs:103-161 | accepted exactly for distinct keys, sane coverage, the same identity and no later restore height; then merged, rescanned if unsealed, and recomputed |
| Wallets.StoredWallet.ApplyToState | monero-oxide-output/src/lib.rs:3541-3561 | the cursor is compared with the old restore height before that is replaced |
| Wallets.StoredWallet.RecordSweep | monero-oxide-output/src/ffi/sweep.rs:1624-1670 | marks, debits and remembers; the invariant survives exactly when the debit is what the marking newly spent |
| Wallets.StoredWallet.ApplyStatuses | monero-oxide-output/src/ffi/input_policy.rs:24-58 | a malformed answer changes nothing; otherwise only quarantine and the available balance change, and without a release nothing becomes available |
| Wallets.SweepSteps | monero-oxide-output/src/ffi/sweep.rs:1624-1670 | a recorded sweep is the send of whole runs, of the set of its inputs |
| Wallets.ImportSteps | monero-oxide-output/src/ffi/cache.rs:103-161 | an accepted import is that of whole runs, a refused one changes nothing |
| History.MapOrderDoesNotShow | monero-oxide-output/src/ffi/history.rs:78-96 | listing the rows in any map order and sorting gives one listing |
| History.ShowRows | monero-oxide-output/src/ffi/history.rs:157-189 | the counting and pushing pass yields the page slice and the number of matches |
| History.FindAnchor | monero-oxide-output/src/ffi/history.rs:145-151 | the first matching place of the anchor, if any |
| History.AnchorPageHoldsAnchor | monero-oxide-output/src/ffi/history.rs:145-156 | the page an anchor leads to holds the anchored row |
| History.RunQuery | monero-oxide-output/src/ffi/history.rs:98-208 | errors in order, otherwise the specified page |
| History.WalkShowsTheRest | monero-oxide-output/src/ffi/history.rs:190-206 | following the continuation terminates and shows the remaining matches in order |
| History.PagesTileTheRows | monero-oxide-output/src/ffi/history.rs:157-206 | from offset 0 under one revision: every matching row once; pending ones first, then by height and timestamp downwards, then by id upwards |
| History.NewIndex | monero-oxide-output/src/ffi/history.rs:78-96 | the index lists the ledger's rows, pending ones first, then newest first, then by id, and counts the pending ones |
| HistoryRows.HistoryTold | monero-oxide-output/src/ffi/history.rs:121-146 | what following a query shows, from the outputs and pending sends: Sent lists what was sent or counts as spent, Received what only paid the wallet, Pending what was sent and has no known height - within the search, the id and the time range |
| HistoryRows.RowListed | monero-oxide-output/src/ffi/history.rs:121-146 | the row of a transaction passes a filter exactly when the transaction is one the filter is about |
| History.HistoryStore.EnsureIndex | monero-oxide-output/src/ffi/history.rs:212-225 | afterwards the cached index is of the current ledger and identity; one that was is kept, its revision with it, a new one gets a revision never issued before; issued revisions keep their meaning |
| History.HistoryStore.QueryHistory | monero-oxide-output/src/ffi/history.rs:211-229 | the answer is about the current ledger, its revision stands for that ledger and no other, stays while the ledger does, and a continuation is answered only under the revision it names |
| Epee.VarintRoundTrip | monero-oxide-output/src/support/bulk_bin.rs:124-141 | a length written in one, two, four or eight bytes is read back, whatever follows |
| Epee.VarintWasEncoded | monero-oxide-output/src/support/bulk_bin.rs:124-141 | what is read is an encoding |
| Epee.SkipsExactly | monero-oxide-output/src/support/bulk_bin.rs:249-345 | an encoded value is skipped to its very end, the budget falling by its node count, exactly when it is nested at most 64 deep and has no more nodes than the budget; numbers are written in the eight, four, two or one bytes of their kind |
| Epee.SkippedWasEncoded | monero-oxide-output/src/support/bulk_bin.rs:249-345 | whatever is skipped is an encoded value within those limits |
| Epee.SkipValueIff | monero-oxide-output/src/support/bulk_bin.rs:218-239 | success exactly on a prefix that encodes a value of height at most 64 and a million nodes |
| Epee.Reader.SkipWithBudget | monero-oxide-output/src/support/bulk_bin.rs:249-345 | the recursive reader advanced in place does what the skip function says |
| Epee.SkipEpeeValue | monero-oxide-output/src/support/bulk_bin.rs:218-221 | terminates on arbitrary bytes, reads nothing past the end, leaves what follows the value |
| FeePreview.JumpSkipsNothing | monero-oxide-output/src/ffi/preview_fee.rs:606-637 | jumping ahead by the quoted fee passes no sufficient prefix |
| FeePreview.PreviewIsExact | monero-oxide-output/src/ffi/preview_fee.rs:330-646 | a quoted fee is that of the smallest prefix covering amount plus its own fee; "insufficient" means no prefix does; giving up needs 24 inputs beyond the first |
| FeePreview.SmallWalletsConverge | monero-oxide-output/src/ffi/preview_fee.rs:330-646 | with at most 24 spendable outputs a fee is quoted exactly when some prefix suffices |
| FeePreview.GivesUpIff | monero-oxide-output/src/ffi/preview_fee.rs:527-558 | when construction reports every shortage itself, the preview succeeds exactly when the least sufficient prefix lies less than 24 inputs beyond the first selection |
| FeePreview.ThirtyCoins | monero-oxide-output/src/ffi/preview_fee.rs:330-646 | thirty unit outputs that suffice and a preview that gives up |
| FeePreview.PushMore | monero-oxide-output/src/ffi/preview_fee.rs:616-631 | the selection stays a duplicate-free prefix of the spendable list |
| FeePreview.PreviewFee | monero-oxide-output/src/ffi/preview_fee.rs:330-646 | the rounds compute the specified quote over that prefix |
| Exclusion.StepKeeps | monero-oxide-output/src/ffi/refresh.rs:67-135 | every step of every thread keeps: one owner, one lock holder, current snapshots |
| Exclusion.RefreshOwnsAlone | monero-oxide-output/src/ffi/refresh.rs:67-135 | in every interleaving at most one refresh owns the wallet, no mutator or lifecycle body overlaps it, and every commit found the wallet as its snapshot was |
| Exclusion.EntersIff | monero-oxide-output/src/ffi/refresh.rs:67-135 | in every reachable state a refresh, mutator or lifecycle operation that asks gets in exactly when no other thread is in; a refresh and a mutator are turned away by a running refresh, everyone else keeps waiting |
| Exclusion.GetsIn | monero-oxide-output/src/ffi/refresh.rs:67-135 | from every reachable state every thread that wants in has a schedule that lets it in |
| Exclusion.OutcomeStands | monero-oxide-output/src/ffi/refresh.rs:89-96 | a refresh that ends marks the wallet as failed exactly when it failed, and the mark stands until another refresh takes the wallet |
| Exclusion.RaisedIff | monero-oxide-output/src/lib.rs:3719-3751 | after every run the cancel flag is up exactly when some step raised it and none cleared it since |
| Exclusion.CancellationHoldsUntilObserved | monero-oxide-output/src/ffi/refresh.rs:5194-5205 | through every continuation, with any number of further threads, a cancellation stays set until the refresh it was given to is over, unless an earlier unseal has yet to clear the flag |
| Exclusion.CancellationErasedIff | monero-oxide-output/src/lib.rs:3719-3751 | one step can erase it exactly when such an unseal is pending |
| Exclusion.CancellationLostIff | monero-oxide-output/src/lib.rs:3719-3751 | some continuation loses it on a refresh that goes on exactly when such an unseal is pending |
| Exclusion.LateUnsealLosesCancellation | monero-oxide-output/src/lib.rs:3719-3751 | that exception happens: a schedule after which a cancelled refresh runs on with the flag clear |

## Left out

- Network, transports, retries' sleeps, timeouts and client rebuilds: a fetch is any reply, a probe any hash or error.
- Cryptography, address derivation, the `Scanner` and transaction parsing: parameters of the blocks.
- The cache byte format: import and export are between wallet and cache values.
- The Android fetch worker: one-ahead prefetch with the same range comparison.
- Fees and the daemon's top timestamp while scanning: the known fees and the chain time of a checkpoint are parameters.
- Heights are unbounded naturals; `saturating_add` at the top of the 64-bit range is modelled for amounts and unlock heights only.
- Scan.ChangeSum: an exact sum; the source adds the amounts of one transaction's outputs with an unchecked `sum`.
- ScanLoop.FindChangeTransaction: one possible change transaction also implies a spend without an id, so the emptiness test of the source never decides.
- Wallets.StoredWallet: the scan state is one value field, replaced as a whole by the mutators; cached history and the refresh timestamp are not fields.
- Wallets.StoredWallet.ImportCache: keeps the invariant when the cache's outpoint set belongs to its outputs and outpoints do not repeat, as in every exported cache; the source does not check this.
- Replay.CoverageReplayIsFreshScan: spending transaction ids are not compared, because an id already known is kept.
- Rewinding.RewindUndoesScan: the hash window is not compared, because a rewound window may hold fewer hashes than a shorter scan's.
- Engine.WholeRunSafe: without sends and view-only refreshes; WholeRuns adds them, with the exact condition.
- CatchUp.RefreshCatchesUp: for answers fetched as ranges, from a daemon at least as high as what the wallet scanned and retains hashes of; at restore height 0 not while block 0's own hash is what its parent is compared with (`Genesis`).
- WholeRuns.RunExplainedIff: spending transaction ids are not compared; a send marks any set of tracked outputs, whether or not the transaction could be built.
- SealedReplay.LongLookLosesMarker: the look is one response of any length.
- Limits.OneByOneIsSafeIffLinked: for batches of at most 4096 blocks, so that the window still holds the whole batch, and block hashes that fix the block.
- Checkpoints.MinedSpendSettles: for wallets scanned in one pass, because a coverage replay that meets another spender of an output at the same height keeps the first id.
- Prefetch.Pipeline.Gather: a rewind above what the run scanned, which only a window retained from an earlier scan allows, starts a new run of heights.
- History.RunQuery: the substring search is a predicate on transaction ids, the length limits one flag; rows are transaction ids, their fields are the ledger's.
- FeePreview.PreviewIsExact: the fee of a selection is taken to depend on the number of inputs only.
- Exclusion.RefreshOwnsAlone: one wallet; the registry lock is shared by all wallets, which only adds waiting.
- Sweep bisection, exact sends, the filtered fee preview, the tolerant transaction-array reader, short chain history, logging and environment knobs.
