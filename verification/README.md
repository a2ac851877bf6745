# RewardStore: a verified model of the fetch-points-api ledger

This project models the in-memory rewards ledger of fetch-points-api (`pkg/model.go`).
Payers grant points to a user at given instants. A negative grant is a claw-back.
The user redeems points oldest first across all payers.

The model has four modules and one module of worked scenarios:

- `Records` (records.dfy): a ledger entry (`Reward`: timestamp, points, payer, used), the
  tree's comparator `Less` on the timestamp truncated to Unix seconds, and the record
  collection. The Go B-tree becomes a sequence kept strictly ascending by that key.
  The tree's insert-or-replace becomes `Upsert`.
- `Balances` (balances.dfy): what the records add up to.
  - `PayerSum` is one payer's `points - used` summed over its records.
  - `BalanceMap` is the table `CheckBalance` returns.
  - `Total` is the grand total, and the ghost `MapSum` is the sum of a map's values.
- `Redemption` (redemption.dfy): `UsePoints` as its two phases.
  - `PlanFrom`/`Plan` is the ascending scan with its early stop.
  - `Commit` is the insert-or-replace of every charged record.
  - `TotalsOf` holds the negated per-payer amounts.
  - Lemmas prove what a plan charges, when it fails, and what a commit does to the ledger.
- `Store` (store.dfy): the class `RewardStore`. Its field `rewards` is the tree, and its
  methods update it in place. `CheckBalance` and the two phases of `UsePoints` are loops,
  each proved against the functions above.
- `Scenarios` (scenarios.dfy): the repository's own tests worked through the model, for
  any start second `t`. Also behaviour the code has that callers may not expect:
  - a balance that goes negative;
  - a record overwritten by another payer's record at the same second;
  - a request of 0;
  - a negative request.

Where the tests expect something the code does not do, the model follows the code (see
"Left out").

## Model

| member | source | states |
|---|---|---|
| Records.Message | pkg/model.go:38-110 | The three failure texts: "Invalid timestamp" (unparsable timestamp, line 38), "Insufficient points to apply transaction" (refused claw-back, line 45) and "Not enough points" (unmet redemption, line 110). |
| Records.MessagesDiffer | pkg/model.go:38-110 | The three failure texts are pairwise different, so a caller can tell the failures apart by text. |
| Records.Less | pkg/model.go:21-23 | The tree's comparator: one record sorts before another when its timestamp, truncated to Unix seconds, is earlier. |
| Records.LessOrder | pkg/model.go:21-23 | The comparator is a strict order. Two records are unordered by it exactly when they fall in the same Unix second, which is when the tree takes them for the same item. |
| Records.Upsert | pkg/model.go:49-54 | ReplaceOrInsert keeps the records strictly ascending by Unix second. Afterwards the records are exactly the new one plus the old ones at other seconds. The count grows by one exactly when no record held that second. |
| Records.UpsertReplaces | pkg/model.go:21-23 | A record at a second already present replaces the record at that second in place, whatever its payer. |
| Records.UpsertInserts | pkg/model.go:21-23 | A record at a fresh second goes between the records with earlier seconds and those with later ones. |
| Balances.PayerSum | pkg/model.go:63-72 | One payer's balance: `points - used` summed over that payer's records. A payer with no record has balance 0. |
| Balances.BalanceMap | pkg/model.go:59-75 | The table CheckBalance returns: one entry per payer with at least one record, holding that payer's balance. |
| Balances.BalanceMapSnoc | pkg/model.go:63-72 | The balance table grows record by record in ascending order. Each record adds `points - used` to its payer's entry, creating the entry if absent. |
| Balances.BalancesSumToTotal | pkg/model.go:59-75 | The balances CheckBalance reports add up to the ledger's total `points - used`. |
| Balances.UpsertFreshBalanceMap | pkg/model.go:49-54 | An add at a fresh second changes the balance table by the added points for that payer only. The payer gains an entry if it had none. |
| Balances.UpsertReplaceBalance | pkg/model.go:49-54 | An add at an occupied second also drops the overwritten record's remaining points from its payer's balance. |
| Redemption.PlanFrom | pkg/model.go:82-107 | The ascending scan (`Plan` starts it at the oldest record). It passes over records with nothing left and takes `min(points - used, remaining)` from each other record. It stops once nothing remains and returns the deductions with what is still unmet. It plans at most one deduction per record scanned. |
| Redemption.TotalsOf | pkg/model.go:118-123 | The per-payer result: for each payer the plan touches, the planned amounts negated and summed. The first amount creates the entry at `-1 *` the amount, and later ones subtract. |
| Redemption.Commit | pkg/model.go:113-117 | Committing deductions one by one by insert-or-replace keeps the ledger ordered. |
| Redemption.PlanTargets | pkg/model.go:82-107 | The plan names the ledger's own records in strictly ascending order and never an exhausted one. |
| Redemption.PlanSum | pkg/model.go:78-107 | For a non-negative request, the planned amounts plus what is left equal the request, and what is left is never negative. |
| Redemption.PlanCharges | pkg/model.go:82-107 | A successful plan stops at some position `n`. It charges every record before `n` all it has left, the record at `n` between 0 and what it has left, and nothing after `n`. |
| Redemption.PlanFailsIff | pkg/model.go:82-111 | The scan fails exactly when no run of records from the start, ending on a record with points left, makes up the request, and the request is positive or some record has points left. Both directions are proved. |
| Redemption.NoClawbackFailsIff | pkg/model.go:82-111 | Without claw-back records, the scan fails exactly when the request exceeds the ledger's total. |
| Redemption.CommitInPlace | pkg/model.go:113-117 | Committing a plan over the ledger's own records keeps the length. It changes each record only in `used`, by the amount planned at its position. |
| Redemption.CommitSums | pkg/model.go:113-117 | A commit lowers the total and each payer's balance by what was planned against them, and keeps the set of payers. |
| Redemption.TotalsOfPlan | pkg/model.go:118-123 | The returned map has one entry per payer the plan touches. Each entry holds that payer's planned amounts, negated and summed. The values add up to the negated plan total. |
| Redemption.TotalsOfStep | pkg/model.go:118-123 | Subtracting from an existing entry, or creating one at `-1 *` the amount, is one more step of the per-payer result. |
| Redemption.RedeemFifo | pkg/model.go:82-117 | A successful redemption consumes the ledger oldest first. Records before the stopping point end exhausted (claw-backs included). The record at that point may be partly used, and later records are untouched. |
| Redemption.RedeemKeepsWellFormed | pkg/model.go:82-117 | For a non-negative request, every record's `used` stays within its range. A grant is used between 0 and its points, and a claw-back is untouched or applied whole. |
| Redemption.RedeemTotals | pkg/model.go:77-126 | On success, the returned values add up to `-requested` and the ledger's total drops by exactly `requested`. Every returned payer has records. |
| Redemption.RedeemBalances | pkg/model.go:77-126 | On success, for any request including a negative one, the balance table keeps its payers. Each new balance is the old one plus that payer's returned entry, or unchanged when it has none. |
| Store.Admits | pkg/model.go:41-47 | A non-negative amount is always accepted. A negative amount is accepted exactly when the payer's balance plus that amount stays at or above 0, so a payer with no records is refused. |
| Store.RewardStore.constructor | pkg/model.go:29-33 | A new store is empty. |
| Store.RewardStore.AddReward | pkg/model.go:35-57 | An unparsable timestamp gives "Invalid timestamp" and no change. A negative amount for a payer without records, or one that would take the balance below 0, gives "Insufficient points to apply transaction" and no change. Otherwise the record goes in unused by insert-or-replace. Ordering and the `used` ranges are kept. |
| Store.RewardStore.CheckBalance | pkg/model.go:59-75 | The ascending loop returns exactly the balance table, one entry per payer with records. It changes nothing. |
| Store.RewardStore.PlanDeductions | pkg/model.go:82-107 | The scan loop, with its skip of exhausted records and its early stop, computes exactly the plan. |
| Store.RewardStore.CommitDeductions | pkg/model.go:113-123 | The commit loop leaves the ledger equal to the committed plan and returns the per-payer result. |
| Store.RewardStore.UsePoints | pkg/model.go:77-126 | A scan that leaves points unmet fails with "Not enough points" and no change. Otherwise the plan is committed and the negated per-payer amounts are returned. No record is deleted. For a non-negative request, the total drops by `requested` and the values sum to `-requested`. |
| Scenarios.UseOldestFirst | pkg/model_test.go:56-102 | A, B, A grants of 100 at t, t+10 and t+20, then redeeming 150, gives A -100 and B -50 and keeps all three records. A further request for 3000 fails. |
| Scenarios.UseHandlerScenario | pkg/controller_test.go:140-180 | The redemption handler test's five adds end ordered by time, and its claw-back is admitted. Redeeming 5000 reports three payers (DANNON -100, UNILEVER -200, MILLER COORS -4700) and leaves balances 1000, 0 and 5300. A request for 10000 then fails. |
| Scenarios.BalanceHandlerScenario | pkg/controller_test.go:204-275 | An empty store reports no balances. The handler test's five grants give A 100, B 300, C 400. |
| Scenarios.AddHandlerScenario | pkg/controller_test.go:92-114 | After a grant of 150, the same payer's claw-back of 200 is refused. |
| Scenarios.BalanceCanGoNegative | pkg/model.go:41-47 | A grant of 100 and an admitted claw-back of 100, then redeeming 50, leave the payer at -50. The redemption succeeds although the ledger's total is 0. |
| Scenarios.SameSecondReplaces | pkg/model.go:49-54 | Another payer's grant at the same second overwrites a grant, leaving the first payer at -100 after its admitted claw-back. |
| Scenarios.UseZero | pkg/model.go:87-106 | Redeeming 0 from a ledger holding one grant succeeds and reports that grant's payer with 0. |
| Scenarios.UseNegative | pkg/model.go:77-106 | A request for -50 is not refused. It reports +50 for the payer and raises its balance to 150. The grant is left with a negative `used`. |

## Left out

- `time.Parse` with the RFC 3339 layout (section 5.6 of RFC 3339) is the parameter `parse` of `AddReward`, a partial function from text to whole Unix seconds and a sub-second part. Zone offsets and the parser's own rules are not modelled.
- Only the Unix second of a timestamp orders records and makes them collide, as in `Less`. Sub-second parts are kept but never compared.
- The B-tree (`github.com/google/btree`, degree 2) is a sorted sequence with unique keys. Nodes, rebalancing and `Len` are not modelled.
- `int64` arithmetic is unbounded `int`. Overflow of balances, `used` or `remaining` is not modelled.
- The store has no lock, and HTTP handlers may call it concurrently. The model is sequential.
- The HTTP layer (`pkg/controller.go`), the program entry (`cmd/main.go`) and the test harness's server and network code are not part of this model. The tests serve only as concrete expectations.
- Some test expectations contradict the code and are not encoded. pkg/model_test.go:75 and pkg/model_test.go:80 expect positive deductions, but the code returns them negated. pkg/model_test.go:86 expects two records to remain after a redemption, but the code never deletes records (`Scenarios.UseOldestFirst` proves three remain).
- TestAdd and TestBalance (pkg/model_test.go:10-54) place 50 records around `time.Now()`, read afresh for each record (pkg/model_test.go:45). Their orderings are covered by `Records.Upsert`'s general contract. They are not replayed record by record, and TestBalance's expected 2500 per payer is not derived. That expectation holds only when no two of its records share a Unix second. If the clock passes a second boundary between the first two records, the second (PAYER_B, one second back) lands in the first's second and replaces it, leaving PAYER_A at 2400.
- `Deduction` carries an extra `at`, the position in the ascending order of the record it names. The code keeps the tree item itself. The commit still works by insert-or-replace on the record's key, and `at` is used only to state the plan's properties.
- Per-payer balances are not proved non-negative, because the code does not keep them so. `Scenarios.BalanceCanGoNegative` and `Scenarios.SameSecondReplaces` give the inputs.
- Store.RewardStore.UsePoints: the `used` range invariant and the accounting by `requested` are stated only for non-negative requests, because a negative request makes a grant's `used` negative (`Scenarios.UseNegative`) and an empty ledger then succeeds with no entries.
