/**
 * The in-memory rewards ledger. Its record tree is the field `rewards`, a sequence
 * kept strictly ascending by Unix-second key; each operation updates it in place.
 */
module Store {
  import opened Records
  import opened Balances
  import opened Redemption

  datatype Outcome = Pass | Fail(error: Error)

  datatype Result<T> = Ok(value: T) | Err(error: Error)

  /** A negative amount may be added only for a payer with records whose balance stays at or above zero. */
  predicate Admits(rs: seq<Reward>, points: int, payer: string): (ok: bool)
    ensures 0 <= points ==> ok
    ensures points < 0 ==> (ok <==> PayerSum(rs, payer) + points >= 0)
  {
    0 <= points || (payer in BalanceMap(rs) && BalanceMap(rs)[payer] + points >= 0)
  }

  class RewardStore {
    var rewards: seq<Reward>

    /** The tree's ordering: strictly ascending by Unix second. */
    ghost predicate Valid()
      reads this
    {
      Sorted(rewards)
    }

    /** An empty store. */
    constructor ()
      ensures Valid() && rewards == []
    {
      rewards := [];
    }

    /**
     * Records `points` from `payer` at the RFC 3339 date-time `timeStamp`, read by
     * `parse`. A negative amount is refused unless the payer's balance covers it. The
     * new record starts unused and replaces any record of the same Unix second.
     */
    method AddReward(parse: string -> Option<Time>, timeStamp: string, points: int, payer: string)
      returns (outcome: Outcome)
      requires Valid()
      modifies this
      ensures Valid()
      ensures WellFormed(old(rewards)) ==> WellFormed(rewards)
      ensures parse(timeStamp).None? ==> outcome == Fail(InvalidTimestamp) && rewards == old(rewards)
      ensures parse(timeStamp).Some? && !Admits(old(rewards), points, payer) ==>
        outcome == Fail(InsufficientPoints) && rewards == old(rewards)
      ensures parse(timeStamp).Some? && Admits(old(rewards), points, payer) ==>
        outcome == Pass && rewards == Upsert(old(rewards), Reward(parse(timeStamp).value, points, payer, 0))
    {
      var ts := parse(timeStamp);
      if ts.None? {
        return Fail(InvalidTimestamp);
      }

      if points < 0 {
        var balances := CheckBalance();
        if payer !in balances || balances[payer] + points < 0 {
          return Fail(InsufficientPoints);
        }
      }

      var r := Reward(ts.value, points, payer, 0);
      rewards := Upsert(rewards, r);
      if WellFormed(old(rewards)) {
        forall i | 0 <= i < |rewards| ensures UsedInRange(rewards[i]) {
          assert rewards[i] in rewards;
          if rewards[i] != r {
            var k :| 0 <= k < |old(rewards)| && old(rewards)[k] == rewards[i];
          }
        }
      }
      return Pass;
    }

    /** The balance of every payer with a record: the sum of `points - used` over its records, in ascending order. */
    method CheckBalance() returns (balances: map<string, int>)
      ensures balances == BalanceMap(rewards)
    {
      balances := map[];
      var i := 0;
      while i < |rewards|
        invariant 0 <= i <= |rewards|
        invariant balances == BalanceMap(rewards[..i])
      {
        var r := rewards[i];
        if r.payer in balances {
          balances := balances[r.payer := balances[r.payer] + (r.points - r.used)];
        } else {
          balances := balances[r.payer := r.points - r.used];
        }
        BalanceMapSnoc(rewards[..i], r);
        assert rewards[..i + 1] == rewards[..i] + [r];
        i := i + 1;
      }
      assert rewards[..i] == rewards;
    }

    /**
     * The plan phase of `UsePoints`: the ascending walk that passes over exhausted
     * records, takes `min(points - used, remaining)` from the others and stops once
     * nothing remains. It reads the store and changes nothing.
     */
    method PlanDeductions(requested: int) returns (deductions: seq<Deduction>, remaining: int)
      ensures Scan(deductions, remaining) == Plan(rewards, requested)
    {
      remaining := requested;
      deductions := [];
      var i := 0;
      var stop := false;
      while i < |rewards| && !stop
        invariant 0 <= i <= |rewards|
        invariant !stop ==> var s := PlanFrom(rewards, i, remaining);
          Plan(rewards, requested) == Scan(deductions + s.deductions, s.remaining)
        invariant stop ==> Plan(rewards, requested) == Scan(deductions, remaining)
      {
        var r := rewards[i];
        if r.points != r.used {
          var d;
          if r.points - r.used > remaining {
            d := Deduction(r, remaining, i);
            remaining := 0;
          } else {
            d := Deduction(r, r.points - r.used, i);
            remaining := remaining - (r.points - r.used);
          }
          deductions := deductions + [d];
          stop := remaining == 0;
        }
        i := i + 1;
      }
    }

    /**
     * The commit phase of `UsePoints`: each planned deduction is charged to its record
     * by insert-or-replace, and the amounts are accumulated, negated, per payer.
     */
    method CommitDeductions(deductions: seq<Deduction>) returns (totals: map<string, int>)
      requires Sorted(rewards)
      modifies this
      ensures rewards == Commit(old(rewards), deductions)
      ensures totals == TotalsOf(deductions)
    {
      ghost var before := rewards;
      totals := map[];
      var k := 0;
      while k < |deductions|
        invariant 0 <= k <= |deductions|
        invariant Sorted(before)
        invariant rewards == Commit(before, deductions[..k])
        invariant totals == TotalsOf(deductions[..k])
      {
        var d := deductions[k];
        var payer, amount := d.item.payer, d.deducted;
        CommitPrefix(before, deductions, k);
        rewards := Upsert(rewards, d.item.(used := d.item.used + amount));
        var entry;
        if payer in totals {
          entry := totals[payer] - amount;
        } else {
          entry := -1 * amount;
        }
        TotalsOfStep(deductions, k, totals, entry);
        totals := totals[payer := entry];
        k := k + 1;
      }
      assert deductions[..k] == deductions;
    }

    /**
     * Redeems `requested` points oldest first across all payers. The plan phase scans
     * without touching the store; if the scan runs out of records before the request is
     * met the store is left as it was. Otherwise each planned amount is committed and
     * the per-payer totals, negated, are returned. A negative request is not refused:
     * it is planned like any other (see Scenarios.UseNegative).
     */
    method UsePoints(requested: int) returns (result: Result<map<string, int>>)
      requires Valid()
      modifies this
      ensures Valid()
      ensures var scan := Plan(old(rewards), requested);
        if scan.remaining > 0 then
          result == Err(NotEnoughPoints) && rewards == old(rewards)
        else
          result == Ok(TotalsOf(scan.deductions)) && rewards == Commit(old(rewards), scan.deductions)
      ensures result.Ok? ==> |rewards| == |old(rewards)|
      ensures result.Ok? && 0 <= requested ==>
        Total(rewards) == Total(old(rewards)) - requested && MapSum(result.value) == -requested
      ensures 0 <= requested && WellFormed(old(rewards)) ==> WellFormed(rewards)
    {
      var deductions, remaining := PlanDeductions(requested);
      if remaining > 0 {
        return Err(NotEnoughPoints);
      }
      ghost var before := rewards;
      var totals := CommitDeductions(deductions);
      PlanTargets(before, 0, requested);
      CommitInPlace(before, deductions);
      if 0 <= requested {
        PlanSum(before, 0, requested);
        RedeemTotals(before, requested);
        if WellFormed(before) {
          RedeemKeepsWellFormed(before, requested);
        }
      }
      return Ok(totals);
    }
  }
}
