/**
 * FIFO redemption as two phases over the ascending record sequence.
 *
 * The plan phase (`PlanFrom`) walks the records oldest first, passes over exhausted
 * ones, takes `min(points - used, remaining)` from each other record and stops as soon
 * as nothing remains. A claw-back record has negative `points - used`, so taking it
 * gives points back to `remaining`. The commit phase (`Commit`) adds each planned
 * amount to its record's `used` by insert-or-replace, and `TotalsOf` collects the
 * negated amounts per payer.
 */
module Redemption {
  import opened Records
  import opened Balances

  /** One planned deduction: `deducted` points from `item`, the record at position `at` of the ascending order. */
  datatype Deduction = Deduction(item: Reward, deducted: int, at: nat)

  /** The plan phase's outcome: the deductions in scan order and the points still unmet. */
  datatype Scan = Scan(deductions: seq<Deduction>, remaining: int)

  /** The scan from position `i` on, with `remaining` points still to find. */
  function PlanFrom(rs: seq<Reward>, i: nat, remaining: int): (scan: Scan)
    requires i <= |rs|
    ensures |scan.deductions| <= |rs| - i
    decreases |rs| - i
  {
    if i == |rs| then Scan([], remaining)
    else
      var r := rs[i];
      if r.points == r.used then PlanFrom(rs, i + 1, remaining)
      else if r.points - r.used > remaining then Scan([Deduction(r, remaining, i)], 0)
      else
        var d := Deduction(r, r.points - r.used, i);
        var left := remaining - (r.points - r.used);
        if left == 0 then Scan([d], 0)
        else
          var rest := PlanFrom(rs, i + 1, left);
          Scan([d] + rest.deductions, rest.remaining)
  }

  /** The plan for redeeming `requested` points from the whole ledger. */
  function Plan(rs: seq<Reward>, requested: int): Scan
  {
    PlanFrom(rs, 0, requested)
  }

  /** A record after `amount` more of its points are used. */
  function Charge(r: Reward, amount: int): Reward
  {
    r.(used := r.used + amount)
  }

  /** The ledger after committing the deductions one after the other by insert-or-replace. */
  function Commit(rs: seq<Reward>, ds: seq<Deduction>): (res: seq<Reward>)
    requires Sorted(rs)
    ensures Sorted(res)
  {
    if ds == [] then rs
    else
      var d := ds[|ds| - 1];
      Upsert(Commit(rs, ds[..|ds| - 1]), Charge(d.item, d.deducted))
  }

  /** The per-payer result: each payer's planned amounts, negated and summed. */
  function TotalsOf(ds: seq<Deduction>): map<string, int>
  {
    if ds == [] then map[]
    else
      var d := ds[|ds| - 1];
      Adjust(TotalsOf(ds[..|ds| - 1]), d.item.payer, -d.deducted)
  }

  /** The amount planned against position `j`. */
  function ChargeAt(ds: seq<Deduction>, j: nat): int
  {
    if ds == [] then 0
    else
      var d := ds[|ds| - 1];
      ChargeAt(ds[..|ds| - 1], j) + (if d.at == j then d.deducted else 0)
  }

  /** The amount planned in all. */
  function SumDeducted(ds: seq<Deduction>): int
  {
    if ds == [] then 0 else SumDeducted(ds[..|ds| - 1]) + ds[|ds| - 1].deducted
  }

  /** The amount planned against payer `p`'s records. */
  function PayerDeducted(ds: seq<Deduction>, p: string): int
  {
    if ds == [] then 0
    else
      var d := ds[|ds| - 1];
      PayerDeducted(ds[..|ds| - 1], p) + (if d.item.payer == p then d.deducted else 0)
  }

  /** The payers a plan touches. */
  function PlanPayers(ds: seq<Deduction>): set<string>
  {
    set k | 0 <= k < |ds| :: ds[k].item.payer
  }

  /** Each deduction names the record at its position, and positions strictly ascend. */
  predicate Targets(rs: seq<Reward>, ds: seq<Deduction>)
  {
    (forall k :: 0 <= k < |ds| ==> ds[k].at < |rs| && ds[k].item == rs[ds[k].at]) &&
    (forall k, l :: 0 <= k < l < |ds| ==> ds[k].at < ds[l].at)
  }

  /* ---------------- sums over a plan, taken front first ---------------- */

  lemma {:induction false} SumDeductedCons(d: Deduction, ds: seq<Deduction>)
    ensures SumDeducted([d] + ds) == d.deducted + SumDeducted(ds)
  {
    if ds != [] {
      assert ([d] + ds)[..|ds|] == [d] + ds[..|ds| - 1];
      SumDeductedCons(d, ds[..|ds| - 1]);
    }
  }

  lemma {:induction false} ChargeAtCons(d: Deduction, ds: seq<Deduction>, j: nat)
    ensures ChargeAt([d] + ds, j) == (if d.at == j then d.deducted else 0) + ChargeAt(ds, j)
  {
    if ds != [] {
      assert ([d] + ds)[..|ds|] == [d] + ds[..|ds| - 1];
      ChargeAtCons(d, ds[..|ds| - 1], j);
    }
  }

  lemma {:induction false} ChargeAtMissing(ds: seq<Deduction>, j: nat)
    requires forall k :: 0 <= k < |ds| ==> ds[k].at != j
    ensures ChargeAt(ds, j) == 0
  {
    if ds != [] {
      ChargeAtMissing(ds[..|ds| - 1], j);
    }
  }

  /* ---------------- the plan phase ---------------- */

  /**
   * The plan names records of the ledger in ascending order, from position `i` on,
   * and never one the scan should pass over.
   */
  lemma {:induction false} PlanTargets(rs: seq<Reward>, i: nat, remaining: int)
    requires i <= |rs|
    ensures var ds := PlanFrom(rs, i, remaining).deductions;
      Targets(rs, ds) &&
      forall k :: 0 <= k < |ds| ==> i <= ds[k].at && !Exhausted(ds[k].item)
    decreases |rs| - i
  {
    if i < |rs| {
      var r := rs[i];
      if r.points == r.used {
        PlanTargets(rs, i + 1, remaining);
      } else if r.points - r.used <= remaining && remaining - (r.points - r.used) != 0 {
        PlanTargets(rs, i + 1, remaining - (r.points - r.used));
      }
    }
  }

  /**
   * Whatever the scan does not find stays in `remaining`: the planned amounts add up
   * to what was asked for less what is left, and what is left is never negative.
   */
  lemma {:induction false} PlanSum(rs: seq<Reward>, i: nat, remaining: int)
    requires i <= |rs| && 0 <= remaining
    ensures var s := PlanFrom(rs, i, remaining);
      0 <= s.remaining && SumDeducted(s.deductions) + s.remaining == remaining
    decreases |rs| - i
  {
    if i < |rs| {
      var r := rs[i];
      var avail := r.points - r.used;
      if avail == 0 {
        PlanSum(rs, i + 1, remaining);
      } else if avail > remaining {
        assert SumDeducted([Deduction(r, remaining, i)]) == remaining;
      } else if remaining - avail == 0 {
        assert SumDeducted([Deduction(r, avail, i)]) == avail;
      } else {
        var rest := PlanFrom(rs, i + 1, remaining - avail);
        PlanSum(rs, i + 1, remaining - avail);
        SumDeductedCons(Deduction(r, avail, i), rest.deductions);
      }
    }
  }

  /**
   * FIFO shape of a successful plan starting at `i`, stopping at `n`: every record in
   * `[i, n)` is charged all it has left (nothing for an exhausted one, the negative
   * amount for a claw-back), the record at `n` is charged between 0 and what it has
   * left, and nothing outside `[i, n]` is charged.
   */
  predicate StopsAt(rs: seq<Reward>, ds: seq<Deduction>, i: nat, n: nat)
    requires i <= n <= |rs|
  {
    (forall j :: 0 <= j < i ==> ChargeAt(ds, j) == 0) &&
    (forall j :: i <= j < n ==> ChargeAt(ds, j) == Avail(rs[j])) &&
    (n < |rs| ==> 0 <= ChargeAt(ds, n) <= Avail(rs[n])) &&
    (forall j :: n < j < |rs| ==> ChargeAt(ds, j) == 0)
  }

  lemma {:induction false} PlanCharges(rs: seq<Reward>, i: nat, remaining: int)
    requires i <= |rs| && 0 <= remaining && PlanFrom(rs, i, remaining).remaining == 0
    ensures exists n :: i <= n <= |rs| && StopsAt(rs, PlanFrom(rs, i, remaining).deductions, i, n)
    decreases |rs| - i
  {
    var ds := PlanFrom(rs, i, remaining).deductions;
    if i == |rs| {
      assert StopsAt(rs, ds, i, i);
    } else {
      var r := rs[i];
      var avail := r.points - r.used;
      if avail == 0 {
        PlanCharges(rs, i + 1, remaining);
        var n :| i + 1 <= n <= |rs| && StopsAt(rs, ds, i + 1, n);
        assert StopsAt(rs, ds, i, n);
      } else if avail > remaining || remaining - avail == 0 {
        var d := ds[0];
        assert ds == [d] && d.at == i && 0 <= d.deducted <= avail;
        forall j: nat ensures ChargeAt(ds, j) == if j == i then d.deducted else 0 {
          assert ds[..0] == [];
        }
        assert StopsAt(rs, ds, i, i);
      } else {
        var d := Deduction(r, avail, i);
        var rest := PlanFrom(rs, i + 1, remaining - avail);
        assert ds == [d] + rest.deductions;
        PlanCharges(rs, i + 1, remaining - avail);
        var n :| i + 1 <= n <= |rs| && StopsAt(rs, rest.deductions, i + 1, n);
        forall j: nat ensures ChargeAt(ds, j) == (if j == i then avail else 0) + ChargeAt(rest.deductions, j) {
          ChargeAtCons(d, rest.deductions, j);
        }
        assert StopsAt(rs, ds, i, n);
      }
    }
  }

  /** Covers(rs, i, amount): some run `rs[i..k+1]` ending on a record with points left has `amount` available. */
  ghost predicate Covers(rs: seq<Reward>, i: nat, amount: int)
    requires i <= |rs|
  {
    exists k :: i <= k < |rs| && !Exhausted(rs[k]) && Total(rs[i..k + 1]) >= amount
  }

  /** Some record from position `i` on has points left (or owes some back). */
  ghost predicate Live(rs: seq<Reward>, i: nat)
    requires i <= |rs|
  {
    exists k :: i <= k < |rs| && !Exhausted(rs[k])
  }

  lemma TotalRunCons(rs: seq<Reward>, i: nat, k: nat)
    requires i <= k < |rs|
    ensures Total(rs[i..k + 1]) == Avail(rs[i]) + Total(rs[i + 1..k + 1])
  {
    assert rs[i..k + 1][1..] == rs[i + 1..k + 1];
  }

  /**
   * When the scan fails, independently of how it walks: it fails exactly when no run
   * of records from the start, ending on a record with points left, makes up the
   * request, and the request is positive or some record has points left. (A request
   * of 0 against a ledger whose first live record is a claw-back fails too.)
   */
  lemma {:induction false} PlanFailsIff(rs: seq<Reward>, i: nat, remaining: int)
    requires i <= |rs| && 0 <= remaining
    ensures PlanFrom(rs, i, remaining).remaining > 0 <==>
      !Covers(rs, i, remaining) && (0 < remaining || Live(rs, i))
    decreases |rs| - i
  {
    if i < |rs| {
      var r := rs[i];
      var avail := r.points - r.used;
      TotalRunCons(rs, i, i);
      assert Total(rs[i + 1..i + 1]) == 0;
      if avail == 0 {
        PlanFailsIff(rs, i + 1, remaining);
        assert Covers(rs, i, remaining) <==> Covers(rs, i + 1, remaining) by {
          if Covers(rs, i, remaining) {
            var k :| i <= k < |rs| && !Exhausted(rs[k]) && Total(rs[i..k + 1]) >= remaining;
            TotalRunCons(rs, i, k);
            assert i + 1 <= k;
          }
          if Covers(rs, i + 1, remaining) {
            var k :| i + 1 <= k < |rs| && !Exhausted(rs[k]) && Total(rs[i + 1..k + 1]) >= remaining;
            TotalRunCons(rs, i, k);
          }
        }
        assert Live(rs, i) <==> Live(rs, i + 1);
      } else if avail > remaining || remaining - avail == 0 {
        assert Covers(rs, i, remaining);
      } else {
        var left := remaining - avail;
        PlanFailsIff(rs, i + 1, left);
        assert Covers(rs, i, remaining) <==> Covers(rs, i + 1, left) by {
          if Covers(rs, i, remaining) {
            var k :| i <= k < |rs| && !Exhausted(rs[k]) && Total(rs[i..k + 1]) >= remaining;
            TotalRunCons(rs, i, k);
            assert i + 1 <= k;
          }
          if Covers(rs, i + 1, left) {
            var k :| i + 1 <= k < |rs| && !Exhausted(rs[k]) && Total(rs[i + 1..k + 1]) >= left;
            TotalRunCons(rs, i, k);
          }
        }
        assert Live(rs, i);
      }
    }
  }

  lemma {:induction false} TotalAppend(a: seq<Reward>, b: seq<Reward>)
    ensures Total(a + b) == Total(a) + Total(b)
  {
    if a == [] {
      assert a + b == b;
    } else {
      assert (a + b)[0] == a[0];
      assert (a + b)[1..] == a[1..] + b;
      TotalAppend(a[1..], b);
    }
  }

  lemma {:induction false} TotalNonNegative(rs: seq<Reward>)
    requires forall j :: 0 <= j < |rs| ==> 0 <= Avail(rs[j])
    ensures 0 <= Total(rs)
  {
    if rs != [] {
      TotalNonNegative(rs[1..]);
    }
  }

  lemma {:induction false} TotalExhausted(rs: seq<Reward>)
    requires forall j :: 0 <= j < |rs| ==> Exhausted(rs[j])
    ensures Total(rs) == 0
  {
    if rs != [] {
      TotalExhausted(rs[1..]);
    }
  }

  /** Without claw-back records a run from the start never has more available than the whole ledger. */
  lemma RunAtMostTotal(rs: seq<Reward>, k: nat)
    requires k < |rs|
    requires forall j :: 0 <= j < |rs| ==> 0 <= Avail(rs[j])
    ensures Total(rs[0..k + 1]) <= Total(rs)
  {
    assert rs == rs[0..k + 1] + rs[k + 1..];
    TotalAppend(rs[0..k + 1], rs[k + 1..]);
    TotalNonNegative(rs[k + 1..]);
  }

  /** The run up to the last record with points left has all the ledger has. */
  lemma RunToLastLive(rs: seq<Reward>, k: nat)
    requires k < |rs| && forall j :: k < j < |rs| ==> Exhausted(rs[j])
    ensures Total(rs[0..k + 1]) == Total(rs)
  {
    assert rs == rs[0..k + 1] + rs[k + 1..];
    TotalAppend(rs[0..k + 1], rs[k + 1..]);
    TotalExhausted(rs[k + 1..]);
  }

  /**
   * Without claw-back records (no record has negative points left) the scan fails
   * exactly when the request exceeds the ledger's total.
   */
  lemma NoClawbackFailsIff(rs: seq<Reward>, requested: int)
    requires 0 <= requested
    requires forall j :: 0 <= j < |rs| ==> 0 <= Avail(rs[j])
    ensures Plan(rs, requested).remaining > 0 <==> Total(rs) < requested
  {
    PlanFailsIff(rs, 0, requested);
    if Total(rs) < requested {
      TotalNonNegative(rs);
      forall k | 0 <= k < |rs| && !Exhausted(rs[k]) ensures Total(rs[0..k + 1]) < requested {
        RunAtMostTotal(rs, k);
      }
    } else if Live(rs, 0) {
      LastLive(rs);
      var k :| 0 <= k < |rs| && !Exhausted(rs[k]) && forall j :: k < j < |rs| ==> Exhausted(rs[j]);
      RunToLastLive(rs, k);
    } else {
      forall j | 0 <= j < |rs| ensures Exhausted(rs[j]) {
        assert !(0 <= j < |rs| && !Exhausted(rs[j]));
      }
      TotalExhausted(rs);
    }
  }

  lemma {:induction false} LastLive(rs: seq<Reward>)
    requires Live(rs, 0)
    ensures exists k :: 0 <= k < |rs| && !Exhausted(rs[k]) && forall j :: k < j < |rs| ==> Exhausted(rs[j])
  {
    var last := rs[|rs| - 1];
    if Exhausted(last) {
      var front := rs[..|rs| - 1];
      var k0 :| 0 <= k0 < |rs| && !Exhausted(rs[k0]);
      assert front[k0] == rs[k0];
      LastLive(front);
      var k :| 0 <= k < |front| && !Exhausted(front[k]) && forall j :: k < j < |front| ==> Exhausted(front[j]);
      assert rs[k] == front[k];
      assert forall j :: k < j < |rs| ==> Exhausted(rs[j]) by {
        forall j | k < j < |rs| ensures Exhausted(rs[j]) {
          if j < |front| { assert rs[j] == front[j]; }
        }
      }
    }
  }

  /* ---------------- the commit phase ---------------- */

  /**
   * Committing a plan that targets the ledger's own records changes only their `used`
   * fields, each by the amount planned at its position: length, order, timestamps,
   * points and payers stay.
   */
  lemma {:induction false} CommitInPlace(rs: seq<Reward>, ds: seq<Deduction>)
    requires Sorted(rs) && Targets(rs, ds)
    ensures var after := Commit(rs, ds);
      |after| == |rs| && forall j :: 0 <= j < |rs| ==> after[j] == Charge(rs[j], ChargeAt(ds, j))
  {
    if ds != [] {
      var front := ds[..|ds| - 1];
      var d := ds[|ds| - 1];
      CommitInPlace(rs, front);
      CommitLast(rs, ds);
    }
  }

  /** Committing one more deduction of a plan is one more insert-or-replace of its charged record. */
  lemma CommitPrefix(rs: seq<Reward>, ds: seq<Deduction>, k: nat)
    requires Sorted(rs) && k < |ds|
    ensures Commit(rs, ds[..k + 1]) == Upsert(Commit(rs, ds[..k]), Charge(ds[k].item, ds[k].deducted))
  {
    var e := ds[..k + 1];
    assert e[..k] == ds[..k] && e[k] == ds[k];
  }

  /** One more deduction of a plan adjusts its payer's entry in the per-payer result, creating it if absent. */
  lemma TotalsOfPrefix(ds: seq<Deduction>, k: nat)
    requires k < |ds|
    ensures TotalsOf(ds[..k + 1]) == Adjust(TotalsOf(ds[..k]), ds[k].item.payer, -ds[k].deducted)
  {
    var e := ds[..k + 1];
    assert e[..k] == ds[..k] && e[k] == ds[k];
  }

  /**
   * The accumulation as the store writes it, subtracting from an existing entry or
   * creating one at the negated amount, is one more step of the per-payer result.
   */
  lemma TotalsOfStep(ds: seq<Deduction>, k: nat, m: map<string, int>, entry: int)
    requires k < |ds| && m == TotalsOf(ds[..k])
    requires var p := ds[k].item.payer;
      entry == if p in m then m[p] - ds[k].deducted else -1 * ds[k].deducted
    ensures m[ds[k].item.payer := entry] == TotalsOf(ds[..k + 1])
  {
    TotalsOfPrefix(ds, k);
  }

  /** The last deduction of a plan is committed in place, over the record it names. */
  lemma CommitLast(rs: seq<Reward>, ds: seq<Deduction>)
    requires Sorted(rs) && Targets(rs, ds) && ds != []
    requires var mid := Commit(rs, ds[..|ds| - 1]);
      |mid| == |rs| && forall j :: 0 <= j < |rs| ==> mid[j] == Charge(rs[j], ChargeAt(ds[..|ds| - 1], j))
    ensures var d := ds[|ds| - 1];
      var mid := Commit(rs, ds[..|ds| - 1]);
      mid[d.at] == d.item && Commit(rs, ds) == mid[d.at := Charge(d.item, d.deducted)]
  {
    var front := ds[..|ds| - 1];
    var d := ds[|ds| - 1];
    var mid := Commit(rs, front);
    ChargeAtMissing(front, d.at);
    assert mid[d.at] == d.item;
    UpsertReplaces(mid, d.at, Charge(d.item, d.deducted));
  }

  /**
   * Committing a plan over the ledger's own records moves the total and each payer's
   * balance down by what is planned against them, and keeps the set of payers.
   */
  lemma {:induction false} CommitSums(rs: seq<Reward>, ds: seq<Deduction>)
    requires Sorted(rs) && Targets(rs, ds)
    ensures var after := Commit(rs, ds);
      Total(after) == Total(rs) - SumDeducted(ds) &&
      Payers(after) == Payers(rs) &&
      forall p :: PayerSum(after, p) == PayerSum(rs, p) - PayerDeducted(ds, p)
  {
    if ds != [] {
      var front := ds[..|ds| - 1];
      var d := ds[|ds| - 1];
      CommitSums(rs, front);
      CommitInPlace(rs, front);
      CommitLast(rs, ds);
      var mid := Commit(rs, front);
      var x := Charge(d.item, d.deducted);
      TotalUpdate(mid, d.at, x);
      PayersUpdate(mid, d.at, x);
      forall p ensures PayerSum(Commit(rs, ds), p) == PayerSum(rs, p) - PayerDeducted(ds, p) {
        PayerSumUpdate(mid, d.at, x, p);
      }
    }
  }

  /**
   * The per-payer result has one entry per payer the plan touches, holding the
   * negated sum of that payer's planned amounts; its values add up to the negated
   * plan total.
   */
  lemma TotalsOfPlan(ds: seq<Deduction>)
    ensures var totals := TotalsOf(ds);
      totals.Keys == PlanPayers(ds) &&
      (forall p :: p in totals ==> totals[p] == -PayerDeducted(ds, p)) &&
      (forall p :: p !in totals ==> PayerDeducted(ds, p) == 0) &&
      MapSum(totals) == -SumDeducted(ds)
  {
    TotalsOfEntries(ds);
    TotalsOfSum(ds);
  }

  lemma {:induction false} TotalsOfEntries(ds: seq<Deduction>)
    ensures var totals := TotalsOf(ds);
      totals.Keys == PlanPayers(ds) &&
      (forall p :: p in totals ==> totals[p] == -PayerDeducted(ds, p)) &&
      (forall p :: p !in totals ==> PayerDeducted(ds, p) == 0)
  {
    if ds != [] {
      TotalsOfEntries(ds[..|ds| - 1]);
      PlanPayersSnoc(ds);
    }
  }

  lemma {:induction false} TotalsOfSum(ds: seq<Deduction>)
    ensures MapSum(TotalsOf(ds)) == -SumDeducted(ds)
  {
    if ds != [] {
      var front := ds[..|ds| - 1];
      var d := ds[|ds| - 1];
      TotalsOfSum(front);
      MapSumAdjust(TotalsOf(front), d.item.payer, -d.deducted);
    }
  }

  /** The payers of a plan are those of all but its last deduction, and the last one's. */
  lemma PlanPayersSnoc(ds: seq<Deduction>)
    requires ds != []
    ensures PlanPayers(ds) == PlanPayers(ds[..|ds| - 1]) + {ds[|ds| - 1].item.payer}
  {
    var front := ds[..|ds| - 1];
    forall p | p in PlanPayers(ds) ensures p in PlanPayers(front) + {ds[|ds| - 1].item.payer} {
      var k :| 0 <= k < |ds| && ds[k].item.payer == p;
      if k < |front| { assert front[k] == ds[k]; }
    }
    forall p | p in PlanPayers(front) ensures p in PlanPayers(ds) {
      var k :| 0 <= k < |front| && front[k].item.payer == p;
      assert ds[k] == front[k];
    }
  }

  /* ---------------- what a redemption does to the ledger ---------------- */

  /** ConsumedUpTo(rs, after, n): records before `n` end exhausted, the one at `n` is partly used, the rest are untouched. */
  predicate ConsumedUpTo(rs: seq<Reward>, after: seq<Reward>, n: nat)
    requires |after| == |rs| && n <= |rs|
  {
    (forall j :: 0 <= j < n ==> after[j] == rs[j].(used := rs[j].points)) &&
    (n < |rs| ==> after[n] == rs[n].(used := after[n].used) && rs[n].used <= after[n].used <= rs[n].points) &&
    (forall j :: n < j < |rs| ==> after[j] == rs[j])
  }

  /**
   * A successful redemption consumes the ledger oldest first: there is a stopping
   * point before which every record ends exhausted (a claw-back included), at which
   * the record may be partly used, and after which nothing is touched.
   */
  lemma RedeemFifo(rs: seq<Reward>, requested: int)
    requires Sorted(rs) && 0 <= requested && Plan(rs, requested).remaining == 0
    ensures var after := Commit(rs, Plan(rs, requested).deductions);
      |after| == |rs| && exists n :: 0 <= n <= |rs| && ConsumedUpTo(rs, after, n)
  {
    var ds := Plan(rs, requested).deductions;
    PlanTargets(rs, 0, requested);
    CommitInPlace(rs, ds);
    PlanCharges(rs, 0, requested);
    var n :| 0 <= n <= |rs| && StopsAt(rs, ds, 0, n);
    var after := Commit(rs, ds);
    forall j | 0 <= j < n ensures after[j] == rs[j].(used := rs[j].points) {
      assert ChargeAt(ds, j) == Avail(rs[j]);
    }
    forall j | n < j < |rs| ensures after[j] == rs[j] {
      assert ChargeAt(ds, j) == 0;
    }
    assert ConsumedUpTo(rs, after, n);
  }

  /** A successful redemption keeps every record's `used` within its range. */
  lemma RedeemKeepsWellFormed(rs: seq<Reward>, requested: int)
    requires Sorted(rs) && WellFormed(rs) && 0 <= requested && Plan(rs, requested).remaining == 0
    ensures WellFormed(Commit(rs, Plan(rs, requested).deductions))
  {
    var after := Commit(rs, Plan(rs, requested).deductions);
    RedeemFifo(rs, requested);
    var n :| 0 <= n <= |rs| && ConsumedUpTo(rs, after, n);
    forall j | 0 <= j < |after| ensures UsedInRange(after[j]) {
      assert UsedInRange(rs[j]);
    }
  }

  /**
   * Accounting of a successful redemption: the returned per-payer values add up to
   * `-requested`, the ledger's total drops by exactly `requested`, and the returned
   * payers are payers of the ledger.
   */
  lemma RedeemTotals(rs: seq<Reward>, requested: int)
    requires Sorted(rs) && 0 <= requested && Plan(rs, requested).remaining == 0
    ensures var ds := Plan(rs, requested).deductions;
      MapSum(TotalsOf(ds)) == -requested &&
      Total(Commit(rs, ds)) == Total(rs) - requested &&
      TotalsOf(ds).Keys <= Payers(rs)
  {
    var ds := Plan(rs, requested).deductions;
    PlanTargets(rs, 0, requested);
    PlanSum(rs, 0, requested);
    CommitSums(rs, ds);
    TotalsOfPlan(ds);
    forall p | p in PlanPayers(ds) ensures p in Payers(rs) {
      var k :| 0 <= k < |ds| && ds[k].item.payer == p;
      assert rs[ds[k].at].payer == p;
    }
  }

  /**
   * Per payer: after a successful redemption the balance table has the same payers,
   * and each payer's balance is its old one plus its (negative or zero, or positive
   * past a claw-back) entry in the returned totals, or unchanged when it has none.
   */
  lemma RedeemBalances(rs: seq<Reward>, requested: int)
    requires Sorted(rs) && Plan(rs, requested).remaining <= 0
    ensures var ds := Plan(rs, requested).deductions;
      var before := BalanceMap(rs);
      var after := BalanceMap(Commit(rs, ds));
      var totals := TotalsOf(ds);
      after.Keys == before.Keys &&
      forall p :: p in before ==> after[p] == before[p] + (if p in totals then totals[p] else 0)
  {
    var ds := Plan(rs, requested).deductions;
    PlanTargets(rs, 0, requested);
    CommitSums(rs, ds);
    TotalsOfPlan(ds);
  }
}
