/**
 * Concrete ledgers worked through the model: the repository's own test scenarios,
 * and the cases where the code's behaviour departs from what its callers might expect.
 * Each scenario is stated for any start second `t`; the offsets are those between the
 * RFC 3339 timestamps the tests use. Every step is its own small lemma, and each
 * scenario chains its steps.
 */
module Scenarios {
  import opened Records
  import opened Balances
  import opened Redemption
  import opened Store

  /** A fresh record of `points` from `payer` at Unix second `t`. */
  function At(t: int, points: int, payer: string): Reward
  {
    Reward(Time(t, 0), points, payer, 0)
  }

  /* ---------------- helpers for concrete ledgers ---------------- */

  /** Keys ascend from each record to the next. */
  predicate Ascending(rs: seq<Reward>)
  {
    |rs| <= 1 || (Key(rs[0]) < Key(rs[1]) && Ascending(rs[1..]))
  }

  lemma {:induction false} SortedAdjacent(rs: seq<Reward>)
    requires Ascending(rs)
    ensures Sorted(rs)
  {
    if rs != [] {
      var tail := rs[1..];
      SortedAdjacent(tail);
      forall i, j | 0 <= i < j < |rs| ensures Less(rs[i], rs[j]) {
        if 0 < i {
          assert Less(tail[i - 1], tail[j - 1]);
        } else if 1 < j {
          assert Less(tail[0], tail[j - 1]);
        }
      }
    }
  }

  /** Inserting at a fresh Unix second into a concrete ledger. */
  lemma Insert(front: seq<Reward>, back: seq<Reward>, r: Reward, rs: seq<Reward>, expected: seq<Reward>)
    requires rs == front + back && expected == front + ([r] + back)
    requires Ascending(rs)
    requires front != [] ==> Key(front[|front| - 1]) < Key(r)
    requires back != [] ==> Key(r) < Key(back[0])
    ensures Sorted(rs)
    ensures Upsert(rs, r) == expected
  {
    SortedAdjacent(rs);
    UpsertInserts(front, back, r);
  }

  /** Committing the next planned deduction of a concrete plan. */
  lemma CommitStep(rs: seq<Reward>, ds: seq<Deduction>, k: nat, before: seq<Reward>, after: seq<Reward>)
    requires Sorted(rs) && k < |ds| && Commit(rs, ds[..k]) == before
    requires ds[k].at < |before| && Key(before[ds[k].at]) == Key(ds[k].item)
    requires after == before[ds[k].at := Charge(ds[k].item, ds[k].deducted)]
    ensures Commit(rs, ds[..k + 1]) == after
    ensures k + 1 == |ds| ==> Commit(rs, ds) == after
  {
    assert k + 1 == |ds| ==> ds[..k + 1] == ds;
    CommitPrefix(rs, ds, k);
    UpsertReplaces(before, ds[k].at, Charge(ds[k].item, ds[k].deducted));
  }

  /** One more deduction adjusts its payer's entry in the per-payer result. */
  lemma TotalsOfSnoc(ds: seq<Deduction>, d: Deduction)
    ensures TotalsOf(ds + [d]) == Adjust(TotalsOf(ds), d.item.payer, -d.deducted)
  {
    assert (ds + [d])[..|ds|] == ds;
  }

  lemma PayerNamesDiffer()
    ensures "PAYER_A" != "PAYER_B" && "PAYER_A" != "PAYER_C" && "PAYER_B" != "PAYER_C"
    ensures "DANNON" != "UNILEVER" && "DANNON" != "MILLER COORS" && "UNILEVER" != "MILLER COORS"
    ensures "A" != "B"
  {
    assert "A"[0] == 'A' && "B"[0] == 'B';
    assert "PAYER_A"[6] == 'A' && "PAYER_B"[6] == 'B' && "PAYER_C"[6] == 'C';
    assert |"DANNON"| == 6 && |"UNILEVER"| == 8 && |"MILLER COORS"| == 12;
  }

  lemma NoBalances()
    ensures BalanceMap([]) == map[]
  {
    assert Payers([]) == {};
  }

  /** The balance table of a concrete ledger, one more record at a time. */
  lemma BalanceGrow(rs: seq<Reward>, r: Reward, grown: seq<Reward>, before: map<string, int>, after: map<string, int>)
    requires grown == rs + [r] && BalanceMap(rs) == before
    requires after == Adjust(before, r.payer, Avail(r))
    ensures BalanceMap(grown) == after
  {
    BalanceMapSnoc(rs, r);
  }

  /* ---------------- redeeming oldest first ---------------- */

  function A1(t: int): Reward { At(t, 100, "PAYER_A") }
  function B1(t: int): Reward { At(t + 10, 100, "PAYER_B") }
  function A2(t: int): Reward { At(t + 20, 100, "PAYER_A") }

  lemma OldestLedger(t: int)
    ensures Upsert(Upsert(Upsert([], A1(t)), B1(t)), A2(t)) == [A1(t), B1(t), A2(t)]
  {
    Insert([], [], A1(t), [], [A1(t)]);
    Insert([A1(t)], [], B1(t), [A1(t)], [A1(t), B1(t)]);
    Insert([A1(t), B1(t)], [], A2(t), [A1(t), B1(t)], [A1(t), B1(t), A2(t)]);
  }

  function OldestPlanned(t: int): seq<Deduction>
  {
    [Deduction(A1(t), 100, 0), Deduction(B1(t), 50, 1)]
  }

  lemma OldestPlan(t: int)
    ensures Plan([A1(t), B1(t), A2(t)], 150) == Scan(OldestPlanned(t), 0)
  {
    var rs := [A1(t), B1(t), A2(t)];
    var d0, d1 := Deduction(A1(t), 100, 0), Deduction(B1(t), 50, 1);
    assert PlanFrom(rs, 1, 50) == Scan([d1], 0);
    assert Plan(rs, 150) == Scan([d0] + [d1], 0);
  }

  lemma OldestCharge1(t: int)
    ensures Sorted([A1(t), B1(t), A2(t)])
    ensures Commit([A1(t), B1(t), A2(t)], OldestPlanned(t)[..1]) == [A1(t).(used := 100), B1(t), A2(t)]
  {
    var rs, ds := [A1(t), B1(t), A2(t)], OldestPlanned(t);
    Insert([A1(t), B1(t)], [], A2(t), [A1(t), B1(t)], rs);
    assert ds[..0] == [];
    CommitStep(rs, ds, 0, rs, [A1(t).(used := 100), B1(t), A2(t)]);
  }

  lemma OldestCommit(t: int)
    ensures Commit([A1(t), B1(t), A2(t)], OldestPlanned(t)) == [A1(t).(used := 100), B1(t).(used := 50), A2(t)]
  {
    OldestCharge1(t);
    CommitStep([A1(t), B1(t), A2(t)], OldestPlanned(t), 1, [A1(t).(used := 100), B1(t), A2(t)],
      [A1(t).(used := 100), B1(t).(used := 50), A2(t)]);
  }

  lemma OldestTotals(t: int)
    ensures TotalsOf(OldestPlanned(t)) == map["PAYER_A" := -100, "PAYER_B" := -50]
  {
    var d0, d1 := Deduction(A1(t), 100, 0), Deduction(B1(t), 50, 1);
    assert [] + [d0] == [d0] && [d0] + [d1] == [d0, d1];
    PayerNamesDiffer();
    TotalsOfSnoc([], d0);
    TotalsOfSnoc([d0], d1);
  }

  lemma OldestAfter(t: int)
    ensures Plan([A1(t).(used := 100), B1(t).(used := 50), A2(t)], 3000).remaining == 2850
  {
    var after := [A1(t).(used := 100), B1(t).(used := 50), A2(t)];
    assert PlanFrom(after, 2, 2950).remaining == 2850;
    assert PlanFrom(after, 1, 3000).remaining == 2850;
  }

  /**
   * Three grants of 100 at t, t+10 and t+20 (A, B, A): redeeming 150 takes all of the
   * first and 50 of the second, reports the amounts negated, and deletes nothing; a
   * further request for 3000 then fails.
   */
  lemma UseOldestFirst(t: int)
    ensures var rs := Upsert(Upsert(Upsert([], A1(t)), B1(t)), A2(t));
      var scan := Plan(rs, 150);
      var after := Commit(rs, scan.deductions);
      scan.remaining == 0 &&
      TotalsOf(scan.deductions) == map["PAYER_A" := -100, "PAYER_B" := -50] &&
      |after| == 3 &&
      Plan(after, 3000).remaining > 0
  {
    OldestLedger(t);
    OldestPlan(t);
    OldestCommit(t);
    OldestTotals(t);
    OldestAfter(t);
  }

  /* ---------------- the redemption handler test ---------------- */

  /*
   * The redemption handler test adds, in this order: DANNON 1000 at 2020-11-02T14:00:00Z,
   * UNILEVER 200 at 2020-10-31T11:00:00Z, DANNON -200 at 2020-10-31T15:00:00Z,
   * MILLER COORS 10000 at 2020-11-01T14:00:00Z and DANNON 300 at 2020-10-31T10:00:00Z.
   * Relative to the earliest (t), these are t+187200, t+3600, t+18000, t+100800 and t.
   */
  function Dannon1000(t: int): Reward { At(t + 187200, 1000, "DANNON") }
  function Unilever200(t: int): Reward { At(t + 3600, 200, "UNILEVER") }
  function DannonClawback(t: int): Reward { At(t + 18000, -200, "DANNON") }
  function Miller10000(t: int): Reward { At(t + 100800, 10000, "MILLER COORS") }
  function Dannon300(t: int): Reward { At(t, 300, "DANNON") }

  lemma HandlerInsert1(t: int)
    ensures Upsert([], Dannon1000(t)) == [Dannon1000(t)]
  {
    Insert([], [], Dannon1000(t), [], [Dannon1000(t)]);
  }

  lemma HandlerInsert2(t: int)
    ensures Upsert([Dannon1000(t)], Unilever200(t)) == [Unilever200(t), Dannon1000(t)]
  {
    Insert([], [Dannon1000(t)], Unilever200(t), [Dannon1000(t)], [Unilever200(t), Dannon1000(t)]);
  }

  lemma HandlerInsert3(t: int)
    ensures Upsert([Unilever200(t), Dannon1000(t)], DannonClawback(t)) == [Unilever200(t), DannonClawback(t), Dannon1000(t)]
  {
    Insert([Unilever200(t)], [Dannon1000(t)], DannonClawback(t), [Unilever200(t), Dannon1000(t)],
      [Unilever200(t), DannonClawback(t), Dannon1000(t)]);
  }

  lemma HandlerInsert4(t: int)
    ensures Upsert([Unilever200(t), DannonClawback(t), Dannon1000(t)], Miller10000(t)) ==
      [Unilever200(t), DannonClawback(t), Miller10000(t), Dannon1000(t)]
  {
    var d1, u, dm, m := Dannon1000(t), Unilever200(t), DannonClawback(t), Miller10000(t);
    assert [u, dm, d1][1..] == [dm, d1];
    Insert([u, dm], [d1], m, [u, dm, d1], [u, dm, m, d1]);
  }

  lemma HandlerInsert5(t: int)
    ensures Upsert([Unilever200(t), DannonClawback(t), Miller10000(t), Dannon1000(t)], Dannon300(t)) ==
      [Dannon300(t), Unilever200(t), DannonClawback(t), Miller10000(t), Dannon1000(t)]
  {
    var d1, u, dm, m, d3 := Dannon1000(t), Unilever200(t), DannonClawback(t), Miller10000(t), Dannon300(t);
    assert [u, dm, m, d1][1..] == [dm, m, d1] && [dm, m, d1][1..] == [m, d1] && [m, d1][1..] == [d1];
    assert Ascending([m, d1]) && Ascending([dm, m, d1]);
    Insert([], [u, dm, m, d1], d3, [u, dm, m, d1], [d3, u, dm, m, d1]);
  }

  /** Before the claw-back arrives, DANNON's balance is 1000, so the claw-back of 200 is admitted. */
  lemma HandlerAdmits(t: int)
    ensures Admits([Unilever200(t), Dannon1000(t)], -200, "DANNON")
  {
    var d1, u := Dannon1000(t), Unilever200(t);
    PayerNamesDiffer();
    NoBalances();
    assert [] + [u] == [u] && [u] + [d1] == [u, d1];
    BalanceMapSnoc([], u);
    BalanceMapSnoc([u], d1);
  }

  /** The redemption handler test's ledger, added in the test's order and kept in time order; the claw-back is admitted. */
  lemma HandlerLedger(t: int)
    ensures var rs2 := Upsert(Upsert([], Dannon1000(t)), Unilever200(t));
      Admits(rs2, -200, "DANNON") &&
      Upsert(Upsert(Upsert(rs2, DannonClawback(t)), Miller10000(t)), Dannon300(t)) ==
        [Dannon300(t), Unilever200(t), DannonClawback(t), Miller10000(t), Dannon1000(t)]
  {
    HandlerInsert1(t);
    HandlerInsert2(t);
    HandlerAdmits(t);
    HandlerInsert3(t);
    HandlerInsert4(t);
    HandlerInsert5(t);
  }

  function HandlerRecords(t: int): seq<Reward>
  {
    [Dannon300(t), Unilever200(t), DannonClawback(t), Miller10000(t), Dannon1000(t)]
  }

  function HandlerPlanned(t: int): seq<Deduction>
  {
    [Deduction(Dannon300(t), 300, 0), Deduction(Unilever200(t), 200, 1),
     Deduction(DannonClawback(t), -200, 2), Deduction(Miller10000(t), 4700, 3)]
  }

  function HandlerCharged(t: int): seq<Reward>
  {
    [Dannon300(t).(used := 300), Unilever200(t).(used := 200), DannonClawback(t).(used := -200),
     Miller10000(t).(used := 4700), Dannon1000(t)]
  }

  /** Redeeming 5000 from that ledger: 300 from DANNON's oldest grant, 200 from UNILEVER, -200 back from the claw-back, 4700 from MILLER COORS. */
  lemma HandlerPlan(t: int)
    ensures Plan(HandlerRecords(t), 5000) == Scan(HandlerPlanned(t), 0)
  {
    var rs := HandlerRecords(t);
    var ds := HandlerPlanned(t);
    assert PlanFrom(rs, 3, 4700) == Scan([ds[3]], 0);
    assert PlanFrom(rs, 2, 4500) == Scan([ds[2]] + [ds[3]], 0);
    assert PlanFrom(rs, 1, 4700) == Scan([ds[1]] + [ds[2], ds[3]], 0);
    assert PlanFrom(rs, 0, 5000) == Scan([ds[0]] + [ds[1], ds[2], ds[3]], 0);
  }

  lemma HandlerSorted(t: int)
    ensures Sorted(HandlerRecords(t))
  {
    var d1, u, dm, m, d3 := Dannon1000(t), Unilever200(t), DannonClawback(t), Miller10000(t), Dannon300(t);
    assert [d3, u, dm, m][1..] == [u, dm, m] && [u, dm, m][1..] == [dm, m];
    assert Ascending([dm, m]) && Ascending([u, dm, m]);
    Insert([d3, u, dm, m], [], d1, [d3, u, dm, m], HandlerRecords(t));
  }

  lemma HandlerCharge1(t: int)
    ensures Sorted(HandlerRecords(t))
    ensures Commit(HandlerRecords(t), HandlerPlanned(t)[..1]) ==
      [Dannon300(t).(used := 300), Unilever200(t), DannonClawback(t), Miller10000(t), Dannon1000(t)]
  {
    var rs, ds := HandlerRecords(t), HandlerPlanned(t);
    HandlerSorted(t);
    assert ds[..0] == [];
    CommitStep(rs, ds, 0, rs, [Dannon300(t).(used := 300), Unilever200(t), DannonClawback(t), Miller10000(t), Dannon1000(t)]);
  }

  lemma HandlerCharge2(t: int)
    ensures Sorted(HandlerRecords(t))
    ensures Commit(HandlerRecords(t), HandlerPlanned(t)[..2]) ==
      [Dannon300(t).(used := 300), Unilever200(t).(used := 200), DannonClawback(t), Miller10000(t), Dannon1000(t)]
  {
    HandlerCharge1(t);
    CommitStep(HandlerRecords(t), HandlerPlanned(t), 1,
      [Dannon300(t).(used := 300), Unilever200(t), DannonClawback(t), Miller10000(t), Dannon1000(t)],
      [Dannon300(t).(used := 300), Unilever200(t).(used := 200), DannonClawback(t), Miller10000(t), Dannon1000(t)]);
  }

  lemma HandlerCharge3(t: int)
    ensures Sorted(HandlerRecords(t))
    ensures Commit(HandlerRecords(t), HandlerPlanned(t)[..3]) ==
      [Dannon300(t).(used := 300), Unilever200(t).(used := 200), DannonClawback(t).(used := -200), Miller10000(t), Dannon1000(t)]
  {
    HandlerCharge2(t);
    CommitStep(HandlerRecords(t), HandlerPlanned(t), 2,
      [Dannon300(t).(used := 300), Unilever200(t).(used := 200), DannonClawback(t), Miller10000(t), Dannon1000(t)],
      [Dannon300(t).(used := 300), Unilever200(t).(used := 200), DannonClawback(t).(used := -200), Miller10000(t), Dannon1000(t)]);
  }

  /** Committing that plan charges each planned record in place. */
  lemma HandlerCommit(t: int)
    ensures Commit(HandlerRecords(t), HandlerPlanned(t)) == HandlerCharged(t)
  {
    HandlerCharge3(t);
    CommitStep(HandlerRecords(t), HandlerPlanned(t), 3,
      [Dannon300(t).(used := 300), Unilever200(t).(used := 200), DannonClawback(t).(used := -200), Miller10000(t), Dannon1000(t)],
      HandlerCharged(t));
  }

  /** The per-payer result of that plan nets DANNON's two entries. */
  lemma HandlerTotals(t: int)
    ensures TotalsOf(HandlerPlanned(t)) == map["DANNON" := -100, "UNILEVER" := -200, "MILLER COORS" := -4700]
  {
    var ds := HandlerPlanned(t);
    var x0, x1, x2, x3 := ds[0], ds[1], ds[2], ds[3];
    assert [] + [x0] == [x0] && [x0] + [x1] == [x0, x1] && [x0, x1] + [x2] == [x0, x1, x2];
    assert [x0, x1, x2] + [x3] == ds;
    PayerNamesDiffer();
    TotalsOfSnoc([], x0);
    TotalsOfSnoc([x0], x1);
    TotalsOfSnoc([x0, x1], x2);
    TotalsOfSnoc([x0, x1, x2], x3);
    assert TotalsOf([x0, x1]) == map["DANNON" := -300, "UNILEVER" := -200];
    assert TotalsOf([x0, x1, x2]) == map["DANNON" := -100, "UNILEVER" := -200];
  }

  lemma HandlerBalances2(t: int)
    ensures BalanceMap([Dannon300(t).(used := 300), Unilever200(t).(used := 200)]) == map["DANNON" := 0, "UNILEVER" := 0]
  {
    var d3', u' := Dannon300(t).(used := 300), Unilever200(t).(used := 200);
    PayerNamesDiffer();
    NoBalances();
    BalanceGrow([], d3', [d3'], map[], map["DANNON" := 0]);
    BalanceGrow([d3'], u', [d3', u'], map["DANNON" := 0], map["DANNON" := 0, "UNILEVER" := 0]);
  }

  lemma HandlerBalances4(t: int)
    ensures BalanceMap(HandlerCharged(t)[..4]) == map["DANNON" := 0, "UNILEVER" := 0, "MILLER COORS" := 5300]
  {
    var after := HandlerCharged(t);
    var d3', u', dm', m' := after[0], after[1], after[2], after[3];
    HandlerBalances2(t);
    PayerNamesDiffer();
    BalanceGrow([d3', u'], dm', [d3', u', dm'], map["DANNON" := 0, "UNILEVER" := 0], map["DANNON" := 0, "UNILEVER" := 0]);
    BalanceGrow([d3', u', dm'], m', after[..4], map["DANNON" := 0, "UNILEVER" := 0],
      map["DANNON" := 0, "UNILEVER" := 0, "MILLER COORS" := 5300]);
  }

  /** The balances after that redemption. */
  lemma HandlerBalances(t: int)
    ensures BalanceMap(HandlerCharged(t)) == map["DANNON" := 1000, "UNILEVER" := 0, "MILLER COORS" := 5300]
  {
    var after := HandlerCharged(t);
    HandlerBalances4(t);
    PayerNamesDiffer();
    BalanceGrow(after[..4], after[4], after, map["DANNON" := 0, "UNILEVER" := 0, "MILLER COORS" := 5300],
      map["DANNON" := 1000, "UNILEVER" := 0, "MILLER COORS" := 5300]);
  }

  /** A further request for 10000 finds only 6300 left and fails, 3700 short. */
  lemma HandlerShort(t: int)
    ensures Plan(HandlerCharged(t), 10000).remaining == 3700
  {
    var after := HandlerCharged(t);
    assert PlanFrom(after, 4, 4700).remaining == 3700;
    assert PlanFrom(after, 3, 10000).remaining == 3700;
    assert PlanFrom(after, 2, 10000).remaining == 3700;
    assert PlanFrom(after, 1, 10000).remaining == 3700;
  }

  /**
   * The redemption handler scenario end to end: the claw-back is admitted, redeeming
   * 5000 reports DANNON -100, UNILEVER -200 and MILLER COORS -4700, leaves balances
   * 1000, 0 and 5300, and a further request for 10000 fails.
   */
  lemma UseHandlerScenario(t: int)
    ensures var rs2 := Upsert(Upsert([], Dannon1000(t)), Unilever200(t));
      var rs := Upsert(Upsert(Upsert(rs2, DannonClawback(t)), Miller10000(t)), Dannon300(t));
      var scan := Plan(rs, 5000);
      var after := Commit(rs, scan.deductions);
      Admits(rs2, -200, "DANNON") &&
      scan.remaining == 0 &&
      TotalsOf(scan.deductions) == map["DANNON" := -100, "UNILEVER" := -200, "MILLER COORS" := -4700] &&
      BalanceMap(after) == map["DANNON" := 1000, "UNILEVER" := 0, "MILLER COORS" := 5300] &&
      Plan(after, 10000).remaining > 0
  {
    HandlerLedger(t);
    HandlerPlan(t);
    HandlerCommit(t);
    HandlerTotals(t);
    HandlerBalances(t);
    HandlerShort(t);
  }

  /* ---------------- the balance handler test ---------------- */

  function PA(t: int): Reward { At(t, 100, "PAYER_A") }
  function PB1(t: int): Reward { At(t + 10, 200, "PAYER_B") }
  function PC1(t: int): Reward { At(t + 20, 200, "PAYER_C") }
  function PB2(t: int): Reward { At(t + 30, 100, "PAYER_B") }
  function PC2(t: int): Reward { At(t + 40, 200, "PAYER_C") }

  lemma BalanceLedgerFront(t: int)
    ensures Upsert(Upsert(Upsert([], PA(t)), PB1(t)), PC1(t)) == [PA(t), PB1(t), PC1(t)]
  {
    Insert([], [], PA(t), [], [PA(t)]);
    Insert([PA(t)], [], PB1(t), [PA(t)], [PA(t), PB1(t)]);
    Insert([PA(t), PB1(t)], [], PC1(t), [PA(t), PB1(t)], [PA(t), PB1(t), PC1(t)]);
  }

  lemma BalanceInsert4(t: int)
    ensures Upsert([PA(t), PB1(t), PC1(t)], PB2(t)) == [PA(t), PB1(t), PC1(t), PB2(t)]
  {
    var a, b1, c1, b2 := PA(t), PB1(t), PC1(t), PB2(t);
    assert [a, b1, c1][1..] == [b1, c1];
    Insert([a, b1, c1], [], b2, [a, b1, c1], [a, b1, c1, b2]);
  }

  lemma BalanceInsert5(t: int)
    ensures Upsert([PA(t), PB1(t), PC1(t), PB2(t)], PC2(t)) == [PA(t), PB1(t), PC1(t), PB2(t), PC2(t)]
  {
    var a, b1, c1, b2, c2 := PA(t), PB1(t), PC1(t), PB2(t), PC2(t);
    assert [a, b1, c1, b2][1..] == [b1, c1, b2] && [b1, c1, b2][1..] == [c1, b2];
    assert Ascending([c1, b2]) && Ascending([b1, c1, b2]);
    Insert([a, b1, c1, b2], [], c2, [a, b1, c1, b2], [a, b1, c1, b2, c2]);
  }

  lemma BalanceTable3(t: int)
    ensures BalanceMap([PA(t), PB1(t), PC1(t)]) == map["PAYER_A" := 100, "PAYER_B" := 200, "PAYER_C" := 200]
  {
    var a, b1, c1 := PA(t), PB1(t), PC1(t);
    PayerNamesDiffer();
    NoBalances();
    BalanceGrow([], a, [a], map[], map["PAYER_A" := 100]);
    BalanceGrow([a], b1, [a, b1], map["PAYER_A" := 100], map["PAYER_A" := 100, "PAYER_B" := 200]);
    BalanceGrow([a, b1], c1, [a, b1, c1], map["PAYER_A" := 100, "PAYER_B" := 200],
      map["PAYER_A" := 100, "PAYER_B" := 200, "PAYER_C" := 200]);
  }

  lemma BalanceTable(t: int)
    ensures BalanceMap([PA(t), PB1(t), PC1(t), PB2(t), PC2(t)]) == map["PAYER_A" := 100, "PAYER_B" := 300, "PAYER_C" := 400]
  {
    var a, b1, c1, b2, c2 := PA(t), PB1(t), PC1(t), PB2(t), PC2(t);
    BalanceTable3(t);
    PayerNamesDiffer();
    BalanceGrow([a, b1, c1], b2, [a, b1, c1, b2], map["PAYER_A" := 100, "PAYER_B" := 200, "PAYER_C" := 200],
      map["PAYER_A" := 100, "PAYER_B" := 300, "PAYER_C" := 200]);
    BalanceGrow([a, b1, c1, b2], c2, [a, b1, c1, b2, c2], map["PAYER_A" := 100, "PAYER_B" := 300, "PAYER_C" := 200],
      map["PAYER_A" := 100, "PAYER_B" := 300, "PAYER_C" := 400]);
  }

  /**
   * The balance handler scenario: an empty store reports no balances; after grants
   * A 100, B 200, C 200, B 100, C 200 ten seconds apart it reports A 100, B 300, C 400.
   */
  lemma BalanceHandlerScenario(t: int)
    ensures BalanceMap([]) == map[]
    ensures var rs := Upsert(Upsert(Upsert(Upsert(Upsert([], PA(t)), PB1(t)), PC1(t)), PB2(t)), PC2(t));
      BalanceMap(rs) == map["PAYER_A" := 100, "PAYER_B" := 300, "PAYER_C" := 400]
  {
    NoBalances();
    BalanceLedgerFront(t);
    BalanceInsert4(t);
    BalanceInsert5(t);
    BalanceTable(t);
  }

  /* ---------------- the add handler test ---------------- */

  /** The add handler scenario: after a grant of 150, a claw-back of 200 from the same payer is refused. */
  lemma AddHandlerScenario(t: int)
    ensures !Admits(Upsert([], At(t, 150, "PAYER_A")), -200, "PAYER_A")
  {
    var rs := Upsert([], At(t, 150, "PAYER_A"));
    assert rs == [At(t, 150, "PAYER_A")];
    assert Payers(rs) == {"PAYER_A"} by { assert rs[0].payer == "PAYER_A"; }
    assert PayerSum(rs, "PAYER_A") == 150 by { assert rs[1..] == []; }
  }

  /* ---------------- behaviour beyond the tests ---------------- */

  function Grant(t: int): Reward { At(t, 100, "A") }
  function Clawback(t: int): Reward { At(t + 1, -100, "A") }

  lemma ClawbackLedger(t: int)
    ensures Upsert(Upsert([], Grant(t)), Clawback(t)) == [Grant(t), Clawback(t)]
    ensures Admits([Grant(t)], -100, "A")
  {
    Insert([], [], Grant(t), [], [Grant(t)]);
    Insert([Grant(t)], [], Clawback(t), [Grant(t)], [Grant(t), Clawback(t)]);
    NoBalances();
    assert [] + [Grant(t)] == [Grant(t)];
    BalanceMapSnoc([], Grant(t));
  }

  lemma ClawbackPlan(t: int)
    ensures Total([Grant(t), Clawback(t)]) == 0
    ensures Plan([Grant(t), Clawback(t)], 50) == Scan([Deduction(Grant(t), 50, 0)], 0)
  {
    var g, c := Grant(t), Clawback(t);
    assert [g, c][1..] == [c] && [c][1..] == [];
    assert Total([c]) == -100;
  }

  lemma ClawbackCommit(t: int)
    ensures Commit([Grant(t), Clawback(t)], [Deduction(Grant(t), 50, 0)]) == [Grant(t).(used := 50), Clawback(t)]
  {
    var g, c := Grant(t), Clawback(t);
    var d := Deduction(g, 50, 0);
    Insert([g], [], c, [g], [g, c]);
    assert [d][..0] == [] && [d][..1] == [d];
    CommitStep([g, c], [d], 0, [g, c], [g.(used := 50), c]);
  }

  lemma ClawbackRedeem(t: int)
    ensures var rs := [Grant(t), Clawback(t)];
      var d := Deduction(Grant(t), 50, 0);
      Total(rs) == 0 && Plan(rs, 50) == Scan([d], 0) &&
      BalanceMap(Commit(rs, [d])) == map["A" := -50]
  {
    var g', c := Grant(t).(used := 50), Clawback(t);
    ClawbackPlan(t);
    ClawbackCommit(t);
    NoBalances();
    BalanceGrow([], g', [g'], map[], map["A" := 50]);
    BalanceGrow([g'], c, [g', c], map["A" := 50], map["A" := -50]);
  }

  /**
   * A payer's balance can go negative: A grants 100 and then claws back 100 (admitted,
   * the balance is exactly 0), and redeeming 50 stops at the grant, so A ends at -50.
   * The same ledger shows that a request above the ledger's total can succeed.
   */
  lemma BalanceCanGoNegative(t: int)
    ensures Admits([Grant(t)], -100, "A")
    ensures var rs := Upsert(Upsert([], Grant(t)), Clawback(t));
      var scan := Plan(rs, 50);
      Total(rs) == 0 && scan.remaining == 0 &&
      BalanceMap(Commit(rs, scan.deductions)) == map["A" := -50]
  {
    ClawbackLedger(t);
    ClawbackRedeem(t);
  }

  /**
   * A grant at the same Unix second as another payer's record replaces it: A's grant
   * of 100 at t is overwritten by B's grant of 5, and A's admitted claw-back of 100
   * at t+1 now leaves A at -100.
   */
  lemma SameSecondReplaces(t: int)
    ensures var rs := Upsert(Upsert(Upsert([], Grant(t)), Clawback(t)), At(t, 5, "B"));
      BalanceMap(rs) == map["A" := -100, "B" := 5]
    ensures Admits([Grant(t)], -100, "A")
  {
    var g, c, b := Grant(t), Clawback(t), At(t, 5, "B");
    ClawbackLedger(t);
    SortedAdjacent([g, c]);
    UpsertReplaces([g, c], 0, b);
    assert [g, c][0 := b] == [b, c];
    PayerNamesDiffer();
    NoBalances();
    BalanceGrow([], b, [b], map[], map["B" := 5]);
    BalanceGrow([b], c, [b, c], map["B" := 5], map["A" := -100, "B" := 5]);
  }

  /** Redeeming 0 against a ledger whose oldest live record is a grant reports that payer with 0. */
  lemma UseZero(t: int)
    ensures var scan := Plan([At(t, 100, "A")], 0);
      scan.remaining == 0 && TotalsOf(scan.deductions) == map["A" := 0]
  {
    var scan := Plan([At(t, 100, "A")], 0);
    assert scan == Scan([Deduction(At(t, 100, "A"), 0, 0)], 0);
  }

  /**
   * A negative request is not refused: against a grant of 100, a request for -50
   * succeeds, reports +50 for the payer, raises its balance to 150 and leaves the
   * grant with a negative `used`.
   */
  lemma UseNegative(t: int)
    ensures var rs := [At(t, 100, "A")];
      var scan := Plan(rs, -50);
      var after := Commit(rs, scan.deductions);
      scan.remaining == 0 && TotalsOf(scan.deductions) == map["A" := 50] &&
      BalanceMap(after) == map["A" := 150] && !WellFormed(after)
  {
    var r := At(t, 100, "A");
    var r' := r.(used := -50);
    var d := Deduction(r, -50, 0);
    assert Plan([r], -50) == Scan([d], 0);
    assert [d][..0] == [] && [d][..1] == [d];
    CommitStep([r], [d], 0, [r], [r']);
    NoBalances();
    BalanceGrow([], r', [r'], map[], map["A" := 150]);
    assert !UsedInRange([r'][0]);
  }
}
