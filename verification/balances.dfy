/**
 * What the ledger's records add up to: per-payer balances, the balance table the
 * store reports, and the grand total.
 */
module Balances {
  import opened Records

  /** A record's contribution to payer `p`'s balance. */
  function Share(r: Reward, p: string): int
  {
    if r.payer == p then Avail(r) else 0
  }

  /** `p`'s balance: the sum of `points - used` over `p`'s records. */
  function PayerSum(rs: seq<Reward>, p: string): (sum: int)
    ensures p !in Payers(rs) ==> sum == 0
  {
    if rs == [] then 0
    else
      PayersCons(rs);
      Share(rs[0], p) + PayerSum(rs[1..], p)
  }

  /** The sum of `points - used` over all records. */
  function Total(rs: seq<Reward>): int
  {
    if rs == [] then 0 else Avail(rs[0]) + Total(rs[1..])
  }

  /** The payers having at least one record. */
  function Payers(rs: seq<Reward>): set<string>
  {
    set i | 0 <= i < |rs| :: rs[i].payer
  }

  /** The balance table: one entry per payer with a record, holding that payer's balance. */
  function BalanceMap(rs: seq<Reward>): map<string, int>
  {
    map p | p in Payers(rs) :: PayerSum(rs, p)
  }

  /** The sum of a map's values (the order in which keys are taken does not matter, see MapSumRemove). */
  ghost function MapSum(m: map<string, int>): int
    decreases |m|
  {
    if m == map[] then 0
    else
      var k :| k in m;
      assert |m - {k}| < |m| by { assert (m - {k}).Keys == m.Keys - {k}; }
      m[k] + MapSum(m - {k})
  }

  /** Adding `delta` to the entry of `k` (created at 0 when absent). */
  function Adjust(m: map<string, int>, k: string, delta: int): map<string, int>
  {
    m[k := (if k in m then m[k] else 0) + delta]
  }

  lemma {:induction false} MapSumRemove(m: map<string, int>, k: string)
    requires k in m
    ensures MapSum(m) == m[k] + MapSum(m - {k})
    decreases |m|
  {
    var k' :| k' in m && MapSum(m) == m[k'] + MapSum(m - {k'});
    if k' != k {
      assert |m - {k'}| < |m| by { assert (m - {k'}).Keys == m.Keys - {k'}; }
      assert |m - {k}| < |m| by { assert (m - {k}).Keys == m.Keys - {k}; }
      MapSumRemove(m - {k'}, k);
      MapSumRemove(m - {k}, k');
      assert m - {k'} - {k} == m - {k} - {k'};
    }
  }

  /** Adjusting one entry by `delta` moves the sum of the map by exactly `delta`. */
  lemma MapSumAdjust(m: map<string, int>, k: string, delta: int)
    ensures MapSum(Adjust(m, k, delta)) == MapSum(m) + delta
  {
    var m' := Adjust(m, k, delta);
    MapSumRemove(m', k);
    if k in m {
      MapSumRemove(m, k);
      assert m' - {k} == m - {k};
    } else {
      assert m' - {k} == m;
    }
  }

  lemma PayersCons(rs: seq<Reward>)
    requires rs != []
    ensures Payers(rs) == Payers(rs[1..]) + {rs[0].payer}
  {
    var tail := rs[1..];
    forall p | p in Payers(rs) ensures p in Payers(tail) + {rs[0].payer} {
      var i :| 0 <= i < |rs| && rs[i].payer == p;
      if i > 0 { assert tail[i - 1].payer == p; }
    }
    forall p | p in Payers(tail) ensures p in Payers(rs) {
      var i :| 0 <= i < |tail| && tail[i].payer == p;
      assert rs[i + 1].payer == p;
    }
  }

  /** The balance table of a non-empty ledger is that of its tail with the first record added in. */
  lemma BalanceMapCons(rs: seq<Reward>)
    requires rs != []
    ensures BalanceMap(rs) == Adjust(BalanceMap(rs[1..]), rs[0].payer, Avail(rs[0]))
  {
    var tail := rs[1..];
    var q := rs[0].payer;
    PayersCons(rs);
    forall p | p in Payers(rs) ensures PayerSum(rs, p) == Adjust(BalanceMap(tail), q, Avail(rs[0]))[p] {
    }
  }

  /**
   * The balances the store reports add up to the ledger's total: summing the
   * per-payer table loses nothing and counts nothing twice.
   */
  lemma {:induction false} BalancesSumToTotal(rs: seq<Reward>)
    ensures MapSum(BalanceMap(rs)) == Total(rs)
  {
    if rs == [] {
      assert BalanceMap(rs) == map[];
    } else {
      BalancesSumToTotal(rs[1..]);
      BalanceMapCons(rs);
      MapSumAdjust(BalanceMap(rs[1..]), rs[0].payer, Avail(rs[0]));
    }
  }

  /** Appending a record adds its `points - used` to its payer's balance only. */
  lemma {:induction false} PayerSumSnoc(rs: seq<Reward>, r: Reward, p: string)
    ensures PayerSum(rs + [r], p) == PayerSum(rs, p) + Share(r, p)
  {
    if rs != [] {
      assert (rs + [r])[1..] == rs[1..] + [r];
      PayerSumSnoc(rs[1..], r, p);
    }
  }

  /** The balance table grows record by record in ascending order (the fold `CheckBalance` performs). */
  lemma BalanceMapSnoc(rs: seq<Reward>, r: Reward)
    ensures BalanceMap(rs + [r]) == Adjust(BalanceMap(rs), r.payer, Avail(r))
  {
    var rs' := rs + [r];
    assert Payers(rs') == Payers(rs) + {r.payer} by {
      forall p | p in Payers(rs') ensures p in Payers(rs) + {r.payer} {
        var i :| 0 <= i < |rs'| && rs'[i].payer == p;
        if i < |rs| { assert rs[i].payer == p; }
      }
      forall p | p in Payers(rs) ensures p in Payers(rs') {
        var i :| 0 <= i < |rs| && rs[i].payer == p;
        assert rs'[i].payer == p;
      }
      assert rs'[|rs|].payer == r.payer;
    }
    forall p | p in Payers(rs') ensures PayerSum(rs', p) == Adjust(BalanceMap(rs), r.payer, Avail(r))[p] {
      PayerSumSnoc(rs, r, p);
    }
  }

  /** Changing one record moves the total by the change in that record's available points. */
  lemma {:induction false} TotalUpdate(rs: seq<Reward>, j: nat, r: Reward)
    requires j < |rs|
    ensures Total(rs[j := r]) == Total(rs) - Avail(rs[j]) + Avail(r)
  {
    if j > 0 {
      TotalUpdate(rs[1..], j - 1, r);
      assert rs[j := r][1..] == rs[1..][j - 1 := r];
    }
  }

  /** Changing one record moves each payer's balance by the change in that record's share. */
  lemma {:induction false} PayerSumUpdate(rs: seq<Reward>, j: nat, r: Reward, p: string)
    requires j < |rs|
    ensures PayerSum(rs[j := r], p) == PayerSum(rs, p) - Share(rs[j], p) + Share(r, p)
  {
    if j > 0 {
      PayerSumUpdate(rs[1..], j - 1, r, p);
      assert rs[j := r][1..] == rs[1..][j - 1 := r];
    }
  }

  /** Changing a record but not its payer keeps the set of payers. */
  lemma PayersUpdate(rs: seq<Reward>, j: nat, r: Reward)
    requires j < |rs| && r.payer == rs[j].payer
    ensures Payers(rs[j := r]) == Payers(rs)
  {
    var s := rs[j := r];
    forall p | p in Payers(rs) ensures p in Payers(s) {
      var i :| 0 <= i < |rs| && rs[i].payer == p;
      assert s[i].payer == p;
    }
  }

  /**
   * Inserting a record at a Unix second no record holds adds its points to its
   * payer's balance and leaves every other balance as it was.
   */
  lemma {:induction false} UpsertFreshBalance(rs: seq<Reward>, r: Reward, p: string)
    requires Sorted(rs) && !HasKey(rs, Key(r))
    ensures PayerSum(Upsert(rs, r), p) == PayerSum(rs, p) + Share(r, p)
  {
    if rs != [] && Key(rs[0]) < Key(r) {
      var tail := rs[1..];
      assert Sorted(tail) by {
        forall a, b | 0 <= a < b < |tail| ensures Less(tail[a], tail[b]) {
          assert Less(rs[a + 1], rs[b + 1]);
        }
      }
      assert !HasKey(tail, Key(r)) by {
        forall i | 0 <= i < |tail| ensures Key(tail[i]) != Key(r) {
          assert tail[i] == rs[i + 1];
        }
      }
      UpsertFreshBalance(tail, r, p);
      assert Upsert(rs, r)[1..] == Upsert(tail, r);
    } else if rs != [] {
      assert Key(rs[0]) != Key(r);
      assert Upsert(rs, r)[1..] == rs;
    }
  }

  /** Insert-or-replace at a fresh Unix second adds the new payer to the payers. */
  lemma UpsertFreshPayers(rs: seq<Reward>, r: Reward)
    requires Sorted(rs) && !HasKey(rs, Key(r))
    ensures Payers(Upsert(rs, r)) == Payers(rs) + {r.payer}
  {
    var rs' := Upsert(rs, r);
    forall p | p in Payers(rs') ensures p in Payers(rs) + {r.payer} {
      var i :| 0 <= i < |rs'| && rs'[i].payer == p;
      assert rs'[i] in rs';
      if rs'[i] != r {
        var k :| 0 <= k < |rs| && rs[k] == rs'[i];
      }
    }
    forall p | p in Payers(rs) ensures p in Payers(rs') {
      var i :| 0 <= i < |rs| && rs[i].payer == p;
      assert rs[i] in rs';
      var k :| 0 <= k < |rs'| && rs'[k] == rs[i];
    }
    assert r in rs';
    var k :| 0 <= k < |rs'| && rs'[k] == r;
  }

  /**
   * A successful add at a fresh Unix second updates the balance table by the added
   * points: the payer gains an entry if it had none, and no other entry moves.
   */
  lemma UpsertFreshBalanceMap(rs: seq<Reward>, r: Reward)
    requires Sorted(rs) && !HasKey(rs, Key(r))
    ensures BalanceMap(Upsert(rs, r)) == Adjust(BalanceMap(rs), r.payer, Avail(r))
  {
    var u := Upsert(rs, r);
    UpsertFreshPayers(rs, r);
    forall p | p in Payers(u) ensures PayerSum(u, p) == Adjust(BalanceMap(rs), r.payer, Avail(r))[p] {
      UpsertFreshEntry(rs, r, p);
    }
  }

  /** One entry of the balance table after an insert at a fresh Unix second. */
  lemma UpsertFreshEntry(rs: seq<Reward>, r: Reward, p: string)
    requires Sorted(rs) && !HasKey(rs, Key(r)) && p in Payers(rs) + {r.payer}
    ensures PayerSum(Upsert(rs, r), p) == Adjust(BalanceMap(rs), r.payer, Avail(r))[p]
  {
    UpsertFreshBalance(rs, r, p);
  }

  /**
   * Replacing the record that holds the same Unix second drops that record's
   * remaining points from its payer's balance, whoever the new record's payer is.
   */
  lemma UpsertReplaceBalance(rs: seq<Reward>, j: nat, r: Reward, p: string)
    requires Sorted(rs) && j < |rs| && Key(rs[j]) == Key(r)
    ensures PayerSum(Upsert(rs, r), p) == PayerSum(rs, p) - Share(rs[j], p) + Share(r, p)
  {
    UpsertReplaces(rs, j, r);
    PayerSumUpdate(rs, j, r, p);
  }
}
