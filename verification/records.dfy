/**
 * Reward records of the points ledger and the time-ordered collection holding them.
 *
 * The store keeps its records in a B-tree ordered by `Less`, which compares the
 * timestamps truncated to whole Unix seconds. Here that tree is a sequence kept
 * strictly ascending by that key, and the tree's insert-or-replace is `Upsert`.
 */
module Records {

  datatype Option<T> = None | Some(value: T)

  /** An instant as parsed from an RFC 3339 date-time: whole seconds since the Unix epoch and the sub-second rest. */
  datatype Time = Time(unixSeconds: int, nanos: nat)

  /** The failures the store reports. */
  datatype Error = InvalidTimestamp | InsufficientPoints | NotEnoughPoints

  /** The text of each failure, as the store returns it. */
  function Message(e: Error): string
  {
    match e
    case InvalidTimestamp => "Invalid timestamp"
    case InsufficientPoints => "Insufficient points to apply transaction"
    case NotEnoughPoints => "Not enough points"
  }

  /** Each failure has its own text, so a caller can tell the failures apart. */
  lemma MessagesDiffer(e: Error, f: Error)
    ensures Message(e) == Message(f) <==> e == f
  {
    assert Message(InvalidTimestamp)[2] == 'v' && Message(InsufficientPoints)[2] == 's';
    assert Message(NotEnoughPoints)[0] == 'N' && Message(InvalidTimestamp)[0] == 'I';
    assert Message(InsufficientPoints)[0] == 'I';
  }

  /** One ledger entry: `points` granted by `payer` (negative for a claw-back), of which `used` have been redeemed. */
  datatype Reward = Reward(timeStamp: Time, points: int, payer: string, used: int)

  /** The ordering key: the timestamp truncated to Unix seconds (sub-second precision is ignored). */
  function Key(r: Reward): int
  {
    r.timeStamp.unixSeconds
  }

  /** The tree's comparator. */
  predicate Less(r: Reward, than: Reward)
  {
    Key(r) < Key(than)
  }

  /**
   * `Less` is a strict order, and two records are unordered by it exactly when they
   * fall in the same Unix second: the tree then takes them for the same item.
   */
  lemma LessOrder(a: Reward, b: Reward, c: Reward)
    ensures !Less(a, a)
    ensures Less(a, b) ==> !Less(b, a)
    ensures Less(a, b) && Less(b, c) ==> Less(a, c)
    ensures !Less(a, b) && !Less(b, a) <==> Key(a) == Key(b)
  {
  }

  /** Points still available in a record; negative for a claw-back not yet applied. */
  function Avail(r: Reward): int
  {
    r.points - r.used
  }

  /** A record the redemption scan passes over. */
  predicate Exhausted(r: Reward)
  {
    r.points == r.used
  }

  /** Strictly ascending by key, so no two records share a Unix second. */
  predicate Sorted(rs: seq<Reward>)
  {
    forall i, j :: 0 <= i < j < |rs| ==> Less(rs[i], rs[j])
  }

  /**
   * What the store's operations keep of `used`: a grant is redeemed between 0 and its
   * points, a claw-back is either untouched or applied whole.
   */
  predicate UsedInRange(r: Reward)
  {
    if 0 <= r.points then 0 <= r.used <= r.points else r.used == 0 || r.used == r.points
  }

  predicate WellFormed(rs: seq<Reward>)
  {
    forall i :: 0 <= i < |rs| ==> UsedInRange(rs[i])
  }

  /** Some record has key `k`. */
  predicate HasKey(rs: seq<Reward>, k: int)
  {
    exists i :: 0 <= i < |rs| && Key(rs[i]) == k
  }

  /**
   * Insert-or-replace: `r` goes in at its key's place and any record with the same
   * Unix second, whatever its payer, is dropped.
   */
  function Upsert(rs: seq<Reward>, r: Reward): (res: seq<Reward>)
    requires Sorted(rs)
    ensures Sorted(res)
    ensures forall x :: x in res <==> x == r || (x in rs && Key(x) != Key(r))
    ensures |res| == if HasKey(rs, Key(r)) then |rs| else |rs| + 1
  {
    if rs == [] then [r]
    else
      var tail := rs[1..];
      SortedHead(rs);
      SortedTail(rs);
      HasKeyCons(rs, Key(r));
      assert rs == [rs[0]] + tail;
      if Key(r) < Key(rs[0]) then
        [r] + rs
      else if Key(r) == Key(rs[0]) then
        [r] + tail
      else
        var res := [rs[0]] + Upsert(tail, r);
        assert Sorted(res) by {
          forall i, j | 0 <= i < j < |res| ensures Less(res[i], res[j]) {
            if i == 0 {
              assert res[j] in Upsert(tail, r);
            }
          }
        }
        res
  }

  /** Every record after the first of a sorted sequence has a larger key. */
  lemma SortedHead(rs: seq<Reward>)
    requires Sorted(rs) && rs != []
    ensures forall x :: x in rs[1..] ==> Key(rs[0]) < Key(x)
  {
    forall x | x in rs[1..] ensures Key(rs[0]) < Key(x) {
      var i :| 0 <= i < |rs[1..]| && rs[1..][i] == x;
      assert Less(rs[0], rs[i + 1]);
    }
  }

  /** A key is held by the first record or by one of the rest. */
  lemma HasKeyCons(rs: seq<Reward>, k: int)
    requires rs != []
    ensures HasKey(rs, k) <==> Key(rs[0]) == k || HasKey(rs[1..], k)
  {
    var tail := rs[1..];
    if HasKey(rs, k) && Key(rs[0]) != k {
      var i :| 0 <= i < |rs| && Key(rs[i]) == k;
      assert Key(tail[i - 1]) == k;
    }
    if HasKey(tail, k) {
      var i :| 0 <= i < |tail| && Key(tail[i]) == k;
      assert Key(rs[i + 1]) == k;
    }
  }

  /** Replacing an existing key is an in-place update at that key's position. */
  lemma {:induction false} UpsertReplaces(rs: seq<Reward>, j: nat, r: Reward)
    requires Sorted(rs) && j < |rs| && Key(rs[j]) == Key(r)
    ensures Upsert(rs, r) == rs[j := r]
  {
    if j > 0 {
      assert Less(rs[0], rs[j]);
      var tail := rs[1..];
      SortedTail(rs);
      UpsertReplaces(tail, j - 1, r);
      assert rs[j := r] == [rs[0]] + tail[j - 1 := r];
    }
  }

  /** A key no record holds is inserted between the records with smaller keys and those with larger ones. */
  lemma {:induction false} UpsertInserts(front: seq<Reward>, back: seq<Reward>, r: Reward)
    requires Sorted(front + back)
    requires front != [] ==> Key(front[|front| - 1]) < Key(r)
    requires back != [] ==> Key(r) < Key(back[0])
    ensures Upsert(front + back, r) == front + ([r] + back)
  {
    var rs := front + back;
    if front != [] {
      var f := front[1..];
      ConsSplit(front, back);
      assert Key(front[0]) < Key(r) by {
        if 1 < |front| { assert Less(rs[0], rs[|front| - 1]); }
      }
      UpsertCons(rs, r);
      assert f != [] ==> f[|f| - 1] == front[|front| - 1];
      UpsertInserts(f, back, r);
      ConsSplit(front, [r] + back);
    }
  }

  /** Splitting a non-empty front off a concatenation. */
  lemma ConsSplit<T>(front: seq<T>, back: seq<T>)
    requires front != []
    ensures (front + back)[0] == front[0] && (front + back)[1..] == front[1..] + back
    ensures front + back == [front[0]] + (front[1..] + back)
  {
  }

  /** Past a record with a smaller key, insert-or-replace works on the rest. */
  lemma UpsertCons(rs: seq<Reward>, r: Reward)
    requires Sorted(rs) && rs != [] && Key(rs[0]) < Key(r)
    ensures Sorted(rs[1..])
    ensures Upsert(rs, r) == [rs[0]] + Upsert(rs[1..], r)
  {
    SortedTail(rs);
  }

  /** The rest of a sorted sequence is sorted. */
  lemma SortedTail(rs: seq<Reward>)
    requires Sorted(rs) && rs != []
    ensures Sorted(rs[1..])
  {
    var tail := rs[1..];
    forall a, b | 0 <= a < b < |tail| ensures Less(tail[a], tail[b]) {
      assert Less(rs[a + 1], rs[b + 1]);
    }
  }
}
