/**
  The loops of idempotent creation and of the purge, each run with the table to itself.
  Idempotency says what happens when they interleave.
 */
module KeyTable {
  import opened Times
  import opened Wrappers
  import opened Idempotency
  import opened Sizes

  function Expired(rows: map<Key, Row>, now: Time): set<Key> {
    set k | k in rows && rows[k].expiresAt <= now
  }

  class Keys {
    var rows: map<Key, Row>

    constructor ()
      ensures rows == map[]
    {
      rows := map[];
    }

    /**
      answer is what the operation returns, or None if it raises, which undoes everything.
      A row that has not expired is answered from and left alone; otherwise the operation runs once
      and its row takes the place of the expired one. Two rounds are always enough.
     */
    method ExecuteCreate(p: Pid, key: Key, hash: Hash, clock: Clock, answer: Option<Response>)
      returns (outcome: Outcome)
      modifies this`rows
      ensures key in old(rows) && clock(1) < old(rows)[key].expiresAt ==>
        && rows == old(rows)
        && var row := old(rows)[key];
           outcome == if row.hash != hash then Mismatch
                      else if row.response.Some? then Replayed(row.response.value) else Incomplete
      ensures !(key in old(rows) && clock(1) < old(rows)[key].expiresAt) ==>
        var at := if key in old(rows) then clock(2) else clock(0);
        if answer.None? then outcome == Failed && rows == old(rows)
        else outcome == Created(answer.value) && rows == old(rows)[key := Row(p, hash, answer, at, at + 24 * HOUR, at)]
    {
      var savepoint := rows;
      var tick := 0;
      for tries := 0 to MAX_TRIES
        invariant tries <= 1 && tick == 2 * tries
        invariant tries == 0 ==> rows == old(rows)
        invariant tries == 1 ==> key in old(rows) && old(rows)[key].expiresAt <= clock(1) && rows == old(rows) - {key}
      {
        var at := clock(tick);
        if key !in rows {
          rows := rows[key := Row(p, hash, None, at, at + LIFETIME, at)];
          if answer.None? {
            rows := savepoint;
            return Failed;
          }
          rows := rows[key := rows[key].(response := answer)];
          return Created(answer.value);
        }
        var expired := rows[key].expiresAt <= clock(tick + 1);
        tick := tick + 2;
        if !expired {
          return AnswerFrom(rows[key], hash);
        }
        rows := rows - {key};
      }
      return Incomplete;
    }

    /** LIMIT n over the expired keys: any n of them, or all if there are fewer. */
    method SelectExpired(now: Time, n: nat) returns (keys: set<Key>)
      ensures keys <= Expired(rows, now)
      ensures forall k | k in keys :: k in rows && rows[k].expiresAt <= now
      ensures |keys| <= n
      ensures |keys| < n ==> forall k | k in rows && rows[k].expiresAt <= now :: k in keys
    {
      keys := {};
      var left := Expired(rows, now);
      while left != {} && |keys| < n
        invariant keys + left == Expired(rows, now) && keys !! left
        invariant |keys| <= n
        decreases left
      {
        var k :| k in left;
        keys, left := keys + {k}, left - {k};
      }
    }

    /** Batch after batch, until one falls short. */
    method PurgeExpired(clock: Clock, batchSize: nat) returns (total: nat)
      requires batchSize > 0 && Monotone(clock)
      modifies this`rows
      ensures rows.Keys <= old(rows).Keys && total == |old(rows).Keys - rows.Keys|
      ensures forall k | k in rows :: rows[k] == old(rows)[k] && clock(0) < rows[k].expiresAt
      ensures forall k | k in old(rows) && k !in rows :: old(rows)[k].expiresAt <= clock(total)
    {
      total := 0;
      var tick := 0;
      while true
        invariant rows.Keys <= old(rows).Keys && total == |old(rows).Keys - rows.Keys|
        invariant forall k | k in rows :: rows[k] == old(rows)[k]
        invariant tick <= total
        invariant forall k | k in old(rows) && k !in rows :: old(rows)[k].expiresAt <= clock(total)
        decreases |rows.Keys|
      {
        var now := clock(tick);
        var keys := SelectExpired(now, batchSize);
        ghost var before := rows;
        SizeAfter(rows.Keys, keys);
        SizeAfter(old(rows).Keys, rows.Keys - keys);
        SizeAfter(old(rows).Keys, rows.Keys);
        rows := rows - keys;
        assert rows.Keys == before.Keys - keys;
        total := total + |keys|;
        if |keys| < batchSize {
          forall k | k in rows ensures clock(0) < rows[k].expiresAt {
            assert k in before && k !in keys;
          }
          return;
        }
        tick := tick + 1;
      }
    }
  }
}
