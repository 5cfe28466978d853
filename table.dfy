/**
 A table under insert-or-overwrite by primary key. `Upsert` folds a batch of
 rows into a table in batch order, the way one session merges each row and
 then commits; `Reconcile` publishes that result only when the whole batch
 was normalised without an exception.
 */
module Table {
  import opened Wrappers
  import opened Models

  /** The primary keys a batch writes. */
  function BatchKeys<R>(rows: seq<R>, key: R -> string): set<string> {
    set i | 0 <= i < |rows| :: key(rows[i])
  }

  /**
   Merge every row of the batch, in order, into the table. Afterwards the table
   holds the old keys and the batch's keys, and nothing else.
   */
  function Upsert<R>(t: map<string, R>, rows: seq<R>, key: R -> string): (r: map<string, R>)
    ensures r.Keys == t.Keys + BatchKeys(rows, key)
    decreases |rows|
  {
    if rows == [] then t
    else
      var init := rows[..|rows| - 1];
      var last := rows[|rows| - 1];
      assert BatchKeys(rows, key) == BatchKeys(init, key) + {key(last)} by {
        forall k | k in BatchKeys(rows, key) ensures k in BatchKeys(init, key) + {key(last)} {
          var i :| 0 <= i < |rows| && key(rows[i]) == k;
          if i < |rows| - 1 { assert init[i] == rows[i]; }
        }
        forall k | k in BatchKeys(init, key) ensures k in BatchKeys(rows, key) {
          var i :| 0 <= i < |init| && key(init[i]) == k;
          assert rows[i] == init[i];
        }
      }
      Upsert(t, init, key)[key(last) := last]
  }

  /** Merging one more row is a single map update. */
  lemma UpsertStep<R>(t: map<string, R>, done: seq<R>, row: R, key: R -> string)
    ensures Upsert(t, done + [row], key) == Upsert(t, done, key)[key(row) := row]
  {
    assert (done + [row])[..|done|] == done;
  }

  /**
   Last write wins: a row that no later row of the batch shares a key with is
   exactly what the table holds under that key (a full overwrite).
   */
  lemma {:induction false} UpsertLastWins<R>(t: map<string, R>, rows: seq<R>, key: R -> string, i: nat)
    requires i < |rows|
    requires forall j :: i < j < |rows| ==> key(rows[j]) != key(rows[i])
    ensures key(rows[i]) in Upsert(t, rows, key)
    ensures Upsert(t, rows, key)[key(rows[i])] == rows[i]
  {
    var init := rows[..|rows| - 1];
    if i < |rows| - 1 {
      assert init[i] == rows[i];
      forall j | i < j < |init| ensures key(init[j]) != key(init[i]) {
        assert init[j] == rows[j];
      }
      UpsertLastWins(t, init, key, i);
    }
  }

  /** A key the batch does not write keeps its row, or stays absent. */
  lemma {:induction false} UpsertUntouched<R>(t: map<string, R>, rows: seq<R>, key: R -> string, k: string)
    requires forall i :: 0 <= i < |rows| ==> key(rows[i]) != k
    ensures k in Upsert(t, rows, key) <==> k in t
    ensures k in t ==> Upsert(t, rows, key)[k] == t[k]
  {
    if rows != [] {
      var init := rows[..|rows| - 1];
      forall i | 0 <= i < |init| ensures key(init[i]) != k {
        assert init[i] == rows[i];
      }
      UpsertUntouched(t, init, key, k);
    }
  }

  /**
   No merge with the old row: on every key the batch writes, the result does
   not depend on what the table held before.
   */
  lemma {:induction false} UpsertOverwrites<R>(t1: map<string, R>, t2: map<string, R>, rows: seq<R>, key: R -> string, k: string)
    requires k in BatchKeys(rows, key)
    ensures Upsert(t1, rows, key)[k] == Upsert(t2, rows, key)[k]
  {
    var init := rows[..|rows| - 1];
    var last := rows[|rows| - 1];
    if key(last) != k {
      var i :| 0 <= i < |rows| && key(rows[i]) == k;
      assert init[i] == rows[i];
      UpsertOverwrites(t1, t2, init, key, k);
    }
  }

  /** Merging the same batch a second time changes nothing. */
  lemma UpsertIdempotent<R>(t: map<string, R>, rows: seq<R>, key: R -> string)
    ensures Upsert(Upsert(t, rows, key), rows, key) == Upsert(t, rows, key)
  {
    var once := Upsert(t, rows, key);
    var twice := Upsert(once, rows, key);
    forall k | k in twice ensures k in once && twice[k] == once[k] {
      if k in BatchKeys(rows, key) {
        UpsertOverwrites(once, t, rows, key, k);
      } else {
        UpsertUntouched(once, rows, key, k);
      }
    }
  }

  /** Every row is stored under its own key before the batch, hence after it. */
  lemma {:induction false} UpsertKeyed<R>(t: map<string, R>, rows: seq<R>, key: R -> string)
    requires KeyedBy(t, key)
    ensures KeyedBy(Upsert(t, rows, key), key)
  {
    if rows != [] {
      UpsertKeyed(t, rows[..|rows| - 1], key);
    }
  }

  /** The table after one run: the batch merged in, or the old table if it raised. */
  function Reconcile<R, E>(t: map<string, R>, batch: Result<seq<R>, E>, key: R -> string): (r: map<string, R>)
    ensures batch.Err? ==> r == t
    ensures batch.Ok? ==> r.Keys == t.Keys + BatchKeys(batch.value, key)
  {
    if batch.Ok? then Upsert(t, batch.value, key) else t
  }

  /** Re-running with an unchanged snapshot leaves the table as one run left it. */
  lemma ReconcileIdempotent<R, E>(t: map<string, R>, batch: Result<seq<R>, E>, key: R -> string)
    ensures Reconcile(Reconcile(t, batch, key), batch, key) == Reconcile(t, batch, key)
  {
    if batch.Ok? {
      UpsertIdempotent(t, batch.value, key);
    }
  }
}
