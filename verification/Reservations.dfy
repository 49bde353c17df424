/** Account funds reserved by tasks. */
module Reservations {
  import opened Common

  datatype Status = Active | Released

  datatype Row = Row(account: string, task: int, asset: string, reserved: real, spent: real, status: Status)

  datatype Refusal = AccountRequired | AssetRequired | AmountNotPositive | InsufficientCapacity

  datatype Reserving = Created(row: Row) | Existing(row: Row) | Refused(why: Refusal)

  // ---- Reading the table ----

  predicate CountsFor(r: Row, account: string, asset: string) {
    r.status == Active && r.account == account && r.asset == asset
  }

  function ActiveReserved(rows: seq<Row>, account: string, asset: string): real
    decreases |rows|
  {
    if rows == [] then 0.0
    else
      var r := rows[|rows| - 1];
      ActiveReserved(rows[..|rows| - 1], account, asset) + if CountsFor(r, account, asset) then r.reserved else 0.0
  }

  function NumActive(rows: seq<Row>): nat
    decreases |rows|
  {
    if rows == [] then 0
    else NumActive(rows[..|rows| - 1]) + if rows[|rows| - 1].status == Active then 1 else 0
  }

  predicate HoldsActive(r: Row, task: int, asset: string) {
    r.status == Active && r.task == task && r.asset == asset
  }

  predicate RowOk(r: Row) {
    0.0 <= r.spent <= r.reserved
  }

  predicate Clash(r: Row, s: Row) {
    r.status == Active && s.status == Active && r.task == s.task && r.asset == s.asset
  }

  /** One active row per task and asset, and on every row 0 <= spent <= reserved. */
  ghost predicate TableOk(rows: seq<Row>) {
    && (forall i {:trigger RowOk(rows[i])} :: 0 <= i < |rows| ==> RowOk(rows[i]))
    && (forall i, j {:trigger Clash(rows[i], rows[j])} :: 0 <= i < j < |rows| ==> !Clash(rows[i], rows[j]))
  }

  // ---- Changing it ----

  function Release(r: Row, tasks: set<int>): Row {
    if r.status == Active && r.task in tasks then r.(status := Released) else r
  }

  function ReleaseAll(rows: seq<Row>, tasks: set<int>): (s: seq<Row>)
    ensures |s| == |rows|
  {
    seq(|rows|, i requires 0 <= i < |rows| => Release(rows[i], tasks))
  }

  lemma {:induction false} ReleaseLowersSums(rows: seq<Row>, tasks: set<int>, account: string, asset: string)
    requires forall i :: 0 <= i < |rows| ==> rows[i].reserved >= 0.0
    ensures ActiveReserved(ReleaseAll(rows, tasks), account, asset) <= ActiveReserved(rows, account, asset)
    decreases |rows|
  {
    if rows != [] {
      var init := rows[..|rows| - 1];
      ReleaseLowersSums(init, tasks, account, asset);
      assert ReleaseAll(rows, tasks)[..|rows| - 1] == ReleaseAll(init, tasks);
    }
  }

  /** Changing what an active row has spent changes no sum. */
  lemma {:induction false} SpendingKeepsSums(rows: seq<Row>, i: nat, spent: real, account: string, asset: string)
    requires i < |rows|
    ensures ActiveReserved(rows[i := rows[i].(spent := spent)], account, asset) == ActiveReserved(rows, account, asset)
    decreases |rows|
  {
    var n := |rows| - 1;
    var after := rows[i := rows[i].(spent := spent)];
    if i < n {
      SpendingKeepsSums(rows[..n], i, spent, account, asset);
      assert after[..n] == rows[..n][i := rows[i].(spent := spent)];
    } else {
      assert after[..n] == rows[..n];
    }
  }

  lemma {:induction false} AppendAdds(rows: seq<Row>, r: Row, account: string, asset: string)
    ensures ActiveReserved(rows + [r], account, asset)
            == ActiveReserved(rows, account, asset) + if CountsFor(r, account, asset) then r.reserved else 0.0
  {
  }

  lemma ReleaseKeepsTable(rows: seq<Row>, tasks: set<int>)
    requires TableOk(rows)
    ensures TableOk(ReleaseAll(rows, tasks))
  {
    var after := ReleaseAll(rows, tasks);
    forall i | 0 <= i < |after|
      ensures RowOk(after[i])
    {
      assert RowOk(rows[i]);
    }
    forall i, j | 0 <= i < j < |after|
      ensures !Clash(after[i], after[j])
    {
      assert !Clash(rows[i], rows[j]);
    }
  }

  lemma ReleaseTwice(rows: seq<Row>, s: set<int>, t: set<int>)
    ensures ReleaseAll(ReleaseAll(rows, s), t) == ReleaseAll(rows, s + t)
  {
  }

  lemma ReleaseOneMore(rows: seq<Row>, i: nat, tasks: set<int>)
    requires i < |rows|
    ensures var r := Release(rows[i], tasks);
            && ReleaseAll(rows[..i + 1], tasks) == ReleaseAll(rows[..i], tasks) + [r]
            && NumActive(rows[..i + 1]) == NumActive(rows[..i]) + (if rows[i].status == Active then 1 else 0)
            && NumActive(ReleaseAll(rows[..i], tasks) + [r])
               == NumActive(ReleaseAll(rows[..i], tasks)) + if r.status == Active then 1 else 0
  {
    assert rows[..i + 1][..i] == rows[..i];
    var done := ReleaseAll(rows[..i], tasks);
    assert (done + [Release(rows[i], tasks)])[..i] == done;
  }

  function ActiveTasks(rows: seq<Row>): set<int> {
    set i | 0 <= i < |rows| && rows[i].status == Active :: rows[i].task
  }

  // ---- The store ----

  class AccountFundReservationCol {
    var rows: seq<Row>
    /** The largest capacity ever offered for an account and asset, 0 if none was positive. */
    ghost var ceilings: map<(string, string), real>

    ghost function Ceiling(account: string, asset: string): real
      reads this
    {
      if (account, asset) in ceilings then ceilings[(account, asset)] else 0.0
    }

    ghost predicate WithinCeiling(account: string, asset: string)
      reads this
    {
      ActiveReserved(rows, account, asset) <= Ceiling(account, asset) + TOLERANCE
    }

    /** Over any run the active reservations stay within the largest capacity offered, up to the tolerance. */
    ghost predicate Valid()
      reads this
    {
      TableOk(rows) && forall account, asset :: WithinCeiling(account, asset)
    }

    constructor ()
      ensures Valid() && rows == [] && ceilings == map[]
    {
      rows, ceilings := [], map[];
    }

    predicate Held(task: int, asset: string)
      reads this`rows
    {
      exists i :: 0 <= i < |rows| && HoldsActive(rows[i], task, asset)
    }

    method FindActive(task: int, asset: string) returns (at: Option<nat>)
      ensures at.Some? ==> at.value < |rows| && HoldsActive(rows[at.value], task, asset)
      ensures at.None? <==> !Held(task, asset)
    {
      for i := 0 to |rows|
        invariant forall k :: 0 <= k < i ==> !HoldsActive(rows[k], task, asset)
      {
        if HoldsActive(rows[i], task, asset) {
          return Some(i);
        }
      }
      return None;
    }

    method ActiveReservedAmount(account: string, asset: string) returns (total: real)
      ensures total == ActiveReserved(rows, account, asset)
    {
      total := 0.0;
      for i := 0 to |rows|
        invariant total == ActiveReserved(rows[..i], account, asset)
      {
        assert rows[..i + 1][..i] == rows[..i];
        if CountsFor(rows[i], account, asset) {
          total := total + rows[i].reserved;
        }
      }
      assert rows[..|rows|] == rows;
    }

    /** A task that already holds the asset gets its row back; otherwise the new sum must fit the capacity. */
    method Reserve(account: string, task: int, asset: string, amount: real, capacity: real) returns (r: Reserving)
      requires Valid()
      modifies this
      ensures Valid()
      ensures r.Refused? ==> rows == old(rows)
      ensures r == Refused(AccountRequired) <==> account == ""
      ensures r == Refused(AssetRequired) <==> account != "" && asset == ""
      ensures r == Refused(AmountNotPositive) <==> account != "" && asset != "" && amount <= 0.0
      ensures r.Existing? <==> account != "" && asset != "" && amount > 0.0 && old(Held(task, asset))
      ensures r.Existing? ==> rows == old(rows) && r.row in rows && HoldsActive(r.row, task, asset)
      ensures r.Created? ==> r.row == Row(account, task, asset, amount, 0.0, Active) && rows == old(rows) + [r.row]
      ensures r.Created? ==> ActiveReserved(rows, account, asset) <= capacity + TOLERANCE
      ensures r == Refused(InsufficientCapacity) <==>
                && account != "" && asset != "" && amount > 0.0 && !old(Held(task, asset))
                && old(ActiveReserved(rows, account, asset)) + amount > capacity + TOLERANCE
      ensures ceilings == if r.Created?
                          then old(ceilings)[(account, asset) := Max(old(Ceiling(account, asset)), capacity)]
                          else old(ceilings)
    {
      if account == "" {
        return Refused(AccountRequired);
      }
      if asset == "" {
        return Refused(AssetRequired);
      }
      if amount <= 0.0 {
        return Refused(AmountNotPositive);
      }
      var at := FindActive(task, asset);
      if at.Some? {
        return Existing(rows[at.value]);
      }
      var reserved := ActiveReservedAmount(account, asset);
      if reserved + amount > capacity + TOLERANCE {
        return Refused(InsufficientCapacity);
      }
      var row := Row(account, task, asset, amount, 0.0, Active);
      Insert(row, capacity);
      return Created(row);
    }

    method Insert(row: Row, capacity: real)
      requires Valid() && row.status == Active && RowOk(row)
      requires !Held(row.task, row.asset)
      requires ActiveReserved(rows, row.account, row.asset) + row.reserved <= capacity + TOLERANCE
      modifies this
      ensures Valid() && rows == old(rows) + [row]
      ensures ActiveReserved(rows, row.account, row.asset) <= capacity + TOLERANCE
      ensures ceilings == old(ceilings)[(row.account, row.asset) := Max(old(Ceiling(row.account, row.asset)), capacity)]
    {
      ghost var before := rows;
      rows := rows + [row];
      ceilings := ceilings[(row.account, row.asset) := Max(Ceiling(row.account, row.asset), capacity)];
      forall i, j | 0 <= i < j < |rows|
        ensures !Clash(rows[i], rows[j])
      {
        assert j < |before| ==> !Clash(before[i], before[j]);
        assert i < |before| ==> !HoldsActive(before[i], row.task, row.asset);
      }
      forall i | 0 <= i < |rows|
        ensures RowOk(rows[i])
      {
        assert i < |before| ==> RowOk(before[i]);
      }
      AppendAdds(before, row, row.account, row.asset);
      forall account, asset
        ensures WithinCeiling(account, asset)
      {
        assert old(WithinCeiling(account, asset));
        AppendAdds(before, row, account, asset);
      }
    }

    method MarkSpent(task: int, asset: string, amount: real) returns (r: Option<Row>)
      requires Valid()
      modifies this
      ensures Valid() && ceilings == old(ceilings)
      ensures r.None? <==> forall i :: 0 <= i < |old(rows)| ==> !HoldsActive(old(rows)[i], task, asset)
      ensures r.None? || amount <= 0.0 ==> rows == old(rows)
      ensures r.Some? ==>
                exists i :: 0 <= i < |rows| && |rows| == |old(rows)| && HoldsActive(old(rows)[i], task, asset) &&
                            rows == old(rows)[i := r.value] &&
                            r.value == old(rows)[i].(spent :=
                              if amount <= 0.0 then old(rows)[i].spent
                              else Min(old(rows)[i].reserved, old(rows)[i].spent + amount))
    {
      var at := FindActive(task, asset);
      if at.None? {
        return None;
      }
      var i, row := at.value, rows[at.value];
      if amount <= 0.0 {
        assert rows == rows[i := row];
        return Some(row);
      }
      assert RowOk(rows[i]);
      Spend(i, Min(row.reserved, row.spent + amount));
      return Some(rows[i]);
    }

    method Spend(i: nat, spent: real)
      requires Valid() && i < |rows| && rows[i].spent <= spent <= rows[i].reserved
      modifies this`rows
      ensures Valid() && rows == old(rows)[i := old(rows)[i].(spent := spent)]
    {
      ghost var before := rows;
      rows := rows[i := rows[i].(spent := spent)];
      forall j, k | 0 <= j < k < |rows|
        ensures !Clash(rows[j], rows[k])
      {
        assert !Clash(before[j], before[k]);
      }
      forall j | 0 <= j < |rows|
        ensures RowOk(rows[j])
      {
        assert RowOk(before[j]);
      }
      forall account, asset
        ensures WithinCeiling(account, asset)
      {
        assert old(WithinCeiling(account, asset));
        SpendingKeepsSums(before, i, spent, account, asset);
      }
    }

    /** Releases every active row of the task, and says how many there were. */
    method ReleaseTask(task: int) returns (n: nat)
      requires Valid()
      modifies this`rows
      ensures Valid() && rows == ReleaseAll(old(rows), {task})
      ensures n == NumActive(old(rows)) - NumActive(rows)
    {
      ghost var before := rows;
      n := ReleaseRows(task);
      ReleaseKeepsTable(before, {task});
      assert forall i :: 0 <= i < |before| ==> RowOk(before[i]);
      forall account, asset
        ensures WithinCeiling(account, asset)
      {
        assert old(WithinCeiling(account, asset));
        ReleaseLowersSums(before, {task}, account, asset);
      }
    }

    method ReleaseRows(task: int) returns (n: nat)
      modifies this`rows
      ensures rows == ReleaseAll(old(rows), {task})
      ensures n == NumActive(old(rows)) - NumActive(rows)
    {
      ghost var before := rows;
      var done: seq<Row> := [];
      n := 0;
      for i := 0 to |rows|
        invariant rows == before && done == ReleaseAll(before[..i], {task})
        invariant n == NumActive(before[..i]) - NumActive(done)
      {
        ReleaseOneMore(before, i, {task});
        if rows[i].status == Active && rows[i].task == task {
          done := done + [rows[i].(status := Released)];
          n := n + 1;
        } else {
          done := done + [rows[i]];
        }
      }
      assert before[..|before|] == before;
      rows := done;
    }

    /** Only running tasks keep active rows; the count is of the rows released, however many each task had. */
    method ReleaseInactiveTasks(running: set<int>) returns (total: nat)
      requires Valid()
      modifies this`rows
      ensures Valid() && rows == ReleaseAll(old(rows), ActiveTasks(old(rows)) - running)
      ensures total == NumActive(old(rows)) - NumActive(rows)
      ensures ActiveTasks(rows) == ActiveTasks(old(rows)) * running
    {
      var snapshot := rows;
      var done: set<int> := {};
      total := 0;
      assert ReleaseAll(snapshot, {}) == snapshot;
      for i := 0 to |snapshot|
        invariant Valid() && rows == ReleaseAll(snapshot, done)
        invariant done == ActiveTasks(snapshot[..i]) - running
        invariant total == NumActive(snapshot) - NumActive(rows)
      {
        TasksOfOneMore(snapshot, i);
        if snapshot[i].status == Active && snapshot[i].task !in running {
          ReleaseTwice(snapshot, done, {snapshot[i].task});
          var n := ReleaseTask(snapshot[i].task);
          done := done + {snapshot[i].task};
          total := total + n;
        }
      }
      assert snapshot[..|snapshot|] == snapshot;
      TasksLeft(snapshot, done);
    }
  }

  lemma TasksOfOneMore(rows: seq<Row>, i: nat)
    requires i < |rows|
    ensures ActiveTasks(rows[..i + 1])
            == ActiveTasks(rows[..i]) + if rows[i].status == Active then {rows[i].task} else {}
  {
  }

  lemma TasksLeft(rows: seq<Row>, tasks: set<int>)
    ensures ActiveTasks(ReleaseAll(rows, tasks)) == ActiveTasks(rows) - tasks
  {
    var after := ReleaseAll(rows, tasks);
    forall t | t in ActiveTasks(rows) - tasks
      ensures t in ActiveTasks(after)
    {
      var k :| 0 <= k < |rows| && rows[k].status == Active && rows[k].task == t;
      assert after[k] == rows[k];
    }
    forall t | t in ActiveTasks(after)
      ensures t in ActiveTasks(rows) - tasks
    {
      var k :| 0 <= k < |after| && after[k].status == Active && after[k].task == t;
      assert after[k] == Release(rows[k], tasks);
    }
  }
}
