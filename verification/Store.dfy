/** The database: the rows of every execution, statements that change them in place, and
    transactions. */
module Store {

  import opened Workflow
  import opened Statements
  import opened Protocol

  class Database {
    var configs: map<string, Config>
    var records: map<string, Record>
    var now: int
    var saved: Option<(map<string, Config>, map<string, Record>)>

    /** Every execution has a row for each of its steps. */
    ghost predicate Valid()
      reads this
    {
      && configs.Keys == records.Keys
      && forall e :: e in records ==> |records[e].steps| == |configs[e].steps|
    }

    constructor (now: int)
      ensures Valid() && records == map[] && this.now == now && saved.None?
    {
      configs, records, this.now, saved := map[], map[], now, None;
    }

    // ----- transactions -----

    method Begin()
      requires saved.None?
      modifies this`saved
      ensures saved == Option.Some((configs, records))
    {
      saved := Some((configs, records));
    }

    method Commit()
      requires saved.Some?
      modifies this`saved
      ensures saved.None?
    {
      saved := None;
    }

    /** Undo every statement since `Begin`. */
    method Rollback()
      requires saved.Some?
      modifies this
      ensures configs == old(saved).value.0 && records == old(saved).value.1 && saved.None? && now == old(now)
    {
      configs, records, saved := saved.value.0, saved.value.1, None;
    }

    // ----- statements of the step repository -----

    /** INSERT one row per step; status and output take their defaults. */
    method CreateMany(e: string, steps: seq<StepDef>)
      requires Valid() && e in records
      modifies this`configs, this`records
      ensures Valid() && configs == old(configs)[e := old(configs)[e].(steps := old(configs)[e].steps + steps)]
      ensures records ==
        old(records)[e := old(records)[e].(steps := old(records)[e].steps + InitRecord(Config(e, steps)).steps)]
    {
      var c, rows := configs[e], records[e].steps;
      for k := 0 to |steps|
        invariant rows == old(records)[e].steps + InitRecord(Config(e, steps)).steps[..k]
      {
        rows := rows + [StepRow(Pending, None)];
      }
      assert InitRecord(Config(e, steps)).steps[..|steps|] == InitRecord(Config(e, steps)).steps;
      configs, records := configs[e := c.(steps := c.steps + steps)], records[e := records[e].(steps := rows)];
    }

    method UpdateStatus(e: string, i: nat, status: Status, output: Option<Output>)
      requires Valid() && e in records && i < |records[e].steps|
      modifies this`records
      ensures Valid() && records == old(records)[e := Statements.UpdateStatus(old(records)[e], i, status, output)]
      ensures records[e].exec == old(records)[e].exec && |records[e].steps| == |old(records)[e].steps|
      ensures records[e].steps[i].status == status
      ensures records[e].steps[i].output == if output.None? then old(records)[e].steps[i].output else output
      ensures forall j :: 0 <= j < |records[e].steps| && j != i ==> records[e].steps[j] == old(records)[e].steps[j]
    {
      var row := records[e].steps[i];
      var stored := if output.Some? then output else row.output;
      records := records[e := records[e].(steps := records[e].steps[i := StepRow(status, stored)])];
    }

    /** Fail the RUNNING steps of an execution, row by row, and return their positions. */
    method FailRunningByExecutionId(e: string) returns (failed: seq<nat>)
      requires Valid() && e in records
      modifies this`records
      ensures Valid()
      ensures records == old(records)[e := old(records)[e].(steps := FailRunningSteps(old(records)[e].steps))]
      ensures failed == RunningSteps(old(records)[e].steps)
      ensures |records[e].steps| == |old(records)[e].steps|
      ensures forall i :: 0 <= i < |records[e].steps| ==>
        var row := old(records)[e].steps[i];
        records[e].steps[i] == if row.status == Running then StepRow(Failed, row.output) else row
      ensures forall i :: i in failed <==>
        0 <= i < |records[e].steps| && old(records)[e].steps[i].status == Running
      ensures forall j, k :: 0 <= j < k < |failed| ==> failed[j] < failed[k]
    {
      failed := [];
      ghost var rows := records[e].steps;
      var n := |records[e].steps|;
      assert rows[..0] == [];
      for i := 0 to n
        invariant records.Keys == old(records).Keys && n == |rows| == |records[e].steps|
        invariant records == old(records)[e := old(records)[e].(steps := records[e].steps)]
        invariant forall j :: 0 <= j < n ==> records[e].steps[j] == if j < i then FailRunningSteps(rows)[j] else rows[j]
        invariant failed == RunningSteps(rows[..i])
      {
        assert rows[..i + 1][..i] == rows[..i];
        if records[e].steps[i].status.Running? {
          records := records[e := records[e].(steps := records[e].steps[i := records[e].steps[i].(status := Failed)])];
          failed := failed + [i];
        }
      }
      assert rows[..n] == rows;
      assert records[e].steps == FailRunningSteps(rows);
      RunningStepsAre(rows);
    }

    // ----- statements of the execution repository -----

    /** INSERT an execution, still without steps. */
    method Create(e: string)
      requires Valid() && e !in records
      modifies this`configs, this`records
      ensures Valid() && configs == old(configs)[e := Config(e, [])]
      ensures records == old(records)[e := InitRecord(Config(e, []))]
    {
      configs := configs[e := Config(e, [])];
      records := records[e := Record(ExecRow(Pending, None, None), [])];
    }

    method FailStaleRunning(e: string, timeout: int, result: ExecResult) returns (matched: bool)
      requires Valid() && e in records
      modifies this`records
      ensures Valid()
      ensures match Statements.FailStaleRunning(old(records)[e], now, timeout, result)
              case Some(r) => matched && records == old(records)[e := r]
              case None => !matched && records == old(records)
      ensures matched <==>
        var exec := old(records)[e].exec;
        exec.status == Running && exec.startedAt.Some? && now - exec.startedAt.value >= timeout * 60_000_000
      ensures matched ==>
        records[e] == Record(ExecRow(Failed, old(records)[e].exec.startedAt, Some(result)), old(records)[e].steps)
    {
      matched := Stale(records[e].exec, now, timeout);
      if matched {
        records := records[e := records[e].(exec := records[e].exec.(status := Failed, result := Some(result)))];
      }
    }

    /** SELECT ... WHERE stale ORDER BY started_at ASC LIMIT `limit`. */
    method FindStaleRunning(timeout: int, limit: nat) returns (ids: seq<string>)
      ensures OldestStale(records, now, timeout, limit, ids)
    {
      var pool := set e | e in records && Stale(records[e].exec, now, timeout);
      ghost var stale := pool;
      ids := [];
      while pool != {} && |ids| < limit
        invariant pool <= stale && |ids| + |pool| == |stale| && |ids| <= limit
        invariant Distinct(ids)
        invariant forall e :: e in stale ==> e in pool || e in ids
        invariant forall e :: e in ids ==> e in stale && e !in pool
        invariant forall x, e :: x in ids && e in pool ==> StartOf(records, x) <= StartOf(records, e)
        invariant forall j, k :: 0 <= j < k < |ids| ==> StartOf(records, ids[j]) <= StartOf(records, ids[k])
        decreases pool
      {
        var oldest := PickOldest(pool);
        assert oldest !in ids;
        ids := ids + [oldest];
        pool := pool - {oldest};
      }
      assert stale == StaleSet(records, now, timeout);
    }

    method PickOldest(pool: set<string>) returns (oldest: string)
      requires pool != {} && forall e :: e in pool ==> e in records && records[e].exec.startedAt.Some?
      ensures oldest in pool && forall e :: e in pool ==> StartOf(records, oldest) <= StartOf(records, e)
    {
      oldest :| oldest in pool;
      var rest := pool - {oldest};
      while rest != {}
        invariant rest <= pool && oldest in pool
        invariant forall e :: e in pool - rest ==> StartOf(records, oldest) <= StartOf(records, e)
        decreases rest
      {
        var e :| e in rest;
        if records[e].exec.startedAt.value < records[oldest].exec.startedAt.value {
          oldest := e;
        }
        rest := rest - {e};
      }
    }
  }

  /** Positions of the RUNNING rows, in order. */
  function RunningSteps(rows: seq<StepRow>): (running: seq<nat>)
    ensures forall k :: 0 <= k < |running| ==> running[k] < |rows| && rows[running[k]].status.Running?
  {
    if |rows| == 0 then []
    else RunningSteps(rows[..|rows| - 1]) + if rows[|rows| - 1].status.Running? then [|rows| - 1] else []
  }

  lemma {:induction false} RunningStepsAre(rows: seq<StepRow>)
    ensures forall i: nat :: i in RunningSteps(rows) <==> i < |rows| && rows[i].status.Running?
    ensures forall j, k :: 0 <= j < k < |RunningSteps(rows)| ==> RunningSteps(rows)[j] < RunningSteps(rows)[k]
  {
    if |rows| > 0 {
      RunningStepsAre(rows[..|rows| - 1]);
    }
  }

  function StartOf(records: map<string, Record>, e: string): int {
    if e in records && records[e].exec.startedAt.Some? then records[e].exec.startedAt.value else 0
  }

  ghost predicate Distinct(ids: seq<string>) {
    forall j, k :: 0 <= j < k < |ids| ==> ids[j] != ids[k]
  }

  function StaleSet(records: map<string, Record>, now: int, timeout: int): set<string> {
    set e | e in records && Stale(records[e].exec, now, timeout)
  }

  /** `ids` are the `limit` oldest stale RUNNING executions, oldest first. */
  ghost predicate OldestStale(records: map<string, Record>, now: int, timeout: int, limit: nat, ids: seq<string>) {
    var stale := StaleSet(records, now, timeout);
    && Distinct(ids)
    && |ids| == Min(limit, |stale|)
    && (forall e :: e in ids ==> e in stale)
    && (forall j, k :: 0 <= j < k < |ids| ==> StartOf(records, ids[j]) <= StartOf(records, ids[k]))
    && (forall x, e :: x in ids && e in stale && e !in ids ==> StartOf(records, x) <= StartOf(records, e))
  }

  function SetOf(ids: seq<string>): set<string> {
    set e | e in ids
  }

  lemma {:induction false} DistinctMembers(ids: seq<string>)
    requires Distinct(ids)
    ensures |SetOf(ids)| == |ids|
  {
    if ids != [] {
      var last := |ids| - 1;
      DistinctMembers(ids[..last]);
      assert SetOf(ids) == SetOf(ids[..last]) + {ids[last]};
    }
  }

  /** What a scan finds, by the columns of the rows: RUNNING executions that were started at least
      `timeout` minutes ago, oldest first; one is missing only if `limit` others are at least as old. */
  lemma OldestStaleAre(records: map<string, Record>, now: int, timeout: int, limit: nat, ids: seq<string>)
    requires OldestStale(records, now, timeout, limit, ids)
    ensures |ids| <= limit && Distinct(ids)
    ensures forall e :: e in ids ==>
      && e in records && records[e].exec.status == Running && records[e].exec.startedAt.Some?
      && now - records[e].exec.startedAt.value >= timeout * 60_000_000
    ensures forall j, k :: 0 <= j < k < |ids| ==>
      records[ids[j]].exec.startedAt.value <= records[ids[k]].exec.startedAt.value
    ensures forall e ::
      && e in records && e !in ids && records[e].exec.status == Running && records[e].exec.startedAt.Some?
      && now - records[e].exec.startedAt.value >= timeout * 60_000_000 ==>
        && |ids| == limit
        && forall x :: x in ids ==> records[x].exec.startedAt.value <= records[e].exec.startedAt.value
  {
    assert forall e :: e in ids ==> StartOf(records, e) == records[e].exec.startedAt.value;
    forall e |
      && e in records && e !in ids && records[e].exec.status == Running && records[e].exec.startedAt.Some?
      && now - records[e].exec.startedAt.value >= timeout * 60_000_000
      ensures |ids| == limit
      ensures forall x :: x in ids ==> records[x].exec.startedAt.value <= records[e].exec.startedAt.value
    {
      var stale := StaleSet(records, now, timeout);
      DistinctMembers(ids);
      assert e in stale - SetOf(ids) && SetOf(ids) <= stale;
      assert |stale - SetOf(ids)| == |stale| - |SetOf(ids)|;
      assert forall x :: x in ids ==> StartOf(records, x) <= StartOf(records, e);
    }
  }
}
