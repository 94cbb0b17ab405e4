/** What the CLI and the API show of a row: the workflow state (server/dbserver_workflow.go:277-295)
    and the progress percentage (cmd/tink-cli/cmd/workflow/state.go:52-66). */
module Progress {
  import opened Types
  import opened RowProtocol
  import opened Discipline

  /** getWorkflowState. */
  function WorkflowState(row: Row): State {
    if row.state != Success then row.state
    else if row.index == row.total - 1 then Success
    else Running
  }

  /** The number of completed actions a row stands for. */
  function Completed(row: Row): int {
    if row.state == Success then row.index + 1 else row.index
  }

  /** calWorkflowProgress without the percent sign.  Nothing is negative here, so Go's division and
      this one agree. */
  function Percent(cur: int, total: int, state: State): int {
    if total == 0 || (cur == 0 && state != Success) then 0
    else
      var done := if state == Success then cur + 1 else cur;
      done * 100 / total
  }

  lemma QuotientGap(q: int, q': int, d: int)
    requires d > 0 && q' < q
    ensures q' * d + d <= q * d
    decreases q - q'
  {
    assert q * d == (q - 1) * d + d;
    if q' < q - 1 {
      QuotientGap(q - 1, q', d);
    }
  }

  lemma DivMonotone(x: nat, y: nat, d: nat)
    requires x <= y && d > 0
    ensures x / d <= y / d
  {
    var q, q' := x / d, y / d;
    assert q * d <= x && y < q' * d + d;
    if q' < q {
      QuotientGap(q, q', d);
      assert false;
    }
  }

  lemma PercentBounds(done: nat, total: nat)
    requires done <= total && total > 0
    ensures 0 <= done * 100 / total <= 100
    ensures done * 100 / total == 100 <==> done == total
  {
    var q := done * 100 / total;
    assert q * total <= done * 100 < q * total + total;
    if q < 100 {
      QuotientGap(100, q, total);
    } else if q > 100 {
      QuotientGap(q, 100, total);
    }
  }

  /** On every row that any requests can bring about, the percentage lies in 0..100 and is 100 iff
      the workflow state is SUCCESS. */
  lemma PercentOfReachableRow(wf: Workflow, reqs: seq<Report>)
    requires wf == Fresh(wf.actions, wf.members)
    ensures var row := ApplyAll(wf, reqs).row;
            && 0 <= Percent(row.index, row.total, row.state) <= 100
            && (Percent(row.index, row.total, row.state) == 100 <==> WorkflowState(row) == Success)
  {
    RowIsReplayOfLog(wf, reqs);
    var w := ApplyAll(wf, reqs);
    if w.log != [] {
      assert EventConsistent(w.actions, w.log, |w.log| - 1) && w.log[..|w.log| - 1 + 1] == w.log;
      PercentBounds(Completed(w.row), w.row.total);
    }
  }

  /** The percentage is the completed share of the actions, rounded down; the completed actions are those
      before the index, and the one at the index if its last event is SUCCESS. */
  lemma PercentExact(wf: Workflow, reqs: seq<Report>)
    requires wf == Fresh(wf.actions, wf.members) && wf.actions != []
    ensures var w, n := ApplyAll(wf, reqs), |wf.actions|;
            var p := Percent(w.row.index, w.row.total, w.row.state);
            var done := if w.log == [] then 0
                        else IndexAfter(w.log) + if w.log[|w.log| - 1].status == Success then 1 else 0;
            p * n <= 100 * done < (p + 1) * n
  {
    RowIsReplayOfLog(wf, reqs);
    var w, n := ApplyAll(wf, reqs), |wf.actions|;
    if w.log != [] {
      assert EventConsistent(w.actions, w.log, |w.log| - 1) && w.log[..|w.log| - 1 + 1] == w.log;
    }
    Quotient(Completed(w.row) * 100, n);
  }

  lemma Quotient(x: nat, n: nat)
    requires n > 0
    ensures x / n * n <= x < (x / n + 1) * n
  {
    assert (x / n + 1) * n == x / n * n + n;
  }

  /** The workflow state in terms of the log: PENDING before the first event, and then the status of the
      last event, where SUCCESS counts as RUNNING until the last action. */
  lemma WorkflowStateExact(wf: Workflow, reqs: seq<Report>)
    requires wf == Fresh(wf.actions, wf.members)
    ensures var w := ApplyAll(wf, reqs);
            if w.log == [] then WorkflowState(w.row) == Pending
            else
              var last := w.log[|w.log| - 1].status;
              && (WorkflowState(w.row) == Success <==> last == Success && IndexAfter(w.log) + 1 == |wf.actions|)
              && (WorkflowState(w.row) == Running <==>
                  last == Running || (last == Success && IndexAfter(w.log) + 1 < |wf.actions|))
              && (last != Success ==> WorkflowState(w.row) == last)
  {
    RowIsReplayOfLog(wf, reqs);
    var w := ApplyAll(wf, reqs);
    if w.log != [] {
      assert EventConsistent(w.actions, w.log, |w.log| - 1) && w.log[..|w.log| - 1 + 1] == w.log;
    }
  }

  lemma PercentOrder(row: Row, row': Row)
    requires row.total == row'.total > 0 && 0 <= row.index && 0 <= row'.index && Completed(row) <= Completed(row')
    ensures Percent(row.index, row.total, row.state) <= Percent(row'.index, row'.total, row'.state)
  {
    DivMonotone(Completed(row) * 100, Completed(row') * 100, row.total);
  }

  /** Along a disciplined log the percentage never falls, although the division rounds. */
  lemma PercentNeverFalls(actions: seq<WorkflowAction>, log: seq<Report>, n: nat, n': nat)
    requires WellNamed(actions) && Disciplined(actions, log) && n <= n' <= |log|
    ensures var row, row' := RowAfter(actions, log[..n]), RowAfter(actions, log[..n']);
            Percent(row.index, row.total, row.state) <= Percent(row'.index, row'.total, row'.state)
  {
    if n' > 0 {
      assert DisciplinedEvent(actions, log, n' - 1);
      if n > 0 {
        assert DisciplinedEvent(actions, log, n - 1);
      }
      PercentOrder(RowAfter(actions, log[..n]), RowAfter(actions, log[..n']));
    }
  }

  /** Under arbitrary clients the completed count can fall: exactly when a SUCCESS is overwritten by
      something other than SUCCESS or the RUNNING of the next action. */
  lemma CompletedFallsExactly(actions: seq<WorkflowAction>, log: seq<Report>, req: Report)
    requires Consistent(actions, log + [req]) && Consistent(actions, log)
    ensures Completed(RowOf(actions, log + [req])) < Completed(RowOf(actions, log)) <==>
              RowOf(actions, log).state == Success && req.status != Success && req.status != Running
  {
  }

  /** And it does: for every workflow with an action, a client that reports SUCCESS and then FAILED
      takes the count back. */
  lemma CompletedCanFall(wf: Workflow, success: Report, failure: Report)
    requires wf == Fresh(wf.actions, wf.members) && WellNamed(wf.actions) && wf.actions != []
    requires Names(success, wf.actions[0]) && success.status == Success
    requires Names(failure, wf.actions[0]) && failure.status == Failed
    ensures Completed(ApplyAll(wf, [success]).row) == 1 && Completed(ApplyAll(wf, [success] + [failure]).row) == 0
  {
    var reqs := [success] + [failure];
    assert reqs[..1] == [success] && [success][..0] == [];
    assert ApplyAll(wf, [success]) == Apply(wf, success);
    assert ApplyAll(wf, reqs) == Apply(Apply(wf, success), failure);
  }
}
