/** Worker discipline: the shape every event log is meant to have. */
module Discipline {
  import opened Types
  import opened RowProtocol

  predicate IsResult(s: State) {
    s == Success || s == Failed || s == Timeout
  }

  /** Event `j` is about action `j / 2`, by that action's worker: RUNNING when `j` is even, a result
      when `j` is odd, and a result other than SUCCESS ends the log. */
  predicate DisciplinedEvent(actions: seq<WorkflowAction>, log: seq<Report>, j: nat)
    requires j < |log| <= 2 * |actions|
  {
    && Names(log[j], actions[j / 2])
    && log[j].workerId == actions[j / 2].workerId
    && (j % 2 == 0 ==> log[j].status == Running)
    && (j % 2 == 1 ==> IsResult(log[j].status) && (log[j].status == Success || j == |log| - 1))
  }

  /** RUNNING(0), SUCCESS(0), RUNNING(1), SUCCESS(1), ... up to some point, possibly ended by one
      FAILED or TIMEOUT for the action then running. */
  predicate Disciplined(actions: seq<WorkflowAction>, log: seq<Report>) {
    && |log| <= 2 * |actions|
    && (forall j :: 0 <= j < |log| ==> DisciplinedEvent(actions, log, j))
  }

  /** The log has not been ended by FAILED or TIMEOUT. */
  predicate Open(log: seq<Report>) {
    log != [] ==> log[|log| - 1].status == Running || log[|log| - 1].status == Success
  }

  predicate Complete(actions: seq<WorkflowAction>, log: seq<Report>) {
    Disciplined(actions, log) && |log| == 2 * |actions| && Open(log)
  }

  lemma DisciplinedPrefix(actions: seq<WorkflowAction>, log: seq<Report>, n: nat)
    requires Disciplined(actions, log) && n <= |log|
    ensures Disciplined(actions, log[..n])
    ensures n < |log| ==> Open(log[..n])
  {
    forall j | 0 <= j < n
      ensures DisciplinedEvent(actions, log[..n], j)
    {
      assert DisciplinedEvent(actions, log, j);
    }
    if 0 < n < |log| {
      assert DisciplinedEvent(actions, log, n - 1);
    }
  }

  lemma DisciplinedAppend(actions: seq<WorkflowAction>, log: seq<Report>, r: Report)
    requires Disciplined(actions, log) && Open(log) && |log| < 2 * |actions|
    requires Names(r, actions[|log| / 2]) && r.workerId == actions[|log| / 2].workerId
    requires if |log| % 2 == 0 then r.status == Running else IsResult(r.status)
    ensures Disciplined(actions, log + [r])
  {
    forall j | 0 <= j < |log| + 1
      ensures DisciplinedEvent(actions, log + [r], j)
    {
      if j < |log| {
        assert DisciplinedEvent(actions, log, j);
      }
    }
  }

  lemma ConsistentExtends(actions: seq<WorkflowAction>, log: seq<Report>, n: nat)
    requires n + 1 == |log| && Consistent(actions, log[..n]) && EventConsistent(actions, log, n)
    ensures Consistent(actions, log)
  {
    forall j | 0 <= j < n
      ensures EventConsistent(actions, log, j)
    {
      assert log[..n][..j + 1] == log[..j + 1] && EventConsistent(actions, log[..n], j);
    }
  }

  /** Every disciplined log is one the server accepts, and its RUNNING count is half its length. */
  lemma {:induction false} DisciplinedIsConsistent(actions: seq<WorkflowAction>, log: seq<Report>)
    requires WellNamed(actions) && Disciplined(actions, log)
    ensures Consistent(actions, log)
    ensures Starts(log) == (|log| + 1) / 2
    ensures log != [] ==> log[0].status == Running && IndexAfter(log) == (|log| - 1) / 2
  {
    if log != [] {
      var n := |log| - 1;
      DisciplinedPrefix(actions, log, n);
      DisciplinedIsConsistent(actions, log[..n]);
      assert DisciplinedEvent(actions, log, n) && DisciplinedEvent(actions, log, 0);
      assert log[..n + 1] == log;
      ConsistentExtends(actions, log, n);
    }
  }

  /** The row a disciplined log stands for. */
  function RowAfter(actions: seq<WorkflowAction>, log: seq<Report>): Row
    requires |log| <= 2 * |actions|
  {
    if log == [] then InitialRow(|actions|)
    else
      var i := (|log| - 1) / 2;
      Row(actions[i].workerId, actions[i].taskName, actions[i].name, i, log[|log| - 1].status, |actions|)
  }

  lemma RowAfterIsReplay(actions: seq<WorkflowAction>, log: seq<Report>)
    requires WellNamed(actions) && Disciplined(actions, log)
    ensures Replay(actions, log) == Some(RowAfter(actions, log))
  {
    DisciplinedIsConsistent(actions, log);
    ReplayExact(actions, log);
  }

  /** The server's answer to the report a worker sends about action `i` over an open disciplined
      log with `|log| / 2 == i`: the next event of the discipline is accepted; a result for an
      action that was never announced is not. */
  lemma DecideNext(actions: seq<WorkflowAction>, log: seq<Report>, r: Report)
    requires WellNamed(actions) && Disciplined(actions, log) && Open(log) && |log| < 2 * |actions|
    requires Names(r, actions[|log| / 2]) && r.workerId == actions[|log| / 2].workerId
    requires r.status == Running ==> |log| % 2 == 0
    requires r.status == Running || IsResult(r.status)
    requires IsResult(r.status) && |log| % 2 == 0 ==> log != []
    ensures var reply := Decide(RowAfter(actions, log), actions, r);
            if IsResult(r.status) && |log| % 2 == 0 then !reply.Accepted?
            else Disciplined(actions, log + [r]) && reply == Accepted(RowAfter(actions, log + [r]))
  {
    var i := |log| / 2;
    if !(IsResult(r.status) && |log| % 2 == 0) {
      DisciplinedAppend(actions, log, r);
    }
    if log != [] {
      assert DisciplinedEvent(actions, log, |log| - 1);
    }
  }

  /** Sending the last accepted event once more, as a worker does whose reply got lost, is harmless
      for RUNNING and records a second result for a result: hence the assumption that a failed
      attempt had no effect. */
  lemma ResendLast(actions: seq<WorkflowAction>, log: seq<Report>)
    requires WellNamed(actions) && Disciplined(actions, log) && log != []
    ensures Decide(RowAfter(actions, log), actions, log[|log| - 1]).Accepted? <==> log[|log| - 1].status != Running
    ensures !Disciplined(actions, log + [log[|log| - 1]])
  {
    var log' := log + [log[|log| - 1]];
    assert DisciplinedEvent(actions, log, |log| - 1);
    assert |log'| <= 2 * |actions| ==> !DisciplinedEvent(actions, log', |log|);
  }
}
