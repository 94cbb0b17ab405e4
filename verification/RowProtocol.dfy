/** The Postgres-backed server: one `workflow_state` row and one event log per workflow
    (server/dbserver_worker_workflow.go, db/workflow.go). */
module RowProtocol {
  import opened Types

  /** The mutable part of a `workflow_state` row. */
  datatype Row = Row(worker: string, task: string, action: string, index: int, state: State, total: int)

  /** Everything stored for one workflow: its immutable action list, its row, its event rows, and
      the worker ids of `workflow_worker_map`. */
  datatype Workflow = Workflow(actions: seq<WorkflowAction>, row: Row, log: seq<Report>, members: set<string>)

  datatype Error =
    | InvalidWorkflowId | InvalidTaskName | InvalidActionName | NoSuchWorkflow
    | InvalidActionIndex | InvalidTaskReported | InvalidActionReported

  /** `OutOfRange` is the index-out-of-range failure of the action lookup; it changes nothing. */
  datatype Reply = Accepted(row: Row) | Rejected(error: Error) | OutOfRange

  function InitialRow(total: nat): Row {
    Row("", "", "", 0, Pending, total)
  }

  function Fresh(actions: seq<WorkflowAction>, members: set<string>): Workflow {
    Workflow(actions, InitialRow(|actions|), [], members)
  }

  /** The server's decision on a report about a stored workflow. */
  function Decide(row: Row, actions: seq<WorkflowAction>, req: Report): Reply {
    if req.taskName == "" then Rejected(InvalidTaskName)
    else if req.actionName == "" then Rejected(InvalidActionName)
    else
      var i := if req.status == Running && row.action != "" then row.index + 1 else row.index;
      if row.total > 1 && i >= row.total then Rejected(InvalidActionIndex)
      else if !(0 <= i < |actions|) then OutOfRange
      else if actions[i].taskName != req.taskName then Rejected(InvalidTaskReported)
      else if actions[i].name != req.actionName then Rejected(InvalidActionReported)
      else Accepted(Row(actions[i].workerId, req.taskName, req.actionName, i, req.status, row.total))
  }

  /** The stored workflow after a report, accepted or not. */
  function Apply(wf: Workflow, req: Report): Workflow {
    match Decide(wf.row, wf.actions, req)
    case Accepted(row) => wf.(row := row, log := wf.log + [req])
    case _ => wf
  }

  function ApplyAll(wf: Workflow, reqs: seq<Report>): Workflow {
    if reqs == [] then wf else Apply(ApplyAll(wf, reqs[..|reqs| - 1]), reqs[|reqs| - 1])
  }

  // ---------------------------------------------------------------- which logs can exist

  /** The row obtained by replaying event rows over a new workflow, if each of them is accepted. */
  function Replay(actions: seq<WorkflowAction>, log: seq<Report>): Option<Row> {
    if log == [] then Some(InitialRow(|actions|))
    else
      match Replay(actions, log[..|log| - 1])
      case None => None
      case Some(row) =>
        match Decide(row, actions, log[|log| - 1])
        case Accepted(row') => Some(row')
        case _ => None
  }

  function Starts(log: seq<Report>): nat {
    if log == [] then 0
    else Starts(log[..|log| - 1]) + if log[|log| - 1].status == Running then 1 else 0
  }

  /** The index a non-empty accepted log leads to: the number of RUNNING events, the very first
      event not counted. */
  function IndexAfter(log: seq<Report>): int {
    Starts(log) - if log != [] && log[0].status == Running then 1 else 0
  }

  /** Event `j` names the action that the RUNNING count up to and including it points at. */
  predicate EventConsistent(actions: seq<WorkflowAction>, log: seq<Report>, j: nat)
    requires j < |log|
  {
    var i := IndexAfter(log[..j + 1]);
    && 0 <= i < |actions| && Names(log[j], actions[i])
    && log[j].taskName != "" && log[j].actionName != ""
  }

  /** Closed form of acceptance. */
  predicate Consistent(actions: seq<WorkflowAction>, log: seq<Report>) {
    forall j :: 0 <= j < |log| ==> EventConsistent(actions, log, j)
  }

  /** The row a non-empty consistent log stands for. */
  function RowOf(actions: seq<WorkflowAction>, log: seq<Report>): Row
    requires Consistent(actions, log)
  {
    if log == [] then InitialRow(|actions|)
    else
      var i := IndexAfter(log);
      assert EventConsistent(actions, log, |log| - 1) && log[..|log| - 1 + 1] == log;
      Row(actions[i].workerId, actions[i].taskName, actions[i].name, i, log[|log| - 1].status, |actions|)
  }

  lemma ConsistentPrefix(actions: seq<WorkflowAction>, log: seq<Report>, n: nat)
    requires n <= |log| && Consistent(actions, log)
    ensures Consistent(actions, log[..n])
  {
    forall j | 0 <= j < n
      ensures EventConsistent(actions, log[..n], j)
    {
      assert log[..n][..j + 1] == log[..j + 1];
      assert EventConsistent(actions, log, j);
    }
  }

  /** Extending a consistent log is exactly what the server accepts. */
  lemma DecideExact(actions: seq<WorkflowAction>, log: seq<Report>, req: Report)
    requires Consistent(actions, log)
    ensures Decide(RowOf(actions, log), actions, req).Accepted? <==> Consistent(actions, log + [req])
    ensures Consistent(actions, log + [req]) ==>
              Decide(RowOf(actions, log), actions, req) == Accepted(RowOf(actions, log + [req]))
  {
    var log' := log + [req];
    assert log'[..|log|] == log && log'[..|log| + 1] == log';
    if log != [] {
      assert EventConsistent(actions, log, |log| - 1) && log[..|log| - 1 + 1] == log;
    }
    forall j | 0 <= j < |log|
      ensures EventConsistent(actions, log', j)
    {
      assert log'[..j + 1] == log[..j + 1] && EventConsistent(actions, log, j);
    }
    assert Consistent(actions, log') <==> EventConsistent(actions, log', |log|);
    var i := IndexAfter(log');
    assert i == if req.status == Running && log != [] then IndexAfter(log) + 1 else IndexAfter(log);
    assert EventConsistent(actions, log', |log|) <==>
           0 <= i < |actions| && Names(req, actions[i]) && req.taskName != "" && req.actionName != "";
  }

  /** A log can be accepted event by event from a new workflow iff it is consistent, and the row
      it leads to is then the closed form. */
  lemma {:induction false} ReplayExact(actions: seq<WorkflowAction>, log: seq<Report>)
    ensures Replay(actions, log).Some? <==> Consistent(actions, log)
    ensures Consistent(actions, log) ==> Replay(actions, log) == Some(RowOf(actions, log))
  {
    if log != [] {
      var front, last := log[..|log| - 1], log[|log| - 1];
      assert log == front + [last];
      ReplayExact(actions, front);
      if Consistent(actions, front) {
        DecideExact(actions, front, last);
      } else if Consistent(actions, log) {
        ConsistentPrefix(actions, log, |log| - 1);
      }
    }
  }

  /** After any sequence of requests by any clients, the row is the replay of the event table. */
  lemma {:induction false} RowIsReplayOfLog(wf: Workflow, reqs: seq<Report>)
    requires wf == Fresh(wf.actions, wf.members)
    ensures var wf' := ApplyAll(wf, reqs);
            && wf'.actions == wf.actions && wf'.members == wf.members
            && Replay(wf.actions, wf'.log) == Some(wf'.row)
            && Consistent(wf.actions, wf'.log) && wf'.row == RowOf(wf.actions, wf'.log)
  {
    if reqs != [] {
      var front, last := reqs[..|reqs| - 1], reqs[|reqs| - 1];
      RowIsReplayOfLog(wf, front);
      var mid := ApplyAll(wf, front);
      DecideExact(mid.actions, mid.log, last);
      var wf' := ApplyAll(wf, reqs);
      assert wf' == Apply(mid, last);
      ReplayExact(wf.actions, wf'.log);
    }
  }

  /** The server's answer after any requests of any clients, in terms of the log: reports without names;
      RUNNING reports when every action has been started, which a list of one action answers by an
      index failure and a longer one by an error; reports on any list without actions; and reports
      that name another task, or another action, than the one whose turn it is. */
  lemma RepliesExactly(wf: Workflow, reqs: seq<Report>, req: Report)
    requires wf == Fresh(wf.actions, wf.members)
    ensures var log, n := ApplyAll(wf, reqs).log, |wf.actions|;
            var reply := Decide(ApplyAll(wf, reqs).row, wf.actions, req);
            var i := IndexAfter(log + [req]);
            var named := req.taskName != "" && req.actionName != "";
            && (reply == Rejected(InvalidTaskName) <==> req.taskName == "")
            && (reply == Rejected(InvalidActionName) <==> req.taskName != "" && req.actionName == "")
            && (reply == OutOfRange <==>
                named && (n == 0 || (n == 1 && req.status == Running && log != [])))
            && (reply == Rejected(InvalidActionIndex) <==>
                named && n > 1 && req.status == Running && log != [] && IndexAfter(log) == n - 1)
            && (reply == Rejected(InvalidTaskReported) <==>
                named && 0 <= i < n && wf.actions[i].taskName != req.taskName)
            && (reply == Rejected(InvalidActionReported) <==>
                named && 0 <= i < n && wf.actions[i].taskName == req.taskName && wf.actions[i].name != req.actionName)
            && (reply.Accepted? <==> named && 0 <= i < n && Names(req, wf.actions[i]))
  {
    RowIsReplayOfLog(wf, reqs);
    var log := ApplyAll(wf, reqs).log;
    RowOfLog(wf.actions, log, req);
    RepliesOf(RowOf(wf.actions, log), wf.actions, req, log != [], IndexAfter(log + [req]));
  }

  /** What a row says about its log. */
  lemma RowOfLog(actions: seq<WorkflowAction>, log: seq<Report>, req: Report)
    requires Consistent(actions, log)
    ensures var row := RowOf(actions, log);
            && row.total == |actions| && (row.action != "" <==> log != []) && (log == [] ==> row.index == 0)
            && (log != [] ==> row.index == IndexAfter(log) && 0 <= IndexAfter(log) < |actions|)
            && IndexAfter(log + [req]) == row.index + if req.status == Running && log != [] then 1 else 0
  {
    if log != [] {
      assert EventConsistent(actions, log, |log| - 1) && log[..|log| - 1 + 1] == log;
    }
    var log' := log + [req];
    assert log'[..|log|] == log && (log != [] ==> log'[0] == log[0]);
    assert Starts(log') == Starts(log) + if req.status == Running then 1 else 0;
  }

  lemma RepliesOf(row: Row, actions: seq<WorkflowAction>, req: Report, begun: bool, i: int)
    requires row.total == |actions| && (row.action != "" <==> begun)
    requires if begun then 0 <= row.index < |actions| else row.index == 0
    requires i == row.index + if req.status == Running && begun then 1 else 0
    ensures var reply, n := Decide(row, actions, req), |actions|;
            var named := req.taskName != "" && req.actionName != "";
            && (reply == Rejected(InvalidTaskName) <==> req.taskName == "")
            && (reply == Rejected(InvalidActionName) <==> req.taskName != "" && req.actionName == "")
            && (reply == OutOfRange <==> named && (n == 0 || (n == 1 && req.status == Running && begun)))
            && (reply == Rejected(InvalidActionIndex) <==>
                named && n > 1 && req.status == Running && begun && row.index == n - 1)
            && (reply == Rejected(InvalidTaskReported) <==>
                named && 0 <= i < n && actions[i].taskName != req.taskName)
            && (reply == Rejected(InvalidActionReported) <==>
                named && 0 <= i < n && actions[i].taskName == req.taskName && actions[i].name != req.actionName)
            && (reply.Accepted? <==> named && 0 <= i < n && Names(req, actions[i]))
  {
  }

  lemma {:induction false} StartsMonotone(log: seq<Report>, n: nat)
    requires n <= |log|
    ensures Starts(log[..n]) <= Starts(log)
  {
    if n < |log| {
      assert log[..|log| - 1][..n] == log[..n];
      StartsMonotone(log[..|log| - 1], n);
    } else {
      assert log[..n] == log;
    }
  }

  /** RUNNING events move the index on, and the next RUNNING event moves it on by one. */
  lemma StartsAdvance(log: seq<Report>, j: nat, j': nat)
    requires j < j' < |log| && log[j].status == Running && log[j'].status == Running
    ensures IndexAfter(log[..j + 1]) < IndexAfter(log[..j' + 1])
    ensures (forall m :: j < m < j' ==> log[m].status != Running) ==>
              IndexAfter(log[..j' + 1]) == IndexAfter(log[..j + 1]) + 1
  {
    var p, p' := log[..j + 1], log[..j' + 1];
    assert p'[..|p'| - 1] == log[..j'];
    assert log[..j'][..j + 1] == p;
    StartsMonotone(log[..j'], j + 1);
    assert p[0] == log[0] && p'[0] == log[0];
    if forall m :: j < m < j' ==> log[m].status != Running {
      NoStartsBetween(log, j + 1, j');
    }
  }

  /** The first RUNNING event is on the first action if it opens the log, and else on the second. */
  lemma FirstStart(log: seq<Report>, j: nat)
    requires j < |log| && log[j].status == Running && forall m :: 0 <= m < j ==> log[m].status != Running
    ensures IndexAfter(log[..j + 1]) == if j == 0 then 0 else 1
  {
    NoStartsBetween(log, 0, j);
    assert log[..j + 1][..j] == log[..j];
  }

  /** Event `j` starts action `i`. */
  predicate StartsAction(wf: Workflow, j: nat, i: nat) {
    j < |wf.log| && i < |wf.actions| && wf.log[j].status == Running && Names(wf.log[j], wf.actions[i])
  }

  /** Whatever requests any clients send: two accepted RUNNING reports are on different actions, the
      earlier one on the earlier action; the next RUNNING report is on the next action, so none is
      left out; and the first one is on the first action, unless a result was reported before it. */
  lemma StartedAtMostOnce(wf: Workflow, reqs: seq<Report>, j: nat, i: nat, j': nat, i': nat)
    requires wf == Fresh(wf.actions, wf.members) && WellNamed(wf.actions)
    requires var wf' := ApplyAll(wf, reqs); StartsAction(wf', j, i) && StartsAction(wf', j', i')
    ensures i == i' <==> j == j'
    ensures j < j' ==> i < i'
    ensures var log := ApplyAll(wf, reqs).log;
            && (j < j' && (forall m :: j < m < j' ==> log[m].status != Running) ==> i' == i + 1)
            && ((forall m :: 0 <= m < j ==> log[m].status != Running) ==> i == if j == 0 then 0 else 1)
  {
    RowIsReplayOfLog(wf, reqs);
    var log := ApplyAll(wf, reqs).log;
    StartedAt(wf.actions, log, j, i);
    StartedAt(wf.actions, log, j', i');
    if j < j' {
      StartsAdvance(log, j, j');
    } else if j' < j {
      StartsAdvance(log, j', j);
    }
    if forall m :: 0 <= m < j ==> log[m].status != Running {
      FirstStart(log, j);
    }
  }

  /** The first RUNNING report can be on the second action: a client that reports the result of the
      first action unannounced, for every workflow with two actions. */
  lemma FirstStartCanBeSecond(wf: Workflow, result: Report, start: Report)
    requires wf == Fresh(wf.actions, wf.members) && WellNamed(wf.actions) && |wf.actions| >= 2
    requires Names(result, wf.actions[0]) && result.status != Running && Names(start, wf.actions[1])
             && start.status == Running
    ensures ApplyAll(wf, [result] + [start]).log == [result] + [start]
            && StartsAction(ApplyAll(wf, [result] + [start]), 1, 1)
  {
    var reqs := [result] + [start];
    assert reqs[..1] == [result] && [result][..0] == [];
    assert ApplyAll(wf, [result]) == Apply(wf, result);
    assert ApplyAll(wf, reqs) == Apply(Apply(wf, result), start);
  }

  /** Names are distinct, so the action an event names is the one its RUNNING count points at. */
  lemma StartedAt(actions: seq<WorkflowAction>, log: seq<Report>, j: nat, i: nat)
    requires WellNamed(actions) && Consistent(actions, log) && j < |log| && i < |actions| && Names(log[j], actions[i])
    ensures IndexAfter(log[..j + 1]) == i
  {
    assert EventConsistent(actions, log, j);
  }

  lemma {:induction false} NoStartsBetween(log: seq<Report>, n: nat, n': nat)
    requires n <= n' <= |log|
    requires forall m :: n <= m < n' ==> log[m].status != Running
    ensures Starts(log[..n]) == Starts(log[..n'])
    decreases n'
  {
    if n < n' {
      assert log[..n'][..n' - 1] == log[..n' - 1];
      NoStartsBetween(log, n, n' - 1);
    }
  }
}
