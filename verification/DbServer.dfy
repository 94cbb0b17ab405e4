/** The server object over the tables, and whom it offers a workflow to
    (server/dbserver_worker_workflow.go:16-139, 186-235). */
module DbServer {
  import opened Types
  import opened RowProtocol

  datatype Verdict = Send | Skip | Crashed

  /** isLastAction, the same on the server and on the worker. */
  predicate IsLastAction(row: Row, actions: seq<WorkflowAction>) {
    row.index == |actions| - 1
  }

  /** isApplicableToSend; `Crashed` is the index-out-of-range failure of an empty action list. */
  function Applicable(row: Row, actions: seq<WorkflowAction>, workerId: string): Verdict {
    if row.state == Failed || row.state == Timeout then Skip
    else if row.state == Success then
      if IsLastAction(row, actions) then Skip
      else if row.index == 0 then
        if !(row.index + 1 < |actions|) then Crashed
        else if actions[row.index + 1].workerId == workerId then Send
        else Skip
      else Skip
    else if !(0 <= row.index < |actions|) then Crashed
    else if actions[row.index].workerId == workerId then Send
    else Skip
  }

  /** One context sent on the stream: the workflow and its row at that moment. */
  datatype Offer = Offer(wf: string, row: Row)

  type Table = map<string, Workflow>

  predicate Offered(table: Table, workerId: string, o: Offer) {
    && o.wf in table && workerId in table[o.wf].members
    && o.row == table[o.wf].row && Applicable(o.row, table[o.wf].actions, workerId) == Send
  }

  /** What a worker may find on its stream.  A stream that broke off early is a stream too. */
  predicate IsStream(table: Table, workerId: string, stream: seq<Offer>) {
    && (forall i :: 0 <= i < |stream| ==> Offered(table, workerId, stream[i]))
    && (forall i, j :: 0 <= i < j < |stream| ==> stream[i].wf != stream[j].wf)
  }

  class Server {
    var table: Table

    constructor ()
      ensures table == map[]
    {
      table := map[];
    }

    /** ReportActionStatus.  An unknown workflow or a refused report leaves the tables unchanged; an
        accepted one updates the row and adds the event, both in one step. */
    method ReportActionStatus(wfId: string, req: Report) returns (reply: Reply)
      modifies this
      ensures wfId == "" ==> reply == Rejected(InvalidWorkflowId) && table == old(table)
      ensures wfId != "" && wfId !in old(table) ==>
                && table == old(table)
                && reply == Rejected(if req.taskName == "" then InvalidTaskName
                                     else if req.actionName == "" then InvalidActionName else NoSuchWorkflow)
      ensures wfId != "" && wfId in old(table) ==>
                && reply == Decide(old(table)[wfId].row, old(table)[wfId].actions, req)
                && table == old(table)[wfId := Apply(old(table)[wfId], req)]
    {
      if wfId == "" {
        return Rejected(InvalidWorkflowId);
      }
      if req.taskName == "" {
        assert wfId in table ==> table[wfId := table[wfId]] == table;
        return Rejected(InvalidTaskName);
      }
      if req.actionName == "" {
        assert wfId in table ==> table[wfId := table[wfId]] == table;
        return Rejected(InvalidActionName);
      }
      if wfId !in table {
        return Rejected(NoSuchWorkflow);
      }
      var context := table[wfId].row;
      var actions := table[wfId].actions;
      assert table[wfId := table[wfId]] == table;

      var actionIndex := context.index;
      if req.status == Running {
        if context.action != "" {
          actionIndex := actionIndex + 1;
        }
      }
      if context.total > 1 && actionIndex >= context.total {
        return Rejected(InvalidActionIndex);
      }
      if actionIndex < 0 || actionIndex >= |actions| {
        return OutOfRange;
      }
      var action := actions[actionIndex];
      if action.taskName != req.taskName {
        return Rejected(InvalidTaskReported);
      }
      if action.name != req.actionName {
        return Rejected(InvalidActionReported);
      }
      context := context.(worker := action.workerId);
      context := context.(task := req.taskName);
      context := context.(action := req.actionName);
      context := context.(state := req.status);
      context := context.(index := actionIndex);
      table := table[wfId := table[wfId].(row := context)];
      table := table[wfId := table[wfId].(log := table[wfId].log + [req])];
      reply := Accepted(context);
    }

    /** GetWorkflowContexts: the workflows of the worker map, in an order the database chooses, each
        sent when it is applicable.  `ok` is false when the call broke off. */
    method GetWorkflowContexts(workerId: string) returns (stream: seq<Offer>, ok: bool)
      ensures IsStream(table, workerId, stream)
      ensures workerId == "" ==> stream == [] && !ok
      ensures workerId != "" && ok ==>
                forall wf :: wf in table && Offered(table, workerId, Offer(wf, table[wf].row)) ==>
                  Offer(wf, table[wf].row) in stream
      ensures workerId != "" ==>
                (!ok <==> exists wf :: wf in table && workerId in table[wf].members
                                       && Applicable(table[wf].row, table[wf].actions, workerId) == Crashed)
    {
      stream, ok := [], false;
      if workerId == "" {
        return;
      }
      var mine := set wf | wf in table && workerId in table[wf].members;
      var left := mine;
      while left != {}
        invariant left <= mine
        invariant IsStream(table, workerId, stream)
        invariant forall o :: o in stream ==> o.wf in mine && o.wf !in left
        invariant forall wf :: wf in mine && wf !in left && Offered(table, workerId, Offer(wf, table[wf].row)) ==>
                    Offer(wf, table[wf].row) in stream
        invariant forall wf :: wf in mine && wf !in left ==>
                    Applicable(table[wf].row, table[wf].actions, workerId) != Crashed
        decreases left
      {
        var wf :| wf in left;
        left := left - {wf};
        var context := table[wf].row;
        match Applicable(context, table[wf].actions, workerId) {
          case Crashed => return;
          case Send =>
            assert forall i :: 0 <= i < |stream| ==> stream[i] in stream;
            stream := stream + [Offer(wf, context)];
          case Skip =>
        }
      }
      ok := true;
    }
  }
}
