/** The records the server, the workers and the controller exchange.

    A `string` stands for a Go string, one `char` per byte.  Instants and durations are integers in
    nanoseconds.
  */
module Types {
  datatype Option<+T> = None | Some(value: T)

  /** protos/workflow/workflow.pb.go:34-57 */
  datatype State = Pending | Running | Failed | Timeout | Success

  /** workflow/types.go: a parsed template. */
  datatype Template = Template(version: string, name: string, globalTimeout: int, tasks: seq<TemplateTask>)

  datatype TemplateTask = TemplateTask(
    name: string, workerAddr: string, actions: seq<TemplateAction>,
    volumes: seq<string>, environment: map<string, string>)

  datatype TemplateAction = TemplateAction(
    name: string, image: string, timeout: int, command: seq<string>, onTimeout: seq<string>,
    onFailure: seq<string>, volumes: seq<string>, environment: map<string, string>, pid: string)

  /** An entry of the flat action list served to workers. */
  datatype WorkflowAction = WorkflowAction(
    taskName: string, workerId: string, name: string, image: string, timeout: int,
    command: seq<string>, onTimeout: seq<string>, onFailure: seq<string>,
    environment: seq<string>, volumes: seq<string>, pid: string)

  /** A worker's report on one action; an accepted one becomes an event row. */
  datatype Report = Report(taskName: string, actionName: string, workerId: string, status: State)

  predicate Names(r: Report, a: WorkflowAction) {
    r.taskName == a.taskName && r.actionName == a.name
  }

  /** What template validation guarantees about a flat action list. */
  predicate WellNamed(actions: seq<WorkflowAction>) {
    && (forall i :: 0 <= i < |actions| ==> actions[i].taskName != "" && actions[i].name != "")
    && (forall i, j :: 0 <= i < j < |actions| ==>
          !(actions[i].taskName == actions[j].taskName && actions[i].name == actions[j].name))
  }

  function TemplateLens(tasks: seq<TemplateTask>): (lens: seq<nat>)
    ensures |lens| == |tasks|
    ensures forall i :: 0 <= i < |tasks| ==> lens[i] == |tasks[i].actions|
  {
    seq(|tasks|, i requires 0 <= i < |tasks| => |tasks[i].actions|)
  }
}
