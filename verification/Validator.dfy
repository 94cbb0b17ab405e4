/** Template validation (workflow/template_validator.go:108-175).  The image-reference parser is the
    parameter `validImage`. */
module Validator {
  import opened Nested
  import opened Types

  datatype Error =
    | EmptyName
    | InvalidLength(name: string)
    | InvalidVersion(version: string)
    | NoTasks
    | DuplicateTask(name: string)
    | DuplicateAction(name: string)
    | InvalidImage(image: string)

  const MAX_NAME_LENGTH := 200

  predicate HasValidLength(name: string) {
    |name| < MAX_NAME_LENGTH
  }

  predicate GoodName(name: string) {
    name != "" && HasValidLength(name)
  }

  predicate ValidAction(a: TemplateAction, validImage: string -> bool) {
    GoodName(a.name) && validImage(a.image)
  }

  /** The first `n` actions are good and no two of them have the same name. */
  predicate ValidActions(actions: seq<TemplateAction>, n: nat, validImage: string -> bool)
    requires n <= |actions|
  {
    && (forall j :: 0 <= j < n ==> ValidAction(actions[j], validImage))
    && (forall j, j' :: 0 <= j < j' < n ==> actions[j].name != actions[j'].name)
  }

  /** The first `n` tasks are good and no two of them have the same name. */
  predicate ValidTasks(tasks: seq<TemplateTask>, n: nat, validImage: string -> bool)
    requires n <= |tasks|
  {
    && (forall i :: 0 <= i < n ==>
          GoodName(tasks[i].name) && ValidActions(tasks[i].actions, |tasks[i].actions|, validImage))
    && (forall i, i' :: 0 <= i < i' < n ==> tasks[i].name != tasks[i'].name)
  }

  predicate ValidTemplate(t: Template, validImage: string -> bool) {
    GoodName(t.name) && t.version == "0.1" && t.tasks != [] && ValidTasks(t.tasks, |t.tasks|, validImage)
  }

  /** The names occurring in a template. */
  ghost predicate Occurs(t: Template, name: string) {
    || t.name == name
    || (exists i :: 0 <= i < |t.tasks| && t.tasks[i].name == name)
    || (exists i, j :: 0 <= i < |t.tasks| && 0 <= j < |t.tasks[i].actions| && t.tasks[i].actions[j].name == name)
  }

  /** The template has the defect the error reports. */
  ghost predicate Defect(t: Template, e: Error, validImage: string -> bool) {
    match e
    case EmptyName => Occurs(t, "")
    case InvalidLength(name) => Occurs(t, name) && !HasValidLength(name)
    case InvalidVersion(version) => t.version == version && version != "0.1"
    case NoTasks => t.tasks == []
    case DuplicateTask(name) =>
      exists i, i' :: 0 <= i < i' < |t.tasks| && t.tasks[i].name == name && t.tasks[i'].name == name
    case DuplicateAction(name) =>
      exists i, j, j' :: 0 <= i < |t.tasks| && 0 <= j < j' < |t.tasks[i].actions|
                         && t.tasks[i].actions[j].name == name && t.tasks[i].actions[j'].name == name
    case InvalidImage(image) =>
      exists i, j :: 0 <= i < |t.tasks| && 0 <= j < |t.tasks[i].actions|
                     && t.tasks[i].actions[j].image == image && !validImage(image)
  }

  /** Action `j`, after good ones, has this error: the image is looked at before the name is compared. */
  ghost predicate ActionError(actions: seq<TemplateAction>, j: nat, e: Error, validImage: string -> bool)
    requires j < |actions|
  {
    && ValidActions(actions, j, validImage)
    && var name := actions[j].name;
       || (name == "" && e == EmptyName)
       || (!HasValidLength(name) && e == InvalidLength(name))
       || (GoodName(name) && !validImage(actions[j].image) && e == InvalidImage(actions[j].image))
       || (ValidAction(actions[j], validImage) && (exists k :: 0 <= k < j && actions[k].name == name)
           && e == DuplicateAction(name))
  }

  /** Task `i`, after good ones, has this error: in its own name, or, if that is good and new, in its
      first action that is not good. */
  ghost predicate TaskError(tasks: seq<TemplateTask>, i: nat, e: Error, validImage: string -> bool)
    requires i < |tasks|
  {
    && ValidTasks(tasks, i, validImage)
    && var name := tasks[i].name;
       || (name == "" && e == EmptyName)
       || (!HasValidLength(name) && e == InvalidLength(name))
       || (GoodName(name) && (exists k :: 0 <= k < i && tasks[k].name == name) && e == DuplicateTask(name))
       || (GoodName(name) && (forall k :: 0 <= k < i ==> tasks[k].name != name)
           && exists j :: 0 <= j < |tasks[i].actions| && ActionError(tasks[i].actions, j, e, validImage))
  }

  /** The first defect in the order of the checks is `e`. */
  ghost predicate FirstDefect(t: Template, e: Error, validImage: string -> bool) {
    if t.name == "" then e == EmptyName
    else if !HasValidLength(t.name) then e == InvalidLength(t.name)
    else if t.version != "0.1" then e == InvalidVersion(t.version)
    else if t.tasks == [] then e == NoTasks
    else exists i :: 0 <= i < |t.tasks| && TaskError(t.tasks, i, e, validImage)
  }

  lemma ActionErrorUnique(actions: seq<TemplateAction>, j: nat, e: Error, j': nat, e': Error,
                          validImage: string -> bool)
    requires j < |actions| && j' < |actions|
    requires ActionError(actions, j, e, validImage) && ActionError(actions, j', e', validImage)
    ensures e == e'
  {
  }

  lemma TaskErrorUnique(tasks: seq<TemplateTask>, i: nat, e: Error, i': nat, e': Error, validImage: string -> bool)
    requires i < |tasks| && i' < |tasks|
    requires TaskError(tasks, i, e, validImage) && TaskError(tasks, i', e', validImage)
    ensures e == e'
  {
    assert i == i';
    var actions := tasks[i].actions;
    if (exists j :: 0 <= j < |actions| && ActionError(actions, j, e, validImage)) &&
       (exists j :: 0 <= j < |actions| && ActionError(actions, j, e', validImage)) {
      var j :| 0 <= j < |actions| && ActionError(actions, j, e, validImage);
      var j' :| 0 <= j' < |actions| && ActionError(actions, j', e', validImage);
      ActionErrorUnique(actions, j, e, j', e', validImage);
    }
  }

  /** The reported error is determined by the template. */
  lemma FirstDefectUnique(t: Template, e: Error, e': Error, validImage: string -> bool)
    requires FirstDefect(t, e, validImage) && FirstDefect(t, e', validImage)
    ensures e == e'
  {
    if GoodName(t.name) && t.version == "0.1" && t.tasks != [] {
      var i :| 0 <= i < |t.tasks| && TaskError(t.tasks, i, e, validImage);
      var i' :| 0 <= i' < |t.tasks| && TaskError(t.tasks, i', e', validImage);
      TaskErrorUnique(t.tasks, i, e, i', e', validImage);
    }
  }

  /** validate: accepts exactly the valid templates, and reports the first defect in the order of its
      checks, which the template has. */
  method Validate(t: Template, validImage: string -> bool) returns (err: Option<Error>)
    ensures err.None? <==> ValidTemplate(t, validImage)
    ensures err.Some? ==> FirstDefect(t, err.value, validImage) && Defect(t, err.value, validImage)
  {
    if t.name == "" {
      return Some(EmptyName);
    }
    if !HasValidLength(t.name) {
      return Some(InvalidLength(t.name));
    }
    if t.version != "0.1" {
      return Some(InvalidVersion(t.version));
    }
    if |t.tasks| == 0 {
      return Some(NoTasks);
    }
    var taskNames: set<string> := {};
    var i := 0;
    while i < |t.tasks|
      invariant 0 <= i <= |t.tasks| && ValidTasks(t.tasks, i, validImage)
      invariant taskNames == set k | 0 <= k < i :: t.tasks[k].name
    {
      var task := t.tasks[i];
      if task.name == "" {
        assert TaskError(t.tasks, i, EmptyName, validImage);
        return Some(EmptyName);
      }
      if !HasValidLength(task.name) {
        assert TaskError(t.tasks, i, InvalidLength(task.name), validImage);
        return Some(InvalidLength(task.name));
      }
      if task.name in taskNames {
        assert TaskError(t.tasks, i, DuplicateTask(task.name), validImage);
        return Some(DuplicateTask(task.name));
      }
      taskNames := taskNames + {task.name};
      var actionNames: set<string> := {};
      var j := 0;
      while j < |task.actions|
        invariant 0 <= j <= |task.actions| && ValidActions(task.actions, j, validImage)
        invariant actionNames == set k | 0 <= k < j :: task.actions[k].name
      {
        var action := task.actions[j];
        if action.name == "" {
          assert ActionError(task.actions, j, EmptyName, validImage) && TaskError(t.tasks, i, EmptyName, validImage);
          return Some(EmptyName);
        }
        if !HasValidLength(action.name) {
          assert ActionError(task.actions, j, InvalidLength(action.name), validImage)
                 && TaskError(t.tasks, i, InvalidLength(action.name), validImage);
          return Some(InvalidLength(action.name));
        }
        if !validImage(action.image) {
          assert ActionError(task.actions, j, InvalidImage(action.image), validImage)
                 && TaskError(t.tasks, i, InvalidImage(action.image), validImage);
          return Some(InvalidImage(action.image));
        }
        if action.name in actionNames {
          assert ActionError(task.actions, j, DuplicateAction(action.name), validImage)
                 && TaskError(t.tasks, i, DuplicateAction(action.name), validImage);
          return Some(DuplicateAction(action.name));
        }
        actionNames := actionNames + {action.name};
        j := j + 1;
      }
      i := i + 1;
    }
    return None;
  }

  /** What is accepted, spelled out. */
  lemma ValidSpelledOut(t: Template, validImage: string -> bool)
    ensures ValidTemplate(t, validImage) <==>
              && t.version == "0.1" && 0 < |t.name| < 200 && |t.tasks| >= 1
              && (forall i :: 0 <= i < |t.tasks| ==> 0 < |t.tasks[i].name| < 200)
              && (forall i, i' :: 0 <= i < |t.tasks| && 0 <= i' < |t.tasks| && i != i' ==>
                    t.tasks[i].name != t.tasks[i'].name)
              && (forall i, j :: 0 <= i < |t.tasks| && 0 <= j < |t.tasks[i].actions| ==>
                    0 < |t.tasks[i].actions[j].name| < 200 && validImage(t.tasks[i].actions[j].image))
              && (forall i, j, j' :: 0 <= i < |t.tasks| && 0 <= j < |t.tasks[i].actions|
                                     && 0 <= j' < |t.tasks[i].actions| && j != j' ==>
                    t.tasks[i].actions[j].name != t.tasks[i].actions[j'].name)
  {
  }

  /** A flat list carries the template's names in task-then-action order. */
  predicate Flattens(tasks: seq<TemplateTask>, actions: seq<WorkflowAction>) {
    && |actions| == Sum(TemplateLens(tasks))
    && (forall k :: 0 <= k < |actions| ==>
          && actions[k].taskName == tasks[Locate(TemplateLens(tasks), k).0].name
          && actions[k].name == tasks[Locate(TemplateLens(tasks), k).0].actions[Locate(TemplateLens(tasks), k).1].name)
  }

  /** In the flat list of a valid template the (task, action) pairs are non-empty and pairwise
      distinct. */
  lemma ValidIsWellNamed(t: Template, validImage: string -> bool, actions: seq<WorkflowAction>)
    requires ValidTemplate(t, validImage) && Flattens(t.tasks, actions)
    ensures WellNamed(actions)
  {
  }
}
