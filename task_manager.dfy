/**
 * The task window: an idle/running machine that collects event texts while
 * a task is open and hands them over, in arrival order, when the task is
 * completed.
 */
module Tasks {
  import opened Wrappers

  datatype TaskStatus = Idle | Running

  /** A task's record; `number` is the counter value its id is built from. */
  datatype TaskInfo = TaskInfo(number: int, startTime: int, texts: seq<string>)

  /** `w` is a (possibly empty) suffix of `t`. */
  predicate IsSuffix<T(==)>(w: seq<T>, t: seq<T>) {
    |w| <= |t| && t[|t| - |w|..] == w
  }

  class TaskManager {
    var status: TaskStatus
    var currentTask: Option<TaskInfo>
    var textWindow: seq<string>
    var taskCounter: int

    /**
     * Idle means no window and no task; a task exists exactly while running;
     * the window is what the current task collected since the window was
     * last cleared.
     */
    ghost predicate Valid()
      reads this
    {
      && (status == Idle ==> textWindow == [] && currentTask.None?)
      && (status == Running <==> currentTask.Some?)
      && (currentTask.Some? ==> IsSuffix(textWindow, currentTask.value.texts))
      && taskCounter >= 0
    }

    /** `GetInstance`'s first construction. */
    constructor ()
      ensures Valid()
      ensures status == Idle && currentTask == None && textWindow == [] && taskCounter == 0
    {
      status := Idle;
      currentTask := None;
      textWindow := [];
      taskCounter := 0;
    }

    /**
     * `AddText`: the empty text is refused and nothing changes. Otherwise a
     * new task is started when idle (the window is then empty), and the text
     * is appended to the window and to the current task.
     */
    method AddText(text: string, now: int) returns (err: Outcome)
      requires Valid()
      modifies this
      ensures Valid() && taskCounter >= old(taskCounter)
      ensures text == "" ==> err.Fail? && unchanged(this)
      ensures text != "" ==>
        && err.Pass?
        && status == Running
        && textWindow == old(textWindow) + [text]
        && (old(status) == Idle ==>
              taskCounter == old(taskCounter) + 1
              && currentTask == Some(TaskInfo(taskCounter, now, [text])))
        && (old(status) == Running ==>
              taskCounter == old(taskCounter)
              && currentTask == Some(old(currentTask).value.(texts := old(currentTask).value.texts + [text])))
    {
      if text == "" {
        return Fail("文本内容不能为空");
      }
      if status == Idle && |textWindow| == 0 {
        StartNewTask(now);
      }
      if currentTask.Some? {
        SuffixOfAppend(textWindow, currentTask.value.texts, text);
      }
      textWindow := textWindow + [text];
      if currentTask.Some? {
        currentTask := Some(currentTask.value.(texts := currentTask.value.texts + [text]));
      }
      err := Pass;
    }

    /** `startNewTask`: next counter value, a fresh task with no texts, Running. */
    method StartNewTask(now: int)
      modifies this`taskCounter, this`currentTask, this`status
      ensures taskCounter == old(taskCounter) + 1
      ensures currentTask == Some(TaskInfo(taskCounter, now, [])) && status == Running
    {
      taskCounter := taskCounter + 1;
      currentTask := Some(TaskInfo(taskCounter, now, []));
      status := Running;
    }

    /**
     * `CompleteTask`: when idle, nothing to hand over and nothing changes;
     * when running, the window in insertion order is returned and the
     * manager goes back to idle.
     */
    method CompleteTask() returns (texts: seq<string>)
      requires Valid()
      modifies this`textWindow, this`status, this`currentTask
      ensures Valid()
      ensures old(status) == Idle ==> texts == [] && unchanged(this)
      ensures old(status) == Running ==>
        texts == old(textWindow) && textWindow == [] && status == Idle && currentTask == None
      ensures IsSuffix(texts, if old(currentTask).Some? then old(currentTask).value.texts else [])
    {
      if status == Idle {
        return [];
      }
      texts := textWindow;
      textWindow := [];
      status := Idle;
      currentTask := None;
    }

    /** `ForceCompleteTask`: hand over the window and reset, whatever the status. */
    method ForceCompleteTask() returns (texts: seq<string>)
      requires Valid()
      modifies this`textWindow, this`status, this`currentTask
      ensures Valid()
      ensures texts == old(textWindow) && textWindow == [] && status == Idle && currentTask == None
    {
      texts := textWindow;
      textWindow := [];
      status := Idle;
      currentTask := None;
    }

    /** `ClearWindow`: drop the window only; the task and counter stay. */
    method ClearWindow()
      requires Valid()
      modifies this`textWindow
      ensures Valid() && textWindow == []
    {
      textWindow := [];
    }

    /** `IsTaskRunning`: a task is running exactly when a task record exists. */
    method IsTaskRunning() returns (r: bool)
      requires Valid()
      ensures r <==> currentTask.Some?
      ensures !r ==> textWindow == []
    {
      r := status == Running;
    }

    /** `GetCurrentTexts`: a copy of the window, which is the tail of the task's texts. */
    method GetCurrentTexts() returns (texts: seq<string>)
      requires Valid()
      ensures texts == textWindow
      ensures currentTask.Some? ==> IsSuffix(texts, currentTask.value.texts)
      ensures currentTask.None? ==> texts == []
    {
      texts := textWindow;
    }

    /** `GetTaskInfo`: a copy of the current record, absent exactly when idle. */
    method GetTaskInfo() returns (info: Option<TaskInfo>)
      requires Valid()
      ensures info == currentTask
      ensures info.None? <==> status == Idle
    {
      info := currentTask;
    }

    /** `GetWindowSize`: a non-empty window implies a running task. */
    method GetWindowSize() returns (n: int)
      requires Valid()
      ensures n == |textWindow|
      ensures n > 0 ==> status == Running
    {
      n := |textWindow|;
    }
  }

  /** Appending the same text to the window and to the task keeps the window a suffix. */
  lemma {:induction false} SuffixOfAppend<T>(w: seq<T>, t: seq<T>, x: T)
    requires IsSuffix(w, t)
    ensures IsSuffix(w + [x], t + [x])
  {
    var k := |t| - |w|;
    assert (t + [x])[k..] == t[k..] + [x];
  }
}
