/** src/automation/task_manager.rs: automated tasks kept in order of their next run, and a log
  * of their executions. Times are whole seconds on an injected clock. */
module TaskManager {
  import opened Wrappers
  import opened Collections

  datatype TaskPriority = Low | Medium | High | Critical

  datatype TaskType = ContentCreation | DataAnalysis | SystemMaintenance | SecurityAudit | BackupOperation
                    | ModelTraining | StreamPreparation | CommunityEngagement | Custom(name: string)

  /** `Recurring` carries its period in seconds. */
  datatype TaskSchedule = OneTime(at: int) | Recurring(period: int) | Conditional(condition: string)
                        | DependentOn(taskIds: seq<string>)

  datatype TaskStatus = Pending | InProgress | Completed | Failed(reason: string) | Cancelled

  /** A task; `parameters` is the JSON value's text. */
  datatype AutomatedTask = AutomatedTask(id: string, name: string, description: string, priority: TaskPriority,
                                         schedule: TaskSchedule, lastRun: Option<int>, nextRun: int,
                                         taskType: TaskType, parameters: string, status: TaskStatus)

  /** Resource figures are reals; this manager only ever records zero for them. */
  datatype TaskMetrics = TaskMetrics(cpuUsage: real, memoryUsage: real, duration: int, errorCount: nat)

  datatype TaskExecutionRecord = TaskExecutionRecord(taskId: string, startTime: int, endTime: Option<int>,
                                                     status: TaskStatus, metrics: TaskMetrics)

  datatype TaskPerformanceReport = TaskPerformanceReport(totalTasks: nat, successRate: real,
                                                         averageDuration: int)

  /** The sort key of `schedule_task`. */
  function NextRun(t: AutomatedTask): int {
    t.nextRun
  }

  class TaskManager {
    var tasks: seq<AutomatedTask>
    var executionHistory: seq<TaskExecutionRecord>

    predicate Valid()
      reads this
    {
      SortedBy(tasks, NextRun)
    }

    /** `new`: no tasks, no history. */
    constructor ()
      ensures Valid() && tasks == [] && executionHistory == []
    {
      tasks := [];
      executionHistory := [];
    }

    /** `schedule_task`: one more task, the list kept in order of next run. It always succeeds. */
    method ScheduleTask(task: AutomatedTask)
      requires Valid()
      modifies this`tasks
      ensures Valid()
      ensures tasks == InsertStable(old(tasks), task, NextRun)
      ensures |tasks| == |old(tasks)| + 1
    {
      InsertStableSorted(tasks, task, NextRun);
      tasks := InsertStable(tasks, task, NextRun);
    }

    /** `get_next_task`: the task due soonest, None when there are none. */
    method GetNextTask() returns (r: Option<AutomatedTask>)
      requires Valid()
      ensures r.None? <==> tasks == []
      ensures r.Some? ==> r.value == tasks[0] && forall i :: 0 <= i < |tasks| ==> r.value.nextRun <= tasks[i].nextRun
    {
      if tasks == [] {
        return None;
      }
      r := Some(tasks[0]);
    }

    /** `execute_task` started at `start` and finished at `finish` (whole seconds): one record
      * is logged and returned, still marked in progress, with no errors and zero resource use. */
    method ExecuteTask(task: AutomatedTask, start: int, finish: int) returns (record: TaskExecutionRecord)
      modifies this`executionHistory
      ensures record.taskId == task.id && record.startTime == start && record.endTime == Some(finish)
      ensures record.status == InProgress
      ensures record.metrics == TaskMetrics(0.0, 0.0, finish - start, 0)
      ensures executionHistory == old(executionHistory) + [record]
    {
      var metrics := TaskMetrics(0.0, 0.0, finish - start, 0);
      record := TaskExecutionRecord(task.id, start, Some(finish), InProgress, metrics);
      executionHistory := executionHistory + [record];
    }

    /** `analyze_performance`: the number of executions, and zero for everything else. */
    method AnalyzePerformance() returns (report: TaskPerformanceReport)
      ensures report == TaskPerformanceReport(|executionHistory|, 0.0, 0)
    {
      report := TaskPerformanceReport(|executionHistory|, 0.0, 0);
    }
  }

  /** Two tasks due at the same time are taken in the order they were scheduled, and a task due
    * earlier goes before both. */
  method SameTimeScenario(a: AutomatedTask, b: AutomatedTask, c: AutomatedTask) returns (order: seq<AutomatedTask>,
                                                                                          next: Option<AutomatedTask>)
    requires a.nextRun == b.nextRun && c.nextRun < a.nextRun
    ensures order == [c, a, b] && next == Some(c)
  {
    var m := new TaskManager();
    m.ScheduleTask(a);
    m.ScheduleTask(b);
    m.ScheduleTask(c);
    order := m.tasks;
    next := m.GetNextTask();
  }
}
