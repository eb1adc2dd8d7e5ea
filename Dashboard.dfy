/**
 * The dashboard controller: one object holding the document, the id of the task being
 * edited, the task-distribution chart's dataset and the local-storage entry, with the
 * operations the user interface calls. Rendering, notifications and animation are left to
 * the presentation layer; each operation here changes the state the way the controller does.
 */
module DashboardApp {
  import opened Wrappers
  import opened Text
  import opened Tasks
  import opened Document

  /** What a save of the task form reports to the user. */
  datatype SaveOutcome =
    | BlankTitle    // "Please enter a task title"; nothing changes
    | TaskUpdated   // "Task updated successfully"
    | NoSuchTask    // the edited id is gone: no message, the list is left as it was
    | TaskCreated   // "Task created successfully"

  /** JavaScript truthiness of the edited id: `null` and `0` are falsy, so both mean "create". */
  predicate IsEditing(editing: Option<int>): (b: bool)
    ensures !b <==> editing == None || editing == Some(0)
  {
    editing.Some? && editing.value != 0
  }

  /** The greeting for an hour of the day (0 to 23). */
  function Greeting(hour: int): (g: string)
    ensures g == "Good morning" <==> hour < 12
    ensures g == "Good afternoon" <==> 12 <= hour < 17
    ensures g == "Good evening" <==> 17 <= hour
  {
    if hour < 12 then "Good morning"
    else if hour < 17 then "Good afternoon"
    else "Good evening"
  }

  /** A chart dataset, if there is a chart, equal to the status counts of `tasks`. */
  predicate ChartShowsCounts(chart: Option<seq<int>>, tasks: seq<Task>) {
    chart.Some? ==> chart.value == Distribution(tasks)
  }

  class Dashboard {
    var data: Doc
    /** The id of the task the form edits; `None` when the form creates a task. */
    var editingTaskId: Option<int>
    /** The dataset of the task-distribution pie chart, when the page has that chart. */
    var taskChart: Option<seq<int>>
    /** The `dashboardData` entry of local storage. */
    var stored: Option<Doc>
    /** Whether writing to local storage succeeds; a failed write is logged and ignored. */
    const storageWritable: bool

    /** The chart, when there is one, shows the status counts of the current tasks. */
    predicate ChartTracksTasks()
      reads this
    {
      ChartShowsCounts(taskChart, data.tasks)
    }

    /** Storage holds the document, or still holds `before` when writing fails. */
    predicate Persisted(before: Option<Doc>)
      reads this
    {
      stored == if storageWritable then Some(data) else before
    }

    /**
     * Start-up: the document comes from storage when present, else it is the default. The
     * chart, if the page has it, is drawn from the document's stored series, not from the tasks.
     */
    constructor (stored: Option<Doc>, storageWritable: bool, hasChartCanvas: bool)
      ensures data == Load(stored) && this.stored == stored && this.storageWritable == storageWritable
      ensures editingTaskId == None
      ensures taskChart == if hasChartCanvas then Some(data.chartData.taskDistribution.data) else None
    {
      hide DefaultDocument;
      var doc := Load(stored);
      data := doc;
      editingTaskId := None;
      this.stored := stored;
      this.storageWritable := storageWritable;
      taskChart := if hasChartCanvas then Some(doc.chartData.taskDistribution.data) else None;
    }

    method SaveData()
      modifies this`stored
      ensures Persisted(old(stored))
    {
      if storageWritable {
        stored := Some(data);
      }
    }

    /** Redraws the chart, when it exists, with the current counts; the document's series is untouched. */
    method UpdateTaskDistributionChart()
      modifies this`taskChart
      ensures taskChart == if old(taskChart).Some? then Some(Distribution(data.tasks)) else None
      ensures ChartTracksTasks()
    {
      if taskChart.Some? {
        taskChart := Some(Distribution(data.tasks));
      }
    }

    /** Opens the form on a task (`Some(id)`) or on a new one (`None`). */
    method OpenTaskModal(taskId: Option<int>)
      modifies this`editingTaskId
      ensures editingTaskId == taskId
    {
      editingTaskId := taskId;
    }

    method CloseTaskModal()
      modifies this`editingTaskId
      ensures editingTaskId == None
    {
      editingTaskId := None;
    }

    /**
     * Submits the task form. A blank title changes nothing. Otherwise, when an id is being
     * edited, the first task with that id takes the form's fields (none, if the id is gone);
     * when none is, a pending task with id `now` is appended. Then the chart is redrawn, the
     * form is closed and the document is saved.
     */
    method SaveTask(form: TaskForm, now: int) returns (outcome: SaveOutcome)
      modifies this`data, this`editingTaskId, this`taskChart, this`stored
      ensures outcome == BlankTitle <==> IsBlank(form.title)
      ensures outcome == BlankTitle ==> unchanged(this)
      ensures outcome == TaskCreated <==> !IsBlank(form.title) && !IsEditing(old(editingTaskId))
      ensures outcome == TaskCreated ==> data.tasks == old(data.tasks) + [NewTask(now, form)]
      ensures outcome == TaskUpdated <==>
        !IsBlank(form.title) && IsEditing(old(editingTaskId)) && HasId(old(data.tasks), old(editingTaskId).value)
      ensures outcome == TaskUpdated || outcome == NoSuchTask ==>
        data.tasks == Updated(old(data.tasks), old(editingTaskId).value, form)
      ensures outcome != BlankTitle ==>
        data == old(data).(tasks := data.tasks) && editingTaskId == None &&
        taskChart == (if old(taskChart).Some? then Some(Distribution(data.tasks)) else None) &&
        ChartTracksTasks() && Persisted(old(stored))
      ensures UniqueIds(old(data.tasks)) && !HasId(old(data.tasks), now) ==> UniqueIds(data.tasks)
    {
      hide IsBlank, Distribution, ChartShowsCounts;
      if IsBlank(form.title) {
        return BlankTitle;
      }
      if IsEditing(editingTaskId) {
        var taskIndex := FindIndex(data.tasks, editingTaskId.value);
        if taskIndex != -1 {
          var task := data.tasks[taskIndex];
          data := data.(tasks := data.tasks[taskIndex := task.(title := form.title,
              description := form.description, priority := form.priority,
              dueDate := form.dueDate, category := form.category)]);
          outcome := TaskUpdated;
        } else {
          outcome := NoSuchTask;
        }
        assert data.tasks == Updated(old(data.tasks), editingTaskId.value, form);
        if UniqueIds(old(data.tasks)) {
          UpdateKeepsIdsUnique(old(data.tasks), editingTaskId.value, form);
        }
      } else {
        data := data.(tasks := data.tasks + [NewTask(now, form)]);
        outcome := TaskCreated;
        if UniqueIds(old(data.tasks)) && !HasId(old(data.tasks), now) {
          CreateKeepsIdsUnique(old(data.tasks), now, form);
        }
      }
      UpdateTaskDistributionChart();
      CloseTaskModal();
      SaveData();
    }

    /**
     * Flips the status of the first task with id `taskId` ("completed" to "pending", anything
     * else to "completed"), redraws the chart and saves. An unknown id changes nothing.
     */
    method ToggleTaskStatus(taskId: int)
      modifies this`data, this`taskChart, this`stored
      ensures !HasId(old(data.tasks), taskId) ==> unchanged(this)
      ensures HasId(old(data.tasks), taskId) ==>
        data == old(data).(tasks := Toggled(old(data.tasks), taskId)) &&
        taskChart == (if old(taskChart).Some? then Some(Distribution(data.tasks)) else None) &&
        ChartTracksTasks() && Persisted(old(stored))
      ensures UniqueIds(old(data.tasks)) ==> UniqueIds(data.tasks)
    {
      var i := FindIndex(data.tasks, taskId);
      if i == -1 {
        return;
      }
      var task := data.tasks[i];
      data := data.(tasks := data.tasks[i := task.(status := FlipStatus(task.status))]);
      assert data.tasks == Toggled(old(data.tasks), taskId);
      if UniqueIds(old(data.tasks)) {
        ToggleKeepsIdsUnique(old(data.tasks), taskId);
      }
      UpdateTaskDistributionChart();
      SaveData();
    }

    /**
     * Removes every task with id `taskId` once the user has confirmed, redraws the chart and
     * saves. Without confirmation nothing changes.
     */
    method DeleteTask(taskId: int, confirmed: bool)
      modifies this`data, this`taskChart, this`stored
      ensures !confirmed ==> unchanged(this)
      ensures confirmed ==>
        data == old(data).(tasks := Removed(old(data.tasks), taskId)) &&
        taskChart == (if old(taskChart).Some? then Some(Distribution(data.tasks)) else None) &&
        ChartTracksTasks() && Persisted(old(stored))
      ensures UniqueIds(old(data.tasks)) ==> UniqueIds(data.tasks)
    {
      if confirmed {
        data := data.(tasks := Removed(data.tasks, taskId));
        if UniqueIds(old(data.tasks)) {
          RemoveKeepsIdsUnique(old(data.tasks), taskId);
        }
        UpdateTaskDistributionChart();
        SaveData();
      }
    }

    /** Switches the theme preference ("light" to "dark", anything else to "light") and saves. */
    method ToggleTheme()
      modifies this`data, this`stored
      ensures data == old(data).(preferences := old(data.preferences).(theme := FlipTheme(old(data.preferences.theme))))
      ensures Persisted(old(stored))
      ensures old(ChartTracksTasks()) ==> ChartTracksTasks()
    {
      var newTheme := FlipTheme(data.preferences.theme);
      data := data.(preferences := data.preferences.(theme := newTheme));
      SaveData();
    }

    /**
     * Submits the profile form. A blank name or email changes nothing; otherwise name, email,
     * role and location are replaced and the document is saved.
     */
    method SaveProfile(name: string, email: string, role: string, location: string) returns (ok: bool)
      modifies this`data, this`stored
      ensures ok <==> !AllWhitespace(name) && !AllWhitespace(email)
      ensures !ok ==> unchanged(this)
      ensures ok ==>
        Some(data.user) == UpdatedProfile(old(data.user), name, email, role, location) &&
        data == old(data).(user := data.user) && Persisted(old(stored))
      ensures old(ChartTracksTasks()) ==> ChartTracksTasks()
    {
      hide UpdatedProfile;
      var user := UpdatedProfile(data.user, name, email, role, location);
      if user.None? {
        return false;
      }
      data := data.(user := user.value);
      SaveData();
      ok := true;
    }

    /** Replaces the avatar and saves; the rest of the profile is kept. */
    method UpdateAvatar(avatarUrl: string)
      modifies this`data, this`stored
      ensures data == old(data).(user := old(data.user).(avatar := avatarUrl))
      ensures Persisted(old(stored))
      ensures old(ChartTracksTasks()) ==> ChartTracksTasks()
    {
      data := data.(user := data.user.(avatar := avatarUrl));
      SaveData();
    }
  }
}
