/**
 * The app's one screen (`ContentView`) as an object: its `@State` fields,
 * and the actions that change them — adding a task (ask for a suggestion,
 * schedule it, append it, save), updating and deleting a task from its row,
 * cycling the priority button, and saving and loading the list.
 */
module TurtlApp {
  import opened Wrappers
  import opened Strings
  import opened Tasks
  import opened Scheduling
  import opened TurtlAI

  /** What the alert says before the suggestion it reports. */
  const AlertPrefix := "Task added! AI suggests: "

  /**
   * The task `addTask` appends: a new task with the screen's title, priority
   * and deadline, carrying whatever the suggestion service handed back.
   */
  function AddedTask(id: TaskId, title: string, priority: Priority, deadline: DateTime, response: Response): (t: Task)
    ensures t.id == id && t.title == title && t.priority == priority && t.deadline == deadline
    ensures !t.isCompleted && t.scheduledTime.None?
    ensures t.aiSuggestion == Outcome(response, priority)
    ensures t.aiSuggestion.Some? <==> !response.failed
    ensures t.aiSuggestion.Some? ==> IsTrimmed(t.aiSuggestion.value)
  {
    OutcomeIsTrimmed(response, priority);
    NewTask(id, title, priority, deadline).(aiSuggestion := Outcome(response, priority))
  }

  /** The screen's state; `savedTasks` is what `UserDefaults` holds under "SavedTasks". */
  class ContentView {
    var newTaskTitle: string
    var selectedPriority: Priority
    var selectedTimePreference: Priority
    var deadline: DateTime
    var tasks: seq<Task>
    var isLoading: bool
    var showingAlert: bool
    var alertMessage: string
    var savedTasks: Option<seq<Task>>

    /** The deadline is a real point in time. */
    predicate Valid()
      reads this
    {
      deadline.Valid()
    }

    /** The initial `@State` values; `stored` is whatever the defaults already hold. */
    constructor (now: DateTime, stored: Option<seq<Task>>)
      requires now.Valid()
      ensures Valid()
      ensures newTaskTitle == "" && selectedPriority == Medium && selectedTimePreference == Medium
      ensures deadline == now && tasks == [] && !isLoading && !showingAlert && alertMessage == ""
      ensures savedTasks == stored
    {
      newTaskTitle := "";
      selectedPriority := Medium;
      selectedTimePreference := Medium;
      deadline := now;
      tasks := [];
      isLoading := false;
      showingAlert := false;
      alertMessage := "";
      savedTasks := stored;
    }

    /** `saveTasks`: the defaults now hold the list; nothing on screen changes. */
    method SaveTasks()
      modifies this
      ensures savedTasks == Some(tasks)
      ensures tasks == old(tasks) && newTaskTitle == old(newTaskTitle) && deadline == old(deadline)
      ensures selectedPriority == old(selectedPriority) && selectedTimePreference == old(selectedTimePreference)
      ensures isLoading == old(isLoading) && showingAlert == old(showingAlert) && alertMessage == old(alertMessage)
    {
      savedTasks := Some(tasks);
    }

    /**
     * `loadTasks` (run when the screen appears): a stored list replaces the
     * one on screen; with nothing stored, or nothing decodable, the list stays.
     */
    method LoadTasks()
      modifies this
      ensures tasks == if old(savedTasks).Some? then old(savedTasks).value else old(tasks)
      ensures savedTasks == old(savedTasks) && newTaskTitle == old(newTaskTitle) && deadline == old(deadline)
      ensures selectedPriority == old(selectedPriority) && selectedTimePreference == old(selectedTimePreference)
      ensures isLoading == old(isLoading) && showingAlert == old(showingAlert) && alertMessage == old(alertMessage)
    {
      if savedTasks.Some? {
        tasks := savedTasks.value;
      }
    }

    /**
     * The row's `onUpdate`: the first task with the updated task's id is
     * replaced by it and the list is saved; with no such task nothing happens,
     * not even a save.
     */
    method UpdateTask(updated: Task)
      modifies this
      ensures tasks == ReplaceFirst(old(tasks), updated)
      ensures savedTasks == if HasId(old(tasks), updated.id) then Some(tasks) else old(savedTasks)
      ensures !HasId(old(tasks), updated.id) ==> tasks == old(tasks)
      ensures old(UniqueIds(tasks)) ==> UniqueIds(tasks)
      ensures newTaskTitle == old(newTaskTitle) && deadline == old(deadline)
      ensures selectedPriority == old(selectedPriority) && selectedTimePreference == old(selectedTimePreference)
      ensures isLoading == old(isLoading) && showingAlert == old(showingAlert) && alertMessage == old(alertMessage)
    {
      var index := FirstIndex(tasks, updated.id);
      if index.Some? {
        tasks := tasks[index.value := updated];
        SaveTasks();
      }
      if UniqueIds(old(tasks)) {
        ReplaceFirstKeepsUniqueIds(old(tasks), updated);
      }
    }

    /** The row's check button: the task comes back with its completion flipped. */
    method ToggleCompletion(task: Task)
      modifies this
      ensures tasks == ReplaceFirst(old(tasks), task.ToggledCompletion())
      ensures savedTasks == if HasId(old(tasks), task.id) then Some(tasks) else old(savedTasks)
      ensures old(UniqueIds(tasks)) ==> UniqueIds(tasks)
      ensures newTaskTitle == old(newTaskTitle) && deadline == old(deadline)
      ensures selectedPriority == old(selectedPriority) && selectedTimePreference == old(selectedTimePreference)
      ensures isLoading == old(isLoading) && showingAlert == old(showingAlert) && alertMessage == old(alertMessage)
    {
      UpdateTask(task.ToggledCompletion());
    }

    /** The row's `onDelete`: every task with that id goes, and the list is saved. */
    method DeleteTask(task: Task)
      modifies this
      ensures tasks == RemoveAll(old(tasks), task.id)
      ensures !HasId(tasks, task.id)
      ensures savedTasks == Some(tasks)
      ensures old(UniqueIds(tasks)) ==> UniqueIds(tasks)
      ensures newTaskTitle == old(newTaskTitle) && deadline == old(deadline)
      ensures selectedPriority == old(selectedPriority) && selectedTimePreference == old(selectedTimePreference)
      ensures isLoading == old(isLoading) && showingAlert == old(showingAlert) && alertMessage == old(alertMessage)
    {
      tasks := RemoveAll(tasks, task.id);
      SaveTasks();
      RemoveAllRemoves(old(tasks), task.id);
      if UniqueIds(old(tasks)) {
        RemoveAllKeepsUniqueIds(old(tasks), task.id);
      }
    }

    /** `cyclePriority`: Low to Medium, Medium to High, High to Low; nothing else changes. */
    method CyclePriority()
      modifies this
      ensures selectedPriority == old(selectedPriority).Next()
      ensures tasks == old(tasks) && savedTasks == old(savedTasks) && newTaskTitle == old(newTaskTitle)
      ensures deadline == old(deadline) && selectedTimePreference == old(selectedTimePreference)
      ensures isLoading == old(isLoading) && showingAlert == old(showingAlert) && alertMessage == old(alertMessage)
    {
      match selectedPriority {
        case Low => selectedPriority := Medium;
        case Medium => selectedPriority := High;
        case High => selectedPriority := Low;
      }
    }

    /**
     * The completion handler `addTask` passes to the service: the task gets
     * the suggestion, is scheduled (the calendar grant is `calendarGranted`),
     * appended and saved; the title is cleared, loading ends, and a
     * suggestion, if any, is shown in the alert.
     */
    method OnSuggestion(newTask: Task, suggestion: Option<string>, calendarGranted: bool)
      returns (event: Option<CalendarEvent>)
      requires newTask.deadline.Valid()
      modifies this
      ensures var t := newTask.(aiSuggestion := suggestion);
        && event == (if calendarGranted then Some(EventFor(t, selectedTimePreference)) else None)
        && tasks == old(tasks) + [t]
      ensures savedTasks == Some(tasks)
      ensures newTaskTitle == "" && !isLoading
      ensures suggestion.Some? ==> showingAlert && alertMessage == AlertPrefix + suggestion.value
      ensures suggestion.None? ==> showingAlert == old(showingAlert) && alertMessage == old(alertMessage)
      ensures selectedPriority == old(selectedPriority) && selectedTimePreference == old(selectedTimePreference)
      ensures deadline == old(deadline)
    {
      var taskWithSuggestion := newTask.(aiSuggestion := suggestion);
      event := ScheduleTaskInCalendar(taskWithSuggestion, selectedTimePreference, calendarGranted);
      tasks := tasks + [taskWithSuggestion];
      SaveTasks();
      newTaskTitle := "";
      isLoading := false;
      if suggestion.Some? {
        alertMessage := AlertPrefix + suggestion.value;
        showingAlert := true;
      }
    }

    /**
     * `addTask`. An empty title does nothing. Otherwise the service is asked
     * (its network answer is `response`, the rendered deadline
     * `deadlineString`) and its one answer runs `OnSuggestion`. `id` stands
     * for the `UUID()` the new task gets.
     */
    method AddTask(id: TaskId, deadlineString: string, response: Response, calendarGranted: bool)
      returns (request: Option<Request>, event: Option<CalendarEvent>)
      requires Valid()
      modifies this
      ensures Valid()
      ensures old(newTaskTitle) == "" ==>
        request.None? && event.None? && tasks == old(tasks) && savedTasks == old(savedTasks)
        && newTaskTitle == old(newTaskTitle) && isLoading == old(isLoading)
        && showingAlert == old(showingAlert) && alertMessage == old(alertMessage)
      ensures old(newTaskTitle) != "" ==>
        var t := AddedTask(id, old(newTaskTitle), old(selectedPriority), old(deadline), response);
        && request == Some(Request(Endpoint, "POST", Some(PayloadFor(old(newTaskTitle), old(selectedPriority), deadlineString))))
        && event == (if calendarGranted then Some(EventFor(t, old(selectedTimePreference))) else None)
        && tasks == old(tasks) + [t]
        && savedTasks == Some(tasks)
        && newTaskTitle == "" && !isLoading
        && (t.aiSuggestion.Some? ==> showingAlert && alertMessage == AlertPrefix + t.aiSuggestion.value)
        && (t.aiSuggestion.None? ==> showingAlert == old(showingAlert) && alertMessage == old(alertMessage))
      ensures old(UniqueIds(tasks)) && !old(HasId(tasks, id)) ==> UniqueIds(tasks)
      ensures selectedPriority == old(selectedPriority) && selectedTimePreference == old(selectedTimePreference)
      ensures deadline == old(deadline)
    {
      if newTaskTitle == "" {
        request := None;
        event := None;
        return;
      }
      isLoading := true;
      var newTask := NewTask(id, newTaskTitle, selectedPriority, deadline);
      var req, completions := SuggestTime(newTaskTitle, selectedPriority, deadlineString, response);
      request := Some(req);
      ghost var t := AddedTask(id, newTaskTitle, selectedPriority, deadline, response);
      assert newTask.(aiSuggestion := completions[0]) == t;
      event := OnSuggestion(newTask, completions[0], calendarGranted);
      if UniqueIds(old(tasks)) && !HasId(old(tasks), id) {
        AppendFreshKeepsUniqueIds(old(tasks), t);
      }
    }
  }

  // ---------------------------------------------------------- properties

  /** Appending a task whose id is new keeps the ids distinct. */
  lemma AppendFreshKeepsUniqueIds(s: seq<Task>, t: Task)
    requires UniqueIds(s) && !HasId(s, t.id)
    ensures UniqueIds(s + [t])
  {
    forall i, j | 0 <= i < j < |s + [t]| ensures (s + [t])[i].id != (s + [t])[j].id {
      if j == |s| {
        assert (s + [t])[i] == s[i];
      } else {
        assert (s + [t])[i] == s[i] && (s + [t])[j] == s[j];
      }
    }
  }

  /** Deleting a task just added, under a new id, gives back the list it was added to. */
  lemma AddThenDeleteRestores(s: seq<Task>, t: Task)
    requires !HasId(s, t.id)
    ensures RemoveAll(s + [t], t.id) == s
  {
    RemoveAllConcat(s, [t], t.id);
    RemoveAllSingleton(t, t.id);
    RemoveAllAbsent(s, t.id);
  }

  /** Checking a task off and then on again gives back the list, in a list with distinct ids. */
  lemma ToggleTwiceRestores(s: seq<Task>, i: nat)
    requires UniqueIds(s) && i < |s|
    ensures ReplaceFirst(ReplaceFirst(s, s[i].ToggledCompletion()), s[i]) == s
  {
    var t := s[i].ToggledCompletion();
    ReplaceFirstAt(s, t, i);
    var s' := ReplaceFirst(s, t);
    ReplaceFirstAt(s', s[i], i);
    assert ReplaceFirst(s', s[i]) == s;
  }

  /**
   * The suggestion the new task carries, and that the alert of `AddTask`
   * reports, in each of the service's three cases: nil after a transport
   * error, the trimmed content of a well-formed reply, and the priority's
   * fallback text for anything else.
   */
  lemma SuggestionFollowsService(id: TaskId, title: string, priority: Priority, deadline: DateTime, response: Response)
    ensures var t := AddedTask(id, title, priority, deadline, response);
      && (response.failed ==> t.aiSuggestion == None)
      && (!response.failed && response.data.Some? && response.data.value.Parsed?
          && Content(response.data.value.json).Some? ==>
            t.aiSuggestion == Some(Trim(Content(response.data.value.json).value)))
      && (!response.failed
          && !(response.data.Some? && response.data.value.Parsed? && Content(response.data.value.json).Some?) ==>
            t.aiSuggestion == Some(DefaultSuggestion(priority)))
  {
    if !response.failed {
      if response.data.Some? && response.data.value.Parsed? && Content(response.data.value.json).Some? {
        var json := response.data.value.json;
        ContentGivesTrimmed(json, priority, Content(json).value);
      } else {
        MalformedGivesDefault(response, priority);
      }
    }
  }
}
