/**
 * The `Task` record of the app, its `Priority` enumeration, the calendar
 * dates it carries, and the three list operations the task list performs:
 * find the first task with an id, replace it, and remove every task with an id.
 */
module Tasks {
  import opened Wrappers

  /** `Task.Priority`; the same three values also serve as the time-of-day preference. */
  datatype Priority = Low | Medium | High {

    /** The enum's raw value, which is also what `Codable` stores. */
    function RawValue(): (r: string)
      ensures FromRawValue(r) == Some(this)
    {
      match this
      case Low => "Low"
      case Medium => "Medium"
      case High => "High"
    }

    /** The coloured dot shown beside the selected priority: one emoji. */
    function Emoji(): (r: string)
      ensures |r| == 1
    {
      match this
      case Low => "🟢"
      case Medium => "🟡"
      case High => "🔴"
    }

    /** The moon shown on the time-of-day selector. */
    function DisplayEmoji(): (r: string)
      ensures |r| == 1
    {
      match this
      case Low => "🌑"
      case Medium => "🌓"
      case High => "🌕"
    }

    /** The time-of-day label: a capitalised word. */
    function TimeDescription(): (r: string)
      ensures |r| > 0 && 'A' <= r[0] <= 'Z'
    {
      match this
      case Low => "Night"
      case Medium => "Afternoon"
      case High => "Morning"
    }

    /** The position in `allCases`, which lists the cases in declaration order. */
    function Index(): (n: nat)
      ensures n < |AllCases| && AllCases[n] == this
    {
      match this
      case Low => 0
      case Medium => 1
      case High => 2
    }

    /** The priority the priority button moves to: the next case of `allCases`, wrapping from the last to the first. */
    function Next(): (r: Priority)
      ensures r != this
      ensures r.Index() == (Index() + 1) % |AllCases|
    {
      match this
      case Low => Medium
      case Medium => High
      case High => Low
    }
  }

  /** `Task.Priority.allCases`: the cases in declaration order. */
  const AllCases: seq<Priority> := [Low, Medium, High]

  /** `Task.Priority(rawValue:)`, the failable initializer `Codable` decodes with. */
  function FromRawValue(s: string): (r: Option<Priority>)
    ensures r.Some? ==> s in {"Low", "Medium", "High"}
  {
    if s == "Low" then Some(Low)
    else if s == "Medium" then Some(Medium)
    else if s == "High" then Some(High)
    else None
  }

  /** Decoding a raw value gives back the priority exactly when the text is that priority's raw value. */
  lemma RawValueRoundTrip(p: Priority, s: string)
    ensures FromRawValue(s) == Some(p) <==> s == p.RawValue()
  {
  }

  /** Each label tells the three priorities apart. */
  lemma LabelsDistinct(p: Priority, q: Priority)
    requires p != q
    ensures p.RawValue() != q.RawValue()
    ensures p.Emoji() != q.Emoji()
    ensures p.DisplayEmoji() != q.DisplayEmoji()
    ensures p.TimeDescription() != q.TimeDescription()
  {
  }

  /** Three presses of the priority button come back to the start, and no fewer do. */
  lemma NextCycle(p: Priority)
    ensures p.Next().Next().Next() == p
    ensures p.Next().Next() != p
  {
  }

  /** `Next` is a bijection on the three priorities. */
  lemma NextInjective(p: Priority, q: Priority)
    requires p.Next() == q.Next()
    ensures p == q
  {
  }

  // --------------------------------------------------------------- dates

  /** A point in time, broken down as `Calendar.current` would break it down. */
  datatype DateTime = DateTime(day: int, hour: int, minute: int, second: int) {

    predicate Valid() {
      0 <= hour < 24 && 0 <= minute < 60 && 0 <= second < 60
    }

    /** Seconds since the start of day 0. */
    function Seconds(): int {
      day * 86400 + hour * 3600 + minute * 60 + second
    }
  }

  /** `calendar.date(bySettingHour: h, minute: 0, second: 0, of: d)` */
  function SettingHour(d: DateTime, h: int): (r: DateTime)
    requires 0 <= h < 24
    ensures r.Valid() && r.day == d.day && r.hour == h && r.minute == 0 && r.second == 0
  {
    DateTime(d.day, h, 0, 0)
  }

  /** `calendar.date(byAdding: .hour, value: 1, to: d)` */
  function AddingHour(d: DateTime): (r: DateTime)
    requires d.Valid()
    ensures r.Valid()
    ensures r.Seconds() == d.Seconds() + 3600
    ensures r.minute == d.minute && r.second == d.second
  {
    if d.hour == 23 then d.(day := d.day + 1, hour := 0) else d.(hour := d.hour + 1)
  }

  // --------------------------------------------------------------- tasks

  /** The value `UUID()` gives a new task; the model only compares ids. */
  type TaskId = nat

  datatype Task = Task(
    id: TaskId,
    title: string,
    priority: Priority,
    deadline: DateTime,
    isCompleted: bool,
    scheduledTime: Option<DateTime>,
    aiSuggestion: Option<string>)
  {
    /** What the row's check button hands to the list: the same task with its completion flipped. */
    function ToggledCompletion(): (t: Task)
      ensures t.isCompleted == !isCompleted
      ensures t.(isCompleted := isCompleted) == this
    {
      this.(isCompleted := !isCompleted)
    }
  }

  /** `Task(title:priority:deadline:)`: not completed, nothing scheduled, no suggestion yet. */
  function NewTask(id: TaskId, title: string, priority: Priority, deadline: DateTime): (t: Task)
    ensures t.id == id && t.title == title && t.priority == priority && t.deadline == deadline
    ensures !t.isCompleted && t.scheduledTime.None? && t.aiSuggestion.None?
  {
    Task(id, title, priority, deadline, false, None, None)
  }

  predicate HasId(s: seq<Task>, id: TaskId) {
    exists j :: 0 <= j < |s| && s[j].id == id
  }

  /** No two tasks of the list share an id. */
  predicate UniqueIds(s: seq<Task>) {
    forall i, j :: 0 <= i < j < |s| ==> s[i].id != s[j].id
  }

  /** `tasks.firstIndex(where: { $0.id == id })` */
  function FirstIndex(s: seq<Task>, id: TaskId): (r: Option<nat>)
    ensures r.Some? ==> r.value < |s| && s[r.value].id == id
    ensures r.Some? ==> forall j :: 0 <= j < r.value ==> s[j].id != id
    ensures r.None? <==> !HasId(s, id)
  {
    if s == [] then None
    else if s[0].id == id then Some(0)
    else match FirstIndex(s[1..], id)
      case Some(k) => Some(k + 1)
      case None => None
  }

  /** The list after `if let index = firstIndex(...) { tasks[index] = t }`. */
  function ReplaceFirst(s: seq<Task>, t: Task): (r: seq<Task>)
    ensures |r| == |s|
    ensures forall j :: 0 <= j < |s| ==> r[j] == s[j] || (r[j] == t && s[j].id == t.id)
    ensures t in r <==> HasId(s, t.id)
  {
    match FirstIndex(s, t.id)
    case Some(i) => s[i := t]
    case None => s
  }

  /**
   * Updating puts t at the first position holding its id, and only there:
   * the length and every other element stay as they were.
   */
  lemma ReplaceFirstAt(s: seq<Task>, t: Task, i: nat)
    requires i < |s| && s[i].id == t.id
    requires forall j :: 0 <= j < i ==> s[j].id != t.id
    ensures |ReplaceFirst(s, t)| == |s|
    ensures ReplaceFirst(s, t)[i] == t
    ensures forall j :: 0 <= j < |s| && j != i ==> ReplaceFirst(s, t)[j] == s[j]
  {
    var r := FirstIndex(s, t.id);
    assert r.Some?;
    assert !(r.value < i) && !(i < r.value);
  }

  /** Updating a task whose id is not in the list leaves the list as it is. */
  lemma ReplaceFirstAbsent(s: seq<Task>, t: Task)
    requires !HasId(s, t.id)
    ensures ReplaceFirst(s, t) == s
  {
  }

  /** Updating twice with the same task is updating once. */
  lemma ReplaceFirstIdempotent(s: seq<Task>, t: Task)
    ensures ReplaceFirst(ReplaceFirst(s, t), t) == ReplaceFirst(s, t)
  {
    match FirstIndex(s, t.id)
    case None =>
    case Some(i) =>
      ReplaceFirstAt(s, t, i);
      var s' := ReplaceFirst(s, t);
      ReplaceFirstAt(s', t, i);
      assert ReplaceFirst(s', t) == s';
  }

  /** Replacing a task by one with the same id keeps the ids distinct. */
  lemma ReplaceFirstKeepsUniqueIds(s: seq<Task>, t: Task)
    requires UniqueIds(s)
    ensures UniqueIds(ReplaceFirst(s, t))
  {
    match FirstIndex(s, t.id)
    case None =>
    case Some(i) =>
      ReplaceFirstAt(s, t, i);
  }

  /** `tasks.removeAll { $0.id == id }` */
  function RemoveAll(s: seq<Task>, id: TaskId): (r: seq<Task>)
    ensures forall t :: t in r <==> t in s && t.id != id
    ensures |r| <= |s|
  {
    if s == [] then []
    else if s[0].id == id then RemoveAll(s[1..], id)
    else [s[0]] + RemoveAll(s[1..], id)
  }

  /**
   * Removal keeps order: removing from a concatenation is removing from each
   * part and concatenating the results.
   */
  lemma {:induction false} RemoveAllConcat(a: seq<Task>, b: seq<Task>, id: TaskId)
    ensures RemoveAll(a + b, id) == RemoveAll(a, id) + RemoveAll(b, id)
  {
    if a == [] {
      assert a + b == b;
    } else {
      assert (a + b)[1..] == a[1..] + b;
      RemoveAllConcat(a[1..], b, id);
    }
  }

  /** On a single task removal drops it exactly when its id matches. */
  lemma RemoveAllSingleton(t: Task, id: TaskId)
    ensures RemoveAll([t], id) == if t.id == id then [] else [t]
  {
    assert [t][1..] == [];
  }

  /** A list without the id is left unchanged; this also makes removal idempotent. */
  lemma {:induction false} RemoveAllAbsent(s: seq<Task>, id: TaskId)
    requires !HasId(s, id)
    ensures RemoveAll(s, id) == s
  {
    if s != [] {
      assert !HasId(s[1..], id) by {
        forall j | 0 <= j < |s[1..]| ensures s[1..][j].id != id {
          assert s[1..][j] == s[j + 1];
        }
      }
      RemoveAllAbsent(s[1..], id);
    }
  }

  /** After removal no task with the id is left. */
  lemma RemoveAllRemoves(s: seq<Task>, id: TaskId)
    ensures !HasId(RemoveAll(s, id), id)
  {
    var r := RemoveAll(s, id);
    forall j | 0 <= j < |r| ensures r[j].id != id {
      assert r[j] in r;
    }
  }

  /** Removing twice is removing once. */
  lemma RemoveAllIdempotent(s: seq<Task>, id: TaskId)
    ensures RemoveAll(RemoveAll(s, id), id) == RemoveAll(s, id)
  {
    RemoveAllRemoves(s, id);
    RemoveAllAbsent(RemoveAll(s, id), id);
  }

  /** Removal keeps the ids distinct. */
  lemma {:induction false} RemoveAllKeepsUniqueIds(s: seq<Task>, id: TaskId)
    requires UniqueIds(s)
    ensures UniqueIds(RemoveAll(s, id))
  {
    if s != [] {
      assert UniqueIds(s[1..]) by {
        forall i, j | 0 <= i < j < |s[1..]| ensures s[1..][i].id != s[1..][j].id {
          assert s[1..][i] == s[i + 1] && s[1..][j] == s[j + 1];
        }
      }
      RemoveAllKeepsUniqueIds(s[1..], id);
      var rest := RemoveAll(s[1..], id);
      if s[0].id != id {
        forall j | 0 <= j < |rest| ensures s[0].id != rest[j].id {
          assert rest[j] in s[1..];
          var k :| 0 <= k < |s[1..]| && s[1..][k] == rest[j];
          assert s[k + 1] == rest[j];
        }
        assert RemoveAll(s, id) == [s[0]] + rest;
      }
    }
  }

  /**
   * A suggestion callback that resolves after its task was deleted finds no
   * task to update: update after delete changes nothing.
   */
  lemma UpdateAfterDeleteIsNoOp(s: seq<Task>, t: Task)
    ensures ReplaceFirst(RemoveAll(s, t.id), t) == RemoveAll(s, t.id)
  {
    RemoveAllRemoves(s, t.id);
  }
}
