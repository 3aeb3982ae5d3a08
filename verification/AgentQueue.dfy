/**
 The agent task queue (guardian/agent_task_queue.py, scripts/agent_task_worker.py): producers and workers
 share a Redis list, a status table and a result table, and their steps interleave.
 */
module AgentQueue {
  import opened Wrappers

  datatype Task = Task(id: string, agent: string, prompt: string, thread: string)

  datatype Status = Queued | Running | Completed | Failed

  /** An entry of the result table. */
  datatype Answer = Answer(text: string, thread: string, agent: string)

  /** `queue` lists the oldest task first: tasks are pushed at one end and popped at the other. */
  datatype Tables = Tables(queue: seq<Task>, status: map<string, Status>, results: map<string, Answer>)

  /**
   Where a worker is in its loop: waiting; holding a task before it is marked running; running it; with its
   result stored; in the exception handler; or stopped, possibly while holding a task.
   */
  datatype Worker =
    | Idle
    | Got(task: Task)
    | Working(task: Task)
    | Answered(task: Task)
    | Broken(task: Task)
    | Stopped(held: Option<Task>)

  /** A producer is between calls, or has pushed a task and not yet written its status. */
  datatype Producer = Ready | Pushed(id: string)

  /** The shared tables, every process, and the history: tasks pushed and taken, ids finished and failed. */
  datatype System = System(
    tables: Tables,
    workers: seq<Worker>,
    producers: seq<Producer>,
    issued: seq<Task>,
    taken: seq<Task>,
    finished: seq<string>,
    failed: seq<string>
  )

  /** `kept` is false for a status write that Redis refused: the refusal is swallowed. */
  datatype Step =
    | Push(p: nat, task: Task)
    | MarkQueued(p: nat, kept: bool)
    | Take(w: nat)
    | MarkRunning(w: nat, kept: bool)
    | Store(w: nat, text: string)
    | Raise(w: nat, text: string, landed: bool)  // storing raised; `landed` tells whether it took effect
    | MarkCompleted(w: nat, kept: bool)
    | MarkFailed(w: nat, kept: bool)
    | Stop(w: nat)
    | Expire(id: string)

  function Ids(tasks: seq<Task>): (r: seq<string>)
    ensures |r| == |tasks|
    ensures forall i :: 0 <= i < |r| ==> r[i] == tasks[i].id
  {
    if tasks == [] then [] else [tasks[0].id] + Ids(tasks[1..])
  }

  function TaskOf(worker: Worker): Option<Task> {
    match worker
    case Idle => None
    case Stopped(held) => held
    case _ => Some(worker.task)
  }

  function WithStatus(t: Tables, id: string, status: Status, kept: bool): Tables {
    if kept then t.(status := t.status[id := status]) else t
  }

  function WithAnswer(t: Tables, task: Task, text: string): Tables {
    t.(results := t.results[task.id := Answer(text, task.thread, task.agent)])
  }

  /** Task ids are fresh: they are random UUIDs. */
  predicate Enabled(s: System, step: Step) {
    match step
    case Push(p, task) => p < |s.producers| && s.producers[p].Ready? && task.id !in Ids(s.issued)
    case MarkQueued(p, _) => p < |s.producers| && s.producers[p].Pushed?
    case Take(w) => w < |s.workers| && s.workers[w].Idle? && s.tables.queue != []
    case MarkRunning(w, _) => w < |s.workers| && s.workers[w].Got?
    case Store(w, _) => w < |s.workers| && s.workers[w].Working?
    case Raise(w, _, _) => w < |s.workers| && s.workers[w].Working?
    case MarkCompleted(w, _) => w < |s.workers| && s.workers[w].Answered?
    case MarkFailed(w, _) => w < |s.workers| && s.workers[w].Broken?
    case Stop(w) => w < |s.workers| && !s.workers[w].Stopped?
    case Expire(_) => true
  }

  function Next(s: System, step: Step): System
    requires Enabled(s, step)
  {
    match step
    case Push(p, task) =>
      s.(tables := s.tables.(queue := s.tables.queue + [task]), producers := s.producers[p := Pushed(task.id)],
         issued := s.issued + [task])
    case MarkQueued(p, kept) =>
      s.(tables := WithStatus(s.tables, s.producers[p].id, Queued, kept), producers := s.producers[p := Ready])
    case Take(w) =>
      var task := s.tables.queue[0];
      s.(tables := s.tables.(queue := s.tables.queue[1..]), workers := s.workers[w := Got(task)],
         taken := s.taken + [task])
    case MarkRunning(w, kept) =>
      var task := s.workers[w].task;
      s.(tables := WithStatus(s.tables, task.id, Running, kept), workers := s.workers[w := Working(task)])
    case Store(w, text) =>
      var task := s.workers[w].task;
      s.(tables := WithAnswer(s.tables, task, text), workers := s.workers[w := Answered(task)])
    case Raise(w, text, landed) =>
      var task := s.workers[w].task;
      s.(tables := if landed then WithAnswer(s.tables, task, text) else s.tables,
         workers := s.workers[w := Broken(task)])
    case MarkCompleted(w, kept) =>
      var task := s.workers[w].task;
      s.(tables := WithStatus(s.tables, task.id, Completed, kept), workers := s.workers[w := Idle],
         finished := s.finished + [task.id])
    case MarkFailed(w, kept) =>
      var task := s.workers[w].task;
      s.(tables := WithStatus(s.tables, task.id, Failed, kept), workers := s.workers[w := Idle],
         failed := s.failed + [task.id])
    case Stop(w) =>
      s.(workers := s.workers[w := Stopped(TaskOf(s.workers[w]))])
    case Expire(id) =>
      s.(tables := s.tables.(status := s.tables.status - {id}))
  }

  ghost predicate Runs(s: System, steps: seq<Step>)
    decreases |steps|
  {
    steps == [] || (Enabled(s, steps[0]) && Runs(Next(s, steps[0]), steps[1..]))
  }

  ghost function After(s: System, steps: seq<Step>): System
    requires Runs(s, steps)
    decreases |steps|
  {
    if steps == [] then s else After(Next(s, steps[0]), steps[1..])
  }

  /** The tables after each step. */
  ghost function States(s: System, steps: seq<Step>): seq<Tables>
    requires Runs(s, steps)
    decreases |steps|
  {
    if steps == [] then [] else [Next(s, steps[0]).tables] + States(Next(s, steps[0]), steps[1..])
  }

  ghost predicate Initial(s: System) {
    && s.tables == Tables([], map[], map[])
    && (forall w :: 0 <= w < |s.workers| ==> s.workers[w] == Idle)
    && (forall p :: 0 <= p < |s.producers| ==> s.producers[p] == Ready)
    && s.issued == [] && s.taken == [] && s.finished == [] && s.failed == []
  }

  // ---------------------------------------------------------------- the code of one producer and one worker

  /** Redis as the code uses it. */
  class Redis {
    var queue: seq<Task>
    var status: map<string, Status>
    var results: map<string, Answer>

    /** The tables after each command, as another process can find them. */
    ghost var seen: seq<Tables>

    ghost function View(): Tables
      reads this
    {
      Tables(queue, status, results)
    }

    constructor ()
      ensures View() == Tables([], map[], map[]) && seen == []
    {
      queue, status, results := [], map[], map[];
      seen := [];
    }

    /** `_set_task_status`: an error from Redis is logged and swallowed. */
    method SetTaskStatus(id: string, value: Status, kept: bool)
      modifies this
      ensures View() == WithStatus(old(View()), id, value, kept) && seen == old(seen) + [View()]
    {
      if kept {
        status := status[id := value];
      }
      seen := seen + [View()];
    }

    /** `enqueue_agent_task`: others can see the pushed task before its status is written. */
    method EnqueueAgentTask(task: Task, kept: bool)
      modifies this
      ensures View() == Enqueued(old(View()), task, kept)
      ensures queue == old(queue) + [task] && results == old(results)
      ensures status == if kept then old(status)[task.id := Queued] else old(status)
      ensures seen == old(seen) + EnqueueStates(old(View()), task, kept)
    {
      queue := queue + [task];
      seen := seen + [View()];
      SetTaskStatus(task.id, Queued, kept);
    }

    /** `dequeue_agent_task`; `None` where the call would go on waiting. */
    method DequeueAgentTask() returns (task: Option<Task>)
      modifies this
      ensures task.None? <==> old(queue) == []
      ensures task.None? ==> View() == old(View()) && seen == old(seen)
      ensures task.Some? ==> task.value == old(queue)[0] && View() == old(View()).(queue := old(queue)[1..])
      ensures task.Some? ==> seen == old(seen) + [View()]
    {
      if queue == [] {
        return None;
      }
      task := Some(queue[0]);
      queue := queue[1..];
      seen := seen + [View()];
    }

    /** One turn of the worker's loop on a waiting task. */
    method WorkOnce(text: string, ending: Ending, keptRunning: bool, keptLast: bool)
      requires queue != []
      modifies this
      ensures View() == Worked(old(View()), text, ending, keptRunning, keptLast)
      ensures seen == old(seen) + WorkStates(old(View()), text, ending, keptRunning, keptLast)
      ensures queue == old(queue)[1..] && LeavesAnswer(old(View()), View(), text, ending)
      ensures LeavesStatus(old(View()), View(), ending, keptRunning, keptLast)
    {
      var next := DequeueAgentTask();
      var task := next.value;
      SetTaskStatus(task.id, Running, keptRunning);
      if ending != RaisesBefore {
        results := results[task.id := Answer(text, task.thread, task.agent)];
      }
      seen := seen + [View()];
      SetTaskStatus(task.id, if ending == Answers then Completed else Failed, keptLast);
      WorkedLeaves(old(View()), text, ending, keptRunning, keptLast);
    }
  }

  /** How storing the result ends: well, with an error after it took effect, or with an error before. */
  datatype Ending = Answers | RaisesAfter | RaisesBefore

  function Enqueued(t: Tables, task: Task, kept: bool): Tables {
    WithStatus(t.(queue := t.queue + [task]), task.id, Queued, kept)
  }

  /** The tables after each command of the producer's call: the push first. */
  ghost function EnqueueStates(t: Tables, task: Task, kept: bool): seq<Tables> {
    [t.(queue := t.queue + [task]), Enqueued(t, task, kept)]
  }

  function Worked(t: Tables, text: string, ending: Ending, keptRunning: bool, keptLast: bool): Tables
    requires t.queue != []
  {
    var task := t.queue[0];
    var running := WithStatus(t.(queue := t.queue[1..]), task.id, Running, keptRunning);
    var stored := if ending == RaisesBefore then running else WithAnswer(running, task, text);
    WithStatus(stored, task.id, if ending == Answers then Completed else Failed, keptLast)
  }

  /** The tables after each command of the worker's turn: the result is stored before the last status. */
  ghost function WorkStates(t: Tables, text: string, ending: Ending, keptRunning: bool, keptLast: bool): seq<Tables>
    requires t.queue != []
  {
    var task, taken := t.queue[0], t.(queue := t.queue[1..]);
    var running := WithStatus(taken, task.id, Running, keptRunning);
    var stored := if ending == RaisesBefore then running else WithAnswer(running, task, text);
    [taken, running, stored, Worked(t, text, ending, keptRunning, keptLast)]
  }

  /** The answer of the first task is the given text, with that task's thread and agent; no other answer changes. */
  ghost predicate LeavesAnswer(before: Tables, after: Tables, text: string, ending: Ending)
    requires before.queue != []
  {
    var task := before.queue[0];
    && (if ending == RaisesBefore then after.results == before.results
        else task.id in after.results && after.results[task.id].text == text
             && after.results[task.id].thread == task.thread && after.results[task.id].agent == task.agent)
    && after.results - {task.id} == before.results - {task.id}
  }

  /** The first task ends completed or failed as the turn did, unless that write is refused; no other status changes. */
  ghost predicate LeavesStatus(before: Tables, after: Tables, ending: Ending, keptRunning: bool, keptLast: bool)
    requires before.queue != []
  {
    var id := before.queue[0].id;
    && (keptLast ==> id in after.status && after.status[id] == if ending == Answers then Completed else Failed)
    && (!keptLast && keptRunning ==> id in after.status && after.status[id] == Running)
    && (!keptLast && !keptRunning ==> after.status == before.status)
    && after.status - {id} == before.status - {id}
  }

  lemma WorkedLeaves(t: Tables, text: string, ending: Ending, keptRunning: bool, keptLast: bool)
    requires t.queue != []
    ensures LeavesAnswer(t, Worked(t, text, ending, keptRunning, keptLast), text, ending)
    ensures LeavesStatus(t, Worked(t, text, ending, keptRunning, keptLast), ending, keptRunning, keptLast)
  {
  }

  /** The steps of one turn of the worker's loop. */
  function Turn(w: nat, text: string, ending: Ending, keptRunning: bool, keptLast: bool): seq<Step> {
    [Take(w), MarkRunning(w, keptRunning)]
    + (if ending == Answers then [Store(w, text), MarkCompleted(w, keptLast)]
       else [Raise(w, text, ending == RaisesAfter), MarkFailed(w, keptLast)])
  }
}
