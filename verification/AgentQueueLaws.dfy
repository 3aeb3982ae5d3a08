/** What every interleaving of producers and workers keeps. */
module AgentQueueLaws {
  import opened AgentQueue

  // ---------------------------------------------------------------- the code's runs are runs of the machine

  lemma FirstStep(s: System, a: Step, rest: seq<Step>)
    requires Enabled(s, a) && Runs(Next(s, a), rest)
    ensures Runs(s, [a] + rest) && After(s, [a] + rest) == After(Next(s, a), rest)
    ensures States(s, [a] + rest) == [Next(s, a).tables] + States(Next(s, a), rest)
  {
    assert ([a] + rest)[1..] == rest;
  }

  /** A call of the producer, with no step in between, is a push and a status write. */
  lemma EnqueueRuns(s: System, p: nat, task: Task, kept: bool)
    requires Enabled(s, Push(p, task))
    ensures Runs(s, [Push(p, task), MarkQueued(p, kept)])
    ensures States(s, [Push(p, task), MarkQueued(p, kept)]) == EnqueueStates(s.tables, task, kept)
    ensures After(s, [Push(p, task), MarkQueued(p, kept)]).tables == Enqueued(s.tables, task, kept)
  {
    var s1 := Next(s, Push(p, task));
    FirstStep(s1, MarkQueued(p, kept), []);
    FirstStep(s, Push(p, task), [MarkQueued(p, kept)]);
    assert [MarkQueued(p, kept)] + [] == [MarkQueued(p, kept)];
    assert [Push(p, task)] + [MarkQueued(p, kept)] == [Push(p, task), MarkQueued(p, kept)];
  }

  /** So is a turn of the worker's loop: it takes a task and ends idle, with the task finished or failed. */
  lemma TurnRuns(s: System, w: nat, text: string, ending: Ending, keptRunning: bool, keptLast: bool)
    requires Enabled(s, Take(w))
    ensures var steps := Turn(w, text, ending, keptRunning, keptLast);
            && Runs(s, steps)
            && States(s, steps) == WorkStates(s.tables, text, ending, keptRunning, keptLast)
            && After(s, steps).tables == Worked(s.tables, text, ending, keptRunning, keptLast)
            && After(s, steps).workers == s.workers
            && After(s, steps).taken == s.taken + [s.tables.queue[0]]
            && After(s, steps).finished == s.finished + (if ending == Answers then [s.tables.queue[0].id] else [])
            && After(s, steps).failed == s.failed + (if ending == Answers then [] else [s.tables.queue[0].id])
  {
    hide WithStatus, WithAnswer;
    var third := if ending == Answers then Store(w, text) else Raise(w, text, ending == RaisesAfter);
    var fourth := if ending == Answers then MarkCompleted(w, keptLast) else MarkFailed(w, keptLast);
    FourSteps(s, Take(w), MarkRunning(w, keptRunning), third, fourth);
    assert Turn(w, text, ending, keptRunning, keptLast) == [Take(w), MarkRunning(w, keptRunning), third, fourth];
    assert s.workers[w := Idle] == s.workers;
  }

  lemma FourSteps(s: System, a: Step, b: Step, c: Step, d: Step)
    requires Enabled(s, a)
    requires var s1 := Next(s, a);
             Enabled(s1, b) && Enabled(Next(s1, b), c) && Enabled(Next(Next(s1, b), c), d)
    ensures Runs(s, [a, b, c, d]) && After(s, [a, b, c, d]) == Next(Next(Next(Next(s, a), b), c), d)
    ensures var s1 := Next(s, a);
            var s2 := Next(s1, b);
            var s3 := Next(s2, c);
            States(s, [a, b, c, d]) == [s1.tables, s2.tables, s3.tables, Next(s3, d).tables]
  {
    hide Next, Enabled;
    var s1 := Next(s, a);
    var s2 := Next(s1, b);
    var s3 := Next(s2, c);
    FirstStep(s3, d, []);
    FirstStep(s2, c, [d] + []);
    FirstStep(s1, b, [c] + ([d] + []));
    FirstStep(s, a, [b] + ([c] + ([d] + [])));
    assert [a, b, c, d] == [a] + ([b] + ([c] + ([d] + [])));
  }

  // ---------------------------------------------------------------- where a task is

  function HeldBy(worker: Worker): multiset<string> {
    match TaskOf(worker)
    case None => multiset{}
    case Some(task) => multiset{task.id}
  }

  function Held(workers: seq<Worker>): multiset<string> {
    if workers == [] then multiset{} else HeldBy(workers[0]) + Held(workers[1..])
  }

  lemma MultisetShift(h: multiset<string>, a: multiset<string>, b: multiset<string>, c: multiset<string>,
                      d: multiset<string>)
    requires a + b == c + d
    ensures (h + a) + b == (h + c) + d
  {
    assert (h + a) + b == h + (a + b);
    assert (h + c) + d == h + (c + d);
  }

  lemma HeldStep(workers: seq<Worker>)
    requires workers != []
    ensures Held(workers) == HeldBy(workers[0]) + Held(workers[1..])
  {
  }

  lemma {:induction false} HeldUpdate(workers: seq<Worker>, w: nat, worker: Worker)
    requires w < |workers|
    ensures Held(workers[w := worker]) + HeldBy(workers[w]) == Held(workers) + HeldBy(worker)
  {
    hide HeldBy;
    var next, rest := workers[w := worker], workers[1..];
    HeldStep(workers);
    HeldStep(next);
    if w == 0 {
      assert next[1..] == rest;
    } else {
      HeldUpdate(rest, w - 1, worker);
      assert next[1..] == rest[w - 1 := worker];
      assert rest[w - 1] == workers[w] && next[0] == workers[0];
      MultisetShift(HeldBy(workers[0]), Held(next[1..]), HeldBy(workers[w]), Held(rest), HeldBy(worker));
    }
  }

  lemma {:induction false} HeldIncludes(workers: seq<Worker>, w: nat)
    requires w < |workers|
    ensures HeldBy(workers[w]) <= Held(workers)
  {
    if w > 0 {
      HeldIncludes(workers[1..], w - 1);
    }
  }

  lemma {:induction false} HeldNone(workers: seq<Worker>)
    requires forall w :: 0 <= w < |workers| ==> workers[w] == Idle
    ensures Held(workers) == multiset{}
  {
    if workers != [] {
      HeldNone(workers[1..]);
    }
  }

  lemma IdsConcat(a: seq<Task>, b: seq<Task>)
    ensures Ids(a + b) == Ids(a) + Ids(b)
  {
    hide Ids;
    forall i | 0 <= i < |a + b|
      ensures Ids(a + b)[i] == (Ids(a) + Ids(b))[i]
    {
    }
  }

  ghost predicate DistinctIds(tasks: seq<Task>) {
    forall i, j :: 0 <= i < j < |tasks| ==> tasks[i].id != tasks[j].id
  }

  /** First in, first out, nothing lost: what was pushed is what was taken and then what is queued. */
  ghost predicate Conserved(s: System) {
    && s.issued == s.taken + s.tables.queue && DistinctIds(s.issued)
    && multiset(Ids(s.taken)) == Held(s.workers) + multiset(s.finished) + multiset(s.failed)
  }

  // ---------------------------------------------------------------- what the tables say

  /** The answer belongs to a pushed task of this id and carries that task's thread and agent. */
  ghost predicate OwnAnswer(issued: seq<Task>, id: string, answer: Answer) {
    exists task :: task in issued && task.id == id && answer.thread == task.thread && answer.agent == task.agent
  }

  ghost predicate ResultsOwn(s: System) {
    && (forall id :: id in s.tables.results ==> OwnAnswer(s.issued, id, s.tables.results[id]))
    && (forall w :: 0 <= w < |s.workers| && TaskOf(s.workers[w]).Some? ==> TaskOf(s.workers[w]).value in s.taken)
    && (forall w :: 0 <= w < |s.workers| && s.workers[w].Answered? ==> s.workers[w].task.id in s.tables.results)
    && (forall id :: id in s.finished ==> id in s.tables.results)
  }

  ghost predicate StatusTrue(s: System) {
    && (forall p :: 0 <= p < |s.producers| && s.producers[p].Pushed? ==> s.producers[p].id in Ids(s.issued))
    && (forall id :: id in s.tables.status ==>
          match s.tables.status[id]
          case Queued => id in Ids(s.issued)
          case Running => id in Ids(s.taken)
          case Completed => id in s.finished
          case Failed => id in s.failed)
  }

  ghost predicate Invariant(s: System) { Conserved(s) && ResultsOwn(s) && StatusTrue(s) }

  lemma InitialInvariant(s: System)
    requires Initial(s)
    ensures Invariant(s)
  {
    HeldNone(s.workers);
  }

  lemma IdsMembers(tasks: seq<Task>, task: Task)
    requires task in tasks
    ensures task.id in Ids(tasks)
  {
    var i :| 0 <= i < |tasks| && tasks[i] == task;
    assert Ids(tasks)[i] == task.id;
  }

  lemma ConservedPush(s: System, p: nat, task: Task)
    requires Conserved(s) && Enabled(s, Push(p, task))
    ensures Conserved(Next(s, Push(p, task)))
  {
    hide Ids, Held;
    var next := Next(s, Push(p, task));
    assert next.issued == next.taken + next.tables.queue;
    forall i | 0 <= i < |s.issued|
      ensures s.issued[i].id != task.id
    {
      IdsMembers(s.issued, s.issued[i]);
    }
  }

  lemma ConservedTake(s: System, w: nat)
    requires Conserved(s) && Enabled(s, Take(w))
    ensures Conserved(Next(s, Take(w)))
  {
    hide Ids, Held, HeldBy, DistinctIds;
    var task := s.tables.queue[0];
    var next := Next(s, Take(w));
    assert next.issued == next.taken + next.tables.queue;
    IdsConcat(s.taken, [task]);
    OneId(task);
    HeldUpdate(s.workers, w, Got(task));
    HeldOf(s.workers[w]);
    HeldOf(Got(task));
    assert multiset(Ids(next.taken)) == multiset(Ids(s.taken)) + multiset{task.id};
    assert Held(next.workers) == Held(s.workers) + multiset{task.id};
  }

  lemma ConservedStep(s: System, step: Step)
    requires Conserved(s) && Enabled(s, step)
    ensures Conserved(Next(s, step))
  {
    hide Ids, Held, HeldBy, WithStatus, WithAnswer, DistinctIds;
    match step
    case Push(p, task) => ConservedPush(s, p, task);
    case Take(w) => ConservedTake(s, w);
    case MarkQueued(p, kept) => StatusOnly(s.tables, s.producers[p].id, Queued, kept);
    case MarkRunning(w, kept) =>
      StatusOnly(s.tables, s.workers[w].task.id, Running, kept);
      SameTask(s.workers, w, Working(s.workers[w].task));
    case Store(w, text) =>
      StatusOnlyAnswer(s.tables, s.workers[w].task, text);
      SameTask(s.workers, w, Answered(s.workers[w].task));
    case Raise(w, text, _) =>
      StatusOnlyAnswer(s.tables, s.workers[w].task, text);
      SameTask(s.workers, w, Broken(s.workers[w].task));
    case MarkCompleted(w, kept) =>
      StatusOnly(s.tables, s.workers[w].task.id, Completed, kept);
      Released(s.workers, w);
    case MarkFailed(w, kept) =>
      StatusOnly(s.tables, s.workers[w].task.id, Failed, kept);
      Released(s.workers, w);
    case Stop(w) => SameTask(s.workers, w, Stopped(TaskOf(s.workers[w])));
    case Expire(id) =>
  }

  lemma OneId(task: Task)
    ensures Ids([task]) == [task.id]
  {
  }

  lemma HeldOf(worker: Worker)
    ensures HeldBy(worker) == if TaskOf(worker).Some? then multiset{TaskOf(worker).value.id} else multiset{}
  {
  }

  lemma StatusOnly(t: Tables, id: string, status: Status, kept: bool)
    ensures WithStatus(t, id, status, kept).queue == t.queue
    ensures WithStatus(t, id, status, kept).results == t.results
  {
  }

  lemma StatusOnlyAnswer(t: Tables, task: Task, text: string)
    ensures WithAnswer(t, task, text).queue == t.queue && WithAnswer(t, task, text).status == t.status
  {
  }

  lemma SameTask(workers: seq<Worker>, w: nat, worker: Worker)
    requires w < |workers| && TaskOf(workers[w]) == TaskOf(worker)
    ensures Held(workers[w := worker]) == Held(workers)
  {
    HeldUpdate(workers, w, worker);
    HeldOf(worker);
    HeldOf(workers[w]);
    MultisetCancel(Held(workers[w := worker]), Held(workers), HeldBy(worker));
  }

  lemma Released(workers: seq<Worker>, w: nat)
    requires w < |workers| && TaskOf(workers[w]).Some?
    ensures Held(workers) == Held(workers[w := Idle]) + multiset{TaskOf(workers[w]).value.id}
  {
    HeldUpdate(workers, w, Idle);
    HeldOf(workers[w]);
    HeldOf(Idle);
  }

  lemma MultisetCancel(a: multiset<string>, b: multiset<string>, c: multiset<string>)
    requires a + c == b + c
    ensures a == b
  {
    assert a == (a + c) - c;
    assert b == (b + c) - c;
  }

  lemma OwnAnswerGrows(issued: seq<Task>, task: Task, id: string, answer: Answer)
    requires OwnAnswer(issued, id, answer)
    ensures OwnAnswer(issued + [task], id, answer)
  {
    var own :| own in issued && own.id == id && answer.thread == own.thread && answer.agent == own.agent;
    assert own in issued + [task];
  }

  lemma ResultsOwnStep(s: System, step: Step)
    requires Conserved(s) && ResultsOwn(s) && Enabled(s, step)
    ensures ResultsOwn(Next(s, step))
  {
    hide Ids, Held, DistinctIds, OwnAnswer;
    var next := Next(s, step);
    match step
    case Push(p, task) =>
      forall id | id in next.tables.results
        ensures OwnAnswer(next.issued, id, next.tables.results[id])
      {
        OwnAnswerGrows(s.issued, task, id, s.tables.results[id]);
      }
    case Store(w, text) => StoredIsOwn(s, s.workers[w].task, text);
    case Raise(w, text, _) => StoredIsOwn(s, s.workers[w].task, text);
    case _ =>
  }

  lemma StoredIsOwn(s: System, task: Task, text: string)
    requires Conserved(s) && task in s.taken
    ensures OwnAnswer(s.issued, task.id, Answer(text, task.thread, task.agent))
  {
    assert task in s.issued;
  }

  lemma StatusTrueStep(s: System, step: Step)
    requires Conserved(s) && ResultsOwn(s) && StatusTrue(s) && Enabled(s, step)
    ensures StatusTrue(Next(s, step))
  {
    hide Ids, Held, DistinctIds, OwnAnswer;
    var next := Next(s, step);
    match step
    case Push(p, task) =>
      IdsConcat(s.issued, [task]);
      OneId(task);
    case Take(w) => IdsConcat(s.taken, [s.tables.queue[0]]);
    case MarkRunning(w, kept) => IdsMembers(s.taken, TaskOf(s.workers[w]).value);
    case _ =>
  }

  /** Every step of every process keeps the invariant. */
  lemma StepInvariant(s: System, step: Step)
    requires Invariant(s) && Enabled(s, step)
    ensures Invariant(Next(s, step))
  {
    hide Next, Enabled, Conserved, ResultsOwn, StatusTrue;
    ConservedStep(s, step);
    ResultsOwnStep(s, step);
    StatusTrueStep(s, step);
  }

  /** So every run does, whatever the interleaving. */
  lemma {:induction false} RunInvariant(s: System, steps: seq<Step>)
    requires Invariant(s) && Runs(s, steps)
    ensures Invariant(After(s, steps))
    decreases |steps|
  {
    hide Next, Enabled, Invariant;
    if steps != [] {
      StepInvariant(s, steps[0]);
      RunInvariant(Next(s, steps[0]), steps[1..]);
    }
  }

  // ---------------------------------------------------------------- main results

  lemma {:induction false} DistinctCount(tasks: seq<Task>, id: string)
    requires DistinctIds(tasks)
    ensures multiset(Ids(tasks))[id] == if id in Ids(tasks) then 1 else 0
  {
    if tasks != [] {
      DistinctCount(tasks[1..], id);
      HeadIsFresh(tasks);
      assert Ids(tasks) == [tasks[0].id] + Ids(tasks[1..]);
    }
  }

  lemma HeadIsFresh(tasks: seq<Task>)
    requires tasks != [] && DistinctIds(tasks)
    ensures tasks[0].id !in Ids(tasks[1..])
  {
    hide Ids;
    forall i | 0 <= i < |tasks[1..]|
      ensures Ids(tasks[1..])[i] != tasks[0].id
    {
      assert tasks[i + 1].id != tasks[0].id;
    }
  }

  /** Every pushed task is in exactly one place, once: queued, held by one worker, finished or failed. */
  lemma ExactlyOnePlace(s: System, steps: seq<Step>, id: string)
    requires Initial(s) && Runs(s, steps)
    ensures var t := After(s, steps);
            multiset(Ids(t.tables.queue))[id] + Held(t.workers)[id] + multiset(t.finished)[id] + multiset(t.failed)[id]
            == if id in Ids(t.issued) then 1 else 0
  {
    hide Runs, After, Ids, Held, Initial;
    InitialInvariant(s);
    RunInvariant(s, steps);
    var t := After(s, steps);
    DistinctCount(t.issued, id);
    IdsConcat(t.taken, t.tables.queue);
  }

  /** Tasks are taken in the order they were pushed, and no task is taken twice. */
  lemma TakenInOrder(s: System, steps: seq<Step>)
    requires Initial(s) && Runs(s, steps)
    ensures var t := After(s, steps); t.taken <= t.issued && DistinctIds(t.taken)
  {
    hide Runs, After, Initial;
    InitialInvariant(s);
    RunInvariant(s, steps);
    var t := After(s, steps);
    forall i, j | 0 <= i < j < |t.taken|
      ensures t.taken[i].id != t.taken[j].id
    {
      assert t.issued[i] == t.taken[i] && t.issued[j] == t.taken[j];
    }
  }

  /** A task whose status reads "completed" has a stored result that carries its own thread. */
  lemma CompletedHasResult(s: System, steps: seq<Step>, task: Task)
    requires Initial(s) && Runs(s, steps) && task in After(s, steps).issued
    requires var status := After(s, steps).tables.status; task.id in status && status[task.id] == Completed
    ensures var t := After(s, steps);
            && task.id in t.finished && task.id in t.tables.results
            && t.tables.results[task.id].thread == task.thread && t.tables.results[task.id].agent == task.agent
  {
    hide Runs, After, Initial, Held, Ids;
    InitialInvariant(s);
    RunInvariant(s, steps);
    var t := After(s, steps);
    var own :| own in t.issued && own.id == task.id
               && t.tables.results[task.id].thread == own.thread && t.tables.results[task.id].agent == own.agent;
    SameIdSameTask(t.issued, own, task);
  }

  lemma SameIdSameTask(tasks: seq<Task>, a: Task, b: Task)
    requires DistinctIds(tasks) && a in tasks && b in tasks && a.id == b.id
    ensures a == b
  {
    var i :| 0 <= i < |tasks| && tasks[i] == a;
    var j :| 0 <= j < |tasks| && tasks[j] == b;
  }

  // ---------------------------------------------------------------- whose text an answer carries

  lemma {:induction false} RunsSplit(s: System, a: seq<Step>, b: seq<Step>)
    requires Runs(s, a + b)
    ensures Runs(s, a) && Runs(After(s, a), b) && After(s, a + b) == After(After(s, a), b)
    decreases |a|
  {
    hide Next, Enabled;
    if a == [] {
      assert a + b == b;
    } else {
      assert (a + b)[0] == a[0] && (a + b)[1..] == a[1..] + b;
      RunsSplit(Next(s, a[0]), a[1..], b);
    }
  }

  /** Step `i` of the run stored this text as the answer of the task its worker was running. */
  ghost predicate StoredAt(s: System, steps: seq<Step>, i: nat, id: string, text: string)
    requires Runs(s, steps)
  {
    && i < |steps|
    && Runs(s, steps[..i])
    && var before := After(s, steps[..i]);
       && (steps[i].Store? || (steps[i].Raise? && steps[i].landed)) && steps[i].text == text
       && steps[i].w < |before.workers| && before.workers[steps[i].w].Working?
       && before.workers[steps[i].w].task.id == id
  }

  ghost predicate LastStored(s: System, steps: seq<Step>, id: string, text: string)
    requires Runs(s, steps)
  {
    exists i: nat :: StoredAt(s, steps, i, id, text)
                  && forall j: nat, other :: i < j && StoredAt(s, steps, j, id, other) ==> false
  }

  lemma StoredLonger(s: System, steps: seq<Step>, last: Step, i: nat, id: string, text: string)
    requires Runs(s, steps + [last]) && Runs(s, steps) && i < |steps|
    ensures StoredAt(s, steps + [last], i, id, text) <==> StoredAt(s, steps, i, id, text)
  {
    hide Next, Enabled, After, Runs;
    assert (steps + [last])[..i] == steps[..i];
  }

  /** A step changes an answer exactly by storing one for that id. */
  lemma AnswerStep(s: System, step: Step, id: string)
    requires Enabled(s, step)
    ensures var stores := (step.Store? || (step.Raise? && step.landed)) && s.workers[step.w].task.id == id;
            if stores then
              id in Next(s, step).tables.results && Next(s, step).tables.results[id].text == step.text
            else
              && (id in Next(s, step).tables.results <==> id in s.tables.results)
              && (id in s.tables.results ==> Next(s, step).tables.results[id] == s.tables.results[id])
  {
  }

  /** Over any run a stored answer carries the text that was stored for its id last, and each text stored stays. */
  lemma {:induction false} AnswerIsLastStored(s: System, steps: seq<Step>, id: string)
    requires Initial(s) && Runs(s, steps)
    ensures id in After(s, steps).tables.results ==> LastStored(s, steps, id, After(s, steps).tables.results[id].text)
    ensures (exists i: nat, text :: StoredAt(s, steps, i, id, text)) ==> id in After(s, steps).tables.results
    decreases |steps|
  {
    hide Next, Enabled, StoredAt;
    if steps == [] {
      NothingStored(s, id);
    } else {
      var init, last := steps[..|steps| - 1], steps[|steps| - 1];
      assert steps == init + [last];
      RunsSplit(s, init, [last]);
      LastStep(After(s, init), last);
      AnswerIsLastStored(s, init, id);
      AnswerExtends(s, init, last, id);
    }
  }

  lemma NothingStored(s: System, id: string)
    requires Initial(s)
    ensures id !in s.tables.results && forall i: nat, text :: !StoredAt(s, [], i, id, text)
  {
  }

  lemma LastStep(s: System, step: Step)
    requires Runs(s, [step])
    ensures Enabled(s, step) && After(s, [step]) == Next(s, step)
  {
    hide Next, Enabled;
    assert [step][1..] == [];
  }

  lemma AnswerExtends(s: System, steps: seq<Step>, last: Step, id: string)
    requires Runs(s, steps + [last]) && Runs(s, steps) && Enabled(After(s, steps), last)
    requires After(s, steps + [last]) == Next(After(s, steps), last)
    requires id in After(s, steps).tables.results ==> LastStored(s, steps, id, After(s, steps).tables.results[id].text)
    requires (exists i: nat, text :: StoredAt(s, steps, i, id, text)) ==> id in After(s, steps).tables.results
    ensures var all := steps + [last];
            && (id in After(s, all).tables.results ==> LastStored(s, all, id, After(s, all).tables.results[id].text))
            && ((exists i: nat, text :: StoredAt(s, all, i, id, text)) ==> id in After(s, all).tables.results)
  {
    hide Next, After, Runs, Enabled;
    var all, before := steps + [last], After(s, steps);
    AnswerStep(before, last, id);
    StoresAtEnd(s, steps, last, id);
    hide StoredAt;
    forall i: nat, text | i < |steps|
      ensures StoredAt(s, all, i, id, text) <==> StoredAt(s, steps, i, id, text)
    {
      StoredLonger(s, steps, last, i, id, text);
    }
    forall i: nat, text | StoredAt(s, all, i, id, text)
      ensures i <= |steps|
    {
      StoredInside(s, all, i, id, text);
    }
    if id in After(s, all).tables.results {
      var text := After(s, all).tables.results[id].text;
      if !StoredAt(s, all, |steps|, id, text) {
        var i: nat :| StoredAt(s, steps, i, id, text) &&
          forall j: nat, other :: i < j && StoredAt(s, steps, j, id, other) ==> false;
        StoredInside(s, steps, i, id, text);
        assert StoredAt(s, all, i, id, text);
      }
    }
  }

  lemma StoredInside(s: System, steps: seq<Step>, i: nat, id: string, text: string)
    requires Runs(s, steps) && StoredAt(s, steps, i, id, text)
    ensures i < |steps|
  {
    hide Runs, After;
  }

  /** Whether the last step stored an answer for the id. */
  lemma StoresAtEnd(s: System, steps: seq<Step>, last: Step, id: string)
    requires Runs(s, steps + [last]) && Runs(s, steps) && Enabled(After(s, steps), last)
    ensures var before := After(s, steps);
            var stores := (last.Store? || (last.Raise? && last.landed)) && before.workers[last.w].task.id == id;
            forall text :: StoredAt(s, steps + [last], |steps|, id, text) <==> stores && text == last.text
  {
    hide Runs, After;
    assert (steps + [last])[..|steps|] == steps;
  }

  // ---------------------------------------------------------------- the status can go back

  /** How far along a status is; 0 when there is none. */
  function Rank(status: map<string, Status>, id: string): nat {
    if id !in status then 0
    else match status[id]
      case Queued => 1
      case Running => 2
      case Completed => 3
      case Failed => 3
  }

  /** A worker that holds a task has not finished it, nor has any other. */
  lemma HeldNotEnded(s: System, w: nat)
    requires Invariant(s) && w < |s.workers| && TaskOf(s.workers[w]).Some?
    ensures var id := TaskOf(s.workers[w]).value.id; id !in s.finished && id !in s.failed
  {
    hide Ids, Held, ResultsOwn, StatusTrue;
    var id := TaskOf(s.workers[w]).value.id;
    HeldIncludes(s.workers, w);
    HeldOf(s.workers[w]);
    assert Held(s.workers)[id] >= 1;
    forall i, j | 0 <= i < j < |s.taken|
      ensures s.taken[i].id != s.taken[j].id
    {
      assert s.issued[i] == s.taken[i] && s.issued[j] == s.taken[j];
    }
    DistinctCount(s.taken, id);
  }

  /**
   A step lowers the status of a task exactly when it is a producer's late "queued", written after a worker
   has already marked the task, or an expiry.
   */
  lemma StatusFallsIff(s: System, step: Step, id: string)
    requires Invariant(s) && Enabled(s, step)
    ensures Rank(Next(s, step).tables.status, id) < Rank(s.tables.status, id) <==>
            || (step.MarkQueued? && step.kept && s.producers[step.p].id == id && Rank(s.tables.status, id) >= 2)
            || (step.Expire? && step.id == id && id in s.tables.status)
  {
    hide Ids, Held, ResultsOwn, Conserved;
    match step
    case MarkRunning(w, kept) => HeldNotEnded(s, w);
    case MarkCompleted(w, kept) => HeldNotEnded(s, w);
    case MarkFailed(w, kept) => HeldNotEnded(s, w);
    case _ =>
  }

  /** The producer's status write may come last: a finished task, its result stored, reads "queued". */
  lemma FinishedReadsQueued(task: Task, text: string)
    ensures var s := System(Tables([], map[], map[]), [Idle], [Ready], [], [], [], []);
            var steps := [Push(0, task)] + Turn(0, text, Answers, true, true) + [MarkQueued(0, true)];
            && Initial(s) && Runs(s, steps)
            && After(s, steps).finished == [task.id] && task.id in After(s, steps).tables.results
            && After(s, steps).tables.status == map[task.id := Queued]
  {
    var s := System(Tables([], map[], map[]), [Idle], [Ready], [], [], [], []);
    var turn := Turn(0, text, Answers, true, true);
    var s1 := Next(s, Push(0, task));
    TurnRuns(s1, 0, text, Answers, true, true);
    var s2 := After(s1, turn);
    TurnKeepsProducers(s1, 0, text);
    FirstStep(s2, MarkQueued(0, true), []);
    Chain(s1, turn, [MarkQueued(0, true)] + []);
    FirstStep(s, Push(0, task), turn + ([MarkQueued(0, true)] + []));
    assert [Push(0, task)] + (turn + ([MarkQueued(0, true)] + [])) == [Push(0, task)] + turn + [MarkQueued(0, true)];
  }

  lemma TurnKeepsProducers(s: System, w: nat, text: string)
    requires Enabled(s, Take(w)) && Runs(s, Turn(w, text, Answers, true, true))
    ensures After(s, Turn(w, text, Answers, true, true)).producers == s.producers
  {
    KeepsProducers(s, Turn(w, text, Answers, true, true));
  }

  lemma {:induction false} KeepsProducers(s: System, steps: seq<Step>)
    requires Runs(s, steps) && forall i :: 0 <= i < |steps| ==> !steps[i].Push? && !steps[i].MarkQueued?
    ensures After(s, steps).producers == s.producers
    decreases |steps|
  {
    if steps != [] {
      KeepsProducers(Next(s, steps[0]), steps[1..]);
    }
  }

  lemma {:induction false} Chain(s: System, a: seq<Step>, b: seq<Step>)
    requires Runs(s, a) && Runs(After(s, a), b)
    ensures Runs(s, a + b) && After(s, a + b) == After(After(s, a), b)
    decreases |a|
  {
    if a == [] {
      assert a + b == b;
    } else {
      Chain(Next(s, a[0]), a[1..], b);
      assert (a + b)[1..] == a[1..] + b;
    }
  }
}
