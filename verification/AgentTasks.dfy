/** The agent's side: a registry of tasks kept in memory, a journal on disk that writes to it
    may fail to reach, and one child process per task. A restart kills every child. */
module AgentTasks {
  import opened Prelude

  datatype TaskState = TaskQueued | TaskRunning | TaskSuccess | TaskFailed | TaskCancelled | TaskInterrupted

  datatype ProcessResult = ProcessResult(exitCode: int, timedOut: bool, cancelled: bool)

  predicate Finished(s: TaskState) { s != TaskQueued && s != TaskRunning }

  predicate EndedWell(r: ProcessResult) { r.exitCode == 0 && !r.timedOut && !r.cancelled }

  /** The terminal state a finished process is recorded under. Collecting the artifact may
      still raise, which fails a task whose process did well. */
  function Conclusion(r: ProcessResult, collected: bool): TaskState {
    if r.cancelled then TaskCancelled
    else if r.timedOut then TaskFailed
    else if !EndedWell(r) then TaskFailed
    else if !collected then TaskFailed
    else TaskSuccess
  }

  /** A task still open in the journal did not survive the restart. */
  function Reconciled(s: TaskState): TaskState {
    if Finished(s) then s else TaskInterrupted
  }

  function Loaded(journal: map<TaskId, TaskState>, unreadable: set<TaskId>): map<TaskId, TaskState> {
    map id | id in journal && id !in unreadable :: Reconciled(journal[id])
  }

  /** The journal after loading: reconciled entries are written back where the write succeeds. */
  function Rewritten(journal: map<TaskId, TaskState>, unreadable: set<TaskId>, unwritable: set<TaskId>)
    : map<TaskId, TaskState>
  {
    map id | id in journal ::
      if id in unreadable || id in unwritable then journal[id] else Reconciled(journal[id])
  }

  ghost predicate LoadedUpTo(journal: map<TaskId, TaskState>, tasks: map<TaskId, TaskState>, files: seq<TaskId>,
                             unreadable: set<TaskId>)
  {
    && (forall id :: id in tasks <==> id in files && id in journal && id !in unreadable)
    && (forall id :: id in tasks ==> tasks[id] == Reconciled(journal[id]))
  }

  ghost predicate RewrittenUpTo(before: map<TaskId, TaskState>, journal: map<TaskId, TaskState>, files: seq<TaskId>,
                                unreadable: set<TaskId>, unwritable: set<TaskId>)
  {
    && (forall id :: id in journal <==> id in before)
    && (forall id :: id in journal ==>
          journal[id] == if id in files && id !in unreadable && id !in unwritable
                         then Reconciled(before[id]) else before[id])
  }

  function Prunable(tasks: map<TaskId, TaskState>, expired: set<TaskId>): set<TaskId> {
    set id | id in tasks && Finished(tasks[id]) && id in expired
  }

  lemma LoadOne(journal: map<TaskId, TaskState>, tasks: map<TaskId, TaskState>, files: seq<TaskId>, id: TaskId,
                unreadable: set<TaskId>)
    requires LoadedUpTo(journal, tasks, files, unreadable) && id !in files && id in journal
    ensures id !in tasks
    ensures LoadedUpTo(journal, if id in unreadable then tasks else tasks[id := Reconciled(journal[id])],
                       files + [id], unreadable)
  {
  }

  lemma RewriteOne(before: map<TaskId, TaskState>, journal: map<TaskId, TaskState>, files: seq<TaskId>, id: TaskId,
                   unreadable: set<TaskId>, unwritable: set<TaskId>)
    requires RewrittenUpTo(before, journal, files, unreadable, unwritable) && id !in files && id in journal
    ensures id in before && journal[id] == before[id]
    ensures RewrittenUpTo(before,
                          if id in unreadable || id in unwritable then journal
                          else journal[id := Reconciled(before[id])],
                          files + [id], unreadable, unwritable)
  {
  }

  lemma LoadedAll(journal: map<TaskId, TaskState>, tasks: map<TaskId, TaskState>, later: map<TaskId, TaskState>,
                  files: seq<TaskId>, unreadable: set<TaskId>, unwritable: set<TaskId>)
    requires LoadedUpTo(journal, tasks, files, unreadable)
    requires RewrittenUpTo(journal, later, files, unreadable, unwritable)
    requires forall id :: id in files <==> id in journal
    ensures tasks == Loaded(journal, unreadable) && later == Rewritten(journal, unreadable, unwritable)
  {
  }

  ghost predicate PrunedUpTo(table: map<TaskId, TaskState>, gone: set<TaskId>, listing: seq<TaskId>,
                             expired: set<TaskId>)
  {
    forall id :: id in gone <==> id in listing && id in table && Finished(table[id]) && id in expired
  }

  lemma PruneOne(table: map<TaskId, TaskState>, gone: set<TaskId>, listing: seq<TaskId>, id: TaskId,
                 expired: set<TaskId>)
    requires PrunedUpTo(table, gone, listing, expired) && id in table && id !in listing
    ensures id in table - gone && (table - gone)[id] == table[id] && id !in gone
    ensures PrunedUpTo(table, if Finished(table[id]) && id in expired then gone + {id} else gone,
                       listing + [id], expired)
  {
  }

  lemma PrunedAll(table: map<TaskId, TaskState>, gone: set<TaskId>, listing: seq<TaskId>, expired: set<TaskId>)
    requires PrunedUpTo(table, gone, listing, expired) && forall id :: id in listing <==> id in table
    ensures gone == Prunable(table, expired)
  {
  }

  lemma DropOne(table: map<TaskId, TaskState>, gone: set<TaskId>, id: TaskId)
    ensures (table - gone) - {id} == table - (gone + {id})
  {
  }

  // ---- the registry as it runs ---------------------------------------------------------

  /** Task table, process handles and journal, updated in place. The boolean and set
      parameters say which journal operations reach the disk. */
  class TaskRegistry {
    var tasks: map<TaskId, TaskState>
    var handles: set<TaskId>
    var journal: map<TaskId, TaskState>

    method Persist(id: TaskId, writes: bool)
      requires id in tasks
      modifies this`journal
      ensures journal == if writes then old(journal)[id := tasks[id]] else old(journal)
    {
      if writes {
        journal := journal[id := tasks[id]];
      }
    }

    method Create(id: TaskId, writes: bool)
      modifies this`tasks, this`journal
      ensures tasks == old(tasks)[id := TaskQueued]
      ensures journal == if writes then old(journal)[id := TaskQueued] else old(journal)
    {
      tasks := tasks[id := TaskQueued];
      Persist(id, writes);
    }

    /** The head of the executor: attach the process handle, then mark the task running. */
    method Begin(id: TaskId, writes: bool)
      requires id in tasks
      modifies this`tasks, this`journal, this`handles
      ensures tasks == old(tasks)[id := TaskRunning] && handles == old(handles) + {id}
      ensures journal == if writes then old(journal)[id := TaskRunning] else old(journal)
    {
      handles := handles + {id};
      tasks := tasks[id := TaskRunning];
      Persist(id, writes);
    }

    method Finish(id: TaskId, state: TaskState, writes: bool)
      requires id in tasks
      modifies this`tasks, this`journal, this`handles
      ensures tasks == old(tasks)[id := state] && handles == old(handles) - {id}
      ensures journal == if writes then old(journal)[id := state] else old(journal)
    {
      tasks := tasks[id := state];
      handles := handles - {id};
      Persist(id, writes);
    }

    /** The tail of the executor: one process, one terminal state, whatever it reported. */
    method Conclude(id: TaskId, result: ProcessResult, collected: bool, writes: bool)
      requires id in tasks
      modifies this`tasks, this`journal, this`handles
      ensures tasks == old(tasks)[id := Conclusion(result, collected)] && Finished(tasks[id])
      ensures tasks[id] == TaskSuccess <==> result.exitCode == 0 && !result.timedOut && !result.cancelled && collected
      ensures tasks[id] == TaskCancelled <==> result.cancelled
      ensures tasks[id] in {TaskSuccess, TaskCancelled, TaskFailed}
      ensures handles == old(handles) - {id}
      ensures journal == if writes then old(journal)[id := Conclusion(result, collected)] else old(journal)
    {
      if result.cancelled {
        Finish(id, TaskCancelled, writes);
      } else if result.timedOut {
        Finish(id, TaskFailed, writes);
      } else if result.exitCode != 0 {
        Finish(id, TaskFailed, writes);
      } else if !collected {
        Finish(id, TaskFailed, writes);
      } else {
        Finish(id, TaskSuccess, writes);
      }
    }

    /** Read one journal entry. An entry left open is reconciled and written back. */
    method LoadEntry(id: TaskId, readable: bool, writes: bool) returns (read: bool)
      requires id in journal
      modifies this`tasks, this`journal
      ensures read == readable
      ensures tasks == if readable then old(tasks)[id := Reconciled(old(journal)[id])] else old(tasks)
      ensures journal == if readable && writes then old(journal)[id := Reconciled(old(journal)[id])] else old(journal)
    {
      if !readable { return false; }
      var state := journal[id];
      if !Finished(state) {
        tasks := tasks[id := TaskInterrupted];
        Persist(id, writes);
      } else {
        tasks := tasks[id := state];
        assert journal[id := state] == journal;
      }
      return true;
    }

    /** Start-up: read every journal entry of the directory listing `files`. */
    method Load(files: seq<TaskId>, unreadable: set<TaskId>, unwritable: set<TaskId>) returns (recovered: nat)
      requires Distinct(files) && (forall id :: id in files <==> id in journal)
      requires tasks == map[]
      modifies this`tasks, this`journal
      ensures tasks == Loaded(old(journal), unreadable)
      ensures journal == Rewritten(old(journal), unreadable, unwritable)
      ensures recovered == |tasks|
      ensures forall id :: id in tasks <==> id in old(journal) && id !in unreadable
      ensures forall id :: id in tasks ==>
        tasks[id] == if old(journal)[id] in {TaskQueued, TaskRunning} then TaskInterrupted else old(journal)[id]
    {
      ghost var before := journal;
      recovered := 0;
      for i := 0 to |files|
        invariant LoadedUpTo(before, tasks, files[..i], unreadable)
        invariant RewrittenUpTo(before, journal, files[..i], unreadable, unwritable)
        invariant recovered == |tasks|
      {
        var id := files[i];
        assert files[..i + 1] == files[..i] + [id];
        LoadOne(before, tasks, files[..i], id, unreadable);
        RewriteOne(before, journal, files[..i], id, unreadable, unwritable);
        var read := LoadEntry(id, id !in unreadable, id !in unwritable);
        if read { recovered := recovered + 1; }
      }
      assert files[..|files|] == files;
      LoadedAll(before, tasks, journal, files, unreadable, unwritable);
    }

    /** Drop finished tasks that are older than the retention window. */
    method Prune(listing: seq<TaskId>, expired: set<TaskId>) returns (removed: nat)
      requires Distinct(listing) && (forall id :: id in listing <==> id in tasks)
      modifies this`tasks, this`handles, this`journal
      ensures tasks == old(tasks) - Prunable(old(tasks), expired)
      ensures handles == old(handles) - Prunable(old(tasks), expired)
      ensures journal == old(journal) - Prunable(old(tasks), expired)
      ensures removed == |Prunable(old(tasks), expired)|
      ensures forall id :: id in tasks <==>
        id in old(tasks) && !(id in expired && old(tasks)[id] !in {TaskQueued, TaskRunning})
      ensures forall id :: id in tasks ==> tasks[id] == old(tasks)[id]
    {
      ghost var table, disk, held := tasks, journal, handles;
      ghost var gone: set<TaskId> := {};
      removed := 0;
      for i := 0 to |listing|
        invariant PrunedUpTo(table, gone, listing[..i], expired)
        invariant tasks == table - gone && journal == disk - gone && handles == held - gone
        invariant removed == |gone|
      {
        var id := listing[i];
        assert listing[..i + 1] == listing[..i] + [id];
        assert id in listing;
        PruneOne(table, gone, listing[..i], id, expired);
        if Finished(tasks[id]) && id in expired {
          DropOne(table, gone, id);
          DropOne(disk, gone, id);
          tasks := tasks - {id};
          handles := handles - {id};
          journal := journal - {id};
          gone := gone + {id};
          removed := removed + 1;
        }
      }
      assert listing[..|listing|] == listing;
      PrunedAll(table, gone, listing, expired);
    }
  }

  // ---- the agent as a protocol ---------------------------------------------------------

  /** `todo` are accepted tasks whose executor has not started, `alive` those with a running
      process, `exited` those whose process ended but which are not yet recorded. `results`,
      `spawned`, `created` and `orphaned` are history. */
  datatype Agent = Agent(
    up: bool,
    tasks: map<TaskId, TaskState>,
    journal: map<TaskId, TaskState>,
    todo: set<TaskId>,
    alive: set<TaskId>,
    exited: set<TaskId>,
    created: set<TaskId>,
    results: map<TaskId, ProcessResult>,
    spawned: seq<TaskId>,
    orphaned: set<TaskId>)

  datatype AgentEvent =
    | CreateTask(id: TaskId, writes: bool)
    | Spawn(id: TaskId, writes: bool)
    | SpawnFails(id: TaskId, writes: bool)
    | ProcessExits(id: TaskId, result: ProcessResult)
    | RecordEnd(id: TaskId, collected: bool, writes: bool)
    | AgentCrash
    | AgentStart(unreadable: set<TaskId>, unwritable: set<TaskId>)
    | PruneTasks(expired: set<TaskId>)

  function Written(a: Agent, id: TaskId, s: TaskState, writes: bool): Agent {
    a.(tasks := a.tasks[id := s], journal := if writes then a.journal[id := s] else a.journal)
  }

  function AgentStep(a: Agent, e: AgentEvent): Agent {
    match e
    case CreateTask(id, writes) =>
      if a.up && id !in a.created then
        Written(a, id, TaskQueued, writes).(todo := a.todo + {id}, created := a.created + {id})
      else a
    case Spawn(id, writes) =>
      if id in a.todo then
        Written(a, id, TaskRunning, writes)
          .(todo := a.todo - {id}, alive := a.alive + {id}, spawned := a.spawned + [id])
      else a
    case SpawnFails(id, writes) =>
      if id in a.todo then Written(a, id, TaskFailed, writes).(todo := a.todo - {id}) else a
    case ProcessExits(id, result) =>
      if id in a.alive then
        a.(alive := a.alive - {id}, exited := a.exited + {id}, results := a.results[id := result])
      else a
    case RecordEnd(id, collected, writes) =>
      if id in a.exited && id in a.results then
        Written(a, id, Conclusion(a.results[id], collected), writes).(exited := a.exited - {id})
      else a
    case AgentCrash =>
      a.(up := false, tasks := map[], todo := {}, alive := {}, exited := {},
         orphaned := a.orphaned + set id | id in a.tasks && !Finished(a.tasks[id]))
    case AgentStart(unreadable, unwritable) =>
      if a.up then a
      else a.(up := true, tasks := Loaded(a.journal, unreadable),
              journal := Rewritten(a.journal, unreadable, unwritable))
    case PruneTasks(expired) =>
      a.(tasks := a.tasks - Prunable(a.tasks, expired), journal := a.journal - Prunable(a.tasks, expired))
  }

  /** What each event leaves a task as, in memory and, where the write succeeds, in the journal. */
  lemma EventRecords(a: Agent, e: AgentEvent, id: TaskId, s: TaskState, writes: bool)
    requires match e
      case CreateTask(task, w) => task == id && w == writes && a.up && id !in a.created && s == TaskQueued
      case Spawn(task, w) => task == id && w == writes && id in a.todo && s == TaskRunning
      case SpawnFails(task, w) => task == id && w == writes && id in a.todo && s == TaskFailed
      case RecordEnd(task, collected, w) =>
        && task == id && w == writes && id in a.exited && id in a.results
        && var r := a.results[id];
           s == if r.cancelled then TaskCancelled
                else if r.exitCode == 0 && !r.timedOut && collected then TaskSuccess else TaskFailed
      case _ => false
    ensures AgentStep(a, e).tasks == a.tasks[id := s]
    ensures AgentStep(a, e).journal == if writes then a.journal[id := s] else a.journal
  {
  }

  /** A crash takes the memory and every process, and orphans what was not finished; a start reads the
      journal, where a task still open reads as interrupted. */
  lemma RestartLoses(a: Agent, unreadable: set<TaskId>, unwritable: set<TaskId>, id: TaskId)
    ensures var down := AgentStep(a, AgentCrash);
      && !down.up && down.tasks == map[] && down.todo == down.alive == down.exited == {}
      && (id in down.orphaned <==> id in a.orphaned || (id in a.tasks && a.tasks[id] in {TaskQueued, TaskRunning}))
      && down.journal == a.journal
    ensures var up := AgentStep(AgentStep(a, AgentCrash), AgentStart(unreadable, unwritable));
      && up.up && (id in up.tasks <==> id in a.journal && id !in unreadable)
      && (id in up.tasks ==>
           up.tasks[id] == if a.journal[id] in {TaskQueued, TaskRunning} then TaskInterrupted else a.journal[id])
  {
  }

  // ---- what the agent keeps ------------------------------------------------------------

  predicate Live(a: Agent, id: TaskId) { id in a.todo || id in a.alive || id in a.exited }

  /** Only a process that ended well is ever reported as a success. */
  ghost predicate Truthful(table: map<TaskId, TaskState>, results: map<TaskId, ProcessResult>) {
    forall id :: id in table && table[id] == TaskSuccess ==> id in results && EndedWell(results[id])
  }

  /** A task is unfinished in memory exactly while its executor is at work. */
  ghost predicate TableOk(a: Agent) {
    forall id :: Live(a, id) <==> id in a.tasks && !Finished(a.tasks[id])
  }

  /** The journal may lag behind memory, but never ahead of it. */
  ghost predicate JournalOk(a: Agent) {
    forall id :: id in a.journal && Live(a, id) ==> !Finished(a.journal[id])
  }

  ghost predicate StagesOk(a: Agent) {
    && (forall id :: id in a.todo ==> id !in a.alive && id !in a.exited && id !in a.spawned && id !in a.results)
    && (forall id :: id in a.alive ==> id !in a.exited && id !in a.results)
    && (forall id :: id in a.exited ==> id in a.results)
    && Distinct(a.spawned)
  }

  ghost predicate KnownOk(a: Agent) {
    forall id ::
      (id in a.tasks || id in a.journal || id in a.spawned || id in a.results || id in a.orphaned || Live(a, id))
      ==> id in a.created
  }

  /** A task lost in a restart can be seen only as interrupted. */
  ghost predicate OrphansOk(a: Agent) {
    forall id :: id in a.orphaned ==>
      && !Live(a, id)
      && (id in a.tasks ==> a.tasks[id] == TaskInterrupted)
      && (id in a.journal ==> Reconciled(a.journal[id]) == TaskInterrupted)
  }

  ghost predicate AgentInv(a: Agent) {
    && Truthful(a.tasks, a.results) && Truthful(a.journal, a.results)
    && TableOk(a) && JournalOk(a) && StagesOk(a) && KnownOk(a) && OrphansOk(a)
    && (!a.up ==> a.tasks == map[])
  }

  const NEW_AGENT := Agent(false, map[], map[], {}, {}, {}, {}, map[], [], {})

  lemma CreateKeeps(a: Agent, id: TaskId, writes: bool)
    requires AgentInv(a)
    ensures AgentInv(AgentStep(a, CreateTask(id, writes)))
  {
  }

  lemma SpawnKeeps(a: Agent, id: TaskId, writes: bool)
    requires AgentInv(a)
    ensures AgentInv(AgentStep(a, Spawn(id, writes)))
  {
  }

  lemma SpawnFailsKeeps(a: Agent, id: TaskId, writes: bool)
    requires AgentInv(a)
    ensures AgentInv(AgentStep(a, SpawnFails(id, writes)))
  {
  }

  lemma ExitKeeps(a: Agent, id: TaskId, result: ProcessResult)
    requires AgentInv(a)
    ensures AgentInv(AgentStep(a, ProcessExits(id, result)))
  {
  }

  lemma RecordKeeps(a: Agent, id: TaskId, collected: bool, writes: bool)
    requires AgentInv(a)
    ensures AgentInv(AgentStep(a, RecordEnd(id, collected, writes)))
  {
  }

  lemma AgentCrashKeeps(a: Agent)
    requires AgentInv(a)
    ensures AgentInv(AgentStep(a, AgentCrash))
  {
  }

  lemma AgentStartKeeps(a: Agent, unreadable: set<TaskId>, unwritable: set<TaskId>)
    requires AgentInv(a)
    ensures AgentInv(AgentStep(a, AgentStart(unreadable, unwritable)))
  {
  }

  lemma PruneKeeps(a: Agent, expired: set<TaskId>)
    requires AgentInv(a)
    ensures AgentInv(AgentStep(a, PruneTasks(expired)))
  {
  }

  lemma AgentStepKeeps(a: Agent, e: AgentEvent)
    requires AgentInv(a)
    ensures AgentInv(AgentStep(a, e))
  {
    match e
    case CreateTask(id, writes) => CreateKeeps(a, id, writes);
    case Spawn(id, writes) => SpawnKeeps(a, id, writes);
    case SpawnFails(id, writes) => SpawnFailsKeeps(a, id, writes);
    case ProcessExits(id, result) => ExitKeeps(a, id, result);
    case RecordEnd(id, collected, writes) => RecordKeeps(a, id, collected, writes);
    case AgentCrash => AgentCrashKeeps(a);
    case AgentStart(unreadable, unwritable) => AgentStartKeeps(a, unreadable, unwritable);
    case PruneTasks(expired) => PruneKeeps(a, expired);
  }

  ghost function PlayAgent(a: Agent, events: seq<AgentEvent>): Agent {
    if events == [] then a else AgentStep(PlayAgent(a, events[..|events| - 1]), events[|events| - 1])
  }
}
