/** The run executor as it runs: one worker object over the database, with its queue, its loop
    over the targets, its polling and its recovery. Between any two of its sessions others may
    submit, cancel, retire or stop. A ghost trace records which step of the machine each session
    was, so everything proved of all runs of the machine holds of every run of this object. */
module BackupRunner {
  import opened Prelude
  import opened BackupRuns
  import opened BackupRunSafety
  import opened BackupRunGuarantees

  /** What others may do while the worker waits. */
  datatype Request = NewRun(targets: seq<Guest>) | Withdraw(run: RunId) | RetireRow(row: RowId)
    | CancelRun(run: RunId) | Stop

  function AsEvent(r: Request): Event {
    match r
    case NewRun(targets) => SubmitRun(targets)
    case Withdraw(run) => CancelQueued(run)
    case RetireRow(row) => RetireArtifact(row)
    case CancelRun(run) => RequestCancel(run)
    case Stop => RequestStop
  }

  /** What the agent client reports about a start request. */
  datatype StartReply = NotSent | Accepted(task: TaskId) | Refused

  /** What one poll finds: still running, over, or no answer at this time. */
  datatype PollReply = Pending | Over(end: TaskEnd) | NoAnswer(at: real)

  /** At poll `k` the agent has given no answer since poll `i`, which began the silence, and that is
      longer than the grace period. */
  ghost predicate SilentSince(polls: seq<PollReply>, grace: real, i: int, k: int) {
    && 0 <= i <= k < |polls| && (forall j :: i <= j <= k ==> polls[j].NoAnswer?) && (i > 0 ==> !polls[i - 1].NoAnswer?)
    && polls[k].at - polls[i].at > grace
  }

  ghost predicate GivenUpAt(polls: seq<PollReply>, grace: real, k: int) { exists i :: SilentSince(polls, grace, i, k) }

  /** The task is over at poll `k`, or the executor gives up on it there. */
  ghost predicate EndsAt(polls: seq<PollReply>, grace: real, k: int) {
    0 <= k < |polls| && (polls[k].Over? || GivenUpAt(polls, grace, k))
  }

  ghost predicate FirstEndsAt(polls: seq<PollReply>, grace: real, k: int) {
    EndsAt(polls, grace, k) && forall j :: 0 <= j < k ==> !EndsAt(polls, grace, j)
  }

  predicate ClosesAs(reply: PollReply, s: RowStatus) {
    match reply
    case Over(EndSuccess) => s == Success
    case Over(EndFailed) => s == Failed
    case Over(EndCancelled) => s == Cancelled
    case Over(EndInterrupted) => s == Interrupted
    case NoAnswer(_) => s == Interrupted
    case Pending => false
  }

  /** These polls close a row with this status. */
  ghost predicate PolledTo(polls: seq<PollReply>, grace: real, s: RowStatus) {
    exists k :: FirstEndsAt(polls, grace, k) && ClosesAs(polls[k], s)
  }

  /** A row closes as a success, a failure or a cancellation exactly when the agent's first report of an
      end says so, no silence before it having lasted too long; and as interrupted when that report says
      so, or a silence lasts too long before any. */
  lemma PolledToIff(polls: seq<PollReply>, grace: real, s: RowStatus)
    ensures PolledTo(polls, grace, s) <==>
      exists k :: && 0 <= k < |polls|
                  && (forall j :: 0 <= j < k ==> !polls[j].Over? && !GivenUpAt(polls, grace, j))
                  && (|| (polls[k] == Over(EndSuccess) && s == Success)
                      || (polls[k] == Over(EndFailed) && s == Failed)
                      || (polls[k] == Over(EndCancelled) && s == Cancelled)
                      || (polls[k] == Over(EndInterrupted) && s == Interrupted)
                      || (GivenUpAt(polls, grace, k) && s == Interrupted))
  {
    forall k | 0 <= k < |polls| && forall j :: 0 <= j < k ==> !polls[j].Over? && !GivenUpAt(polls, grace, j)
      ensures FirstEndsAt(polls, grace, k) <==> polls[k].Over? || GivenUpAt(polls, grace, k)
    {
    }
  }

  /** Silence from the first poll on is given up on exactly when it has lasted longer than the grace
      period. */
  lemma {:induction false} UnbrokenSilence(polls: seq<PollReply>, grace: real, k: nat)
    requires k < |polls| && forall j :: 0 <= j <= k ==> polls[j].NoAnswer?
    ensures GivenUpAt(polls, grace, k) <==> polls[k].at - polls[0].at > grace
  {
    if polls[k].at - polls[0].at > grace { assert SilentSince(polls, grace, 0, k); }
  }

  /** Any answer starts the clock anew: what was silent before it no longer counts. */
  lemma {:induction false} AnswerStartsAnew(polls: seq<PollReply>, grace: real, j: nat, k: nat)
    requires j < k < |polls| && !polls[j].NoAnswer?
    ensures GivenUpAt(polls, grace, k) <==> GivenUpAt(polls[j + 1..], grace, k - j - 1)
  {
    var rest := polls[j + 1..];
    if i :| SilentSince(polls, grace, i, k) {
      assert i > j;
      assert SilentSince(rest, grace, i - j - 1, k - j - 1);
    }
    var end := k - j - 1;
    if i :| SilentSince(rest, grace, i, end) {
      forall m | i + j + 1 <= m <= k ensures polls[m].NoAnswer? { assert polls[m] == rest[m - j - 1]; }
      assert SilentSince(polls, grace, i + j + 1, k);
    }
  }

  /** A silence begins at one place. */
  lemma {:induction false} OneStart(polls: seq<PollReply>, a: int, b: int, k: int)
    requires 0 <= a <= k < |polls| && 0 <= b <= k
    requires (forall j :: a <= j <= k ==> polls[j].NoAnswer?) && (a > 0 ==> !polls[a - 1].NoAnswer?)
    requires (forall j :: b <= j <= k ==> polls[j].NoAnswer?) && (b > 0 ==> !polls[b - 1].NoAnswer?)
    ensures a == b
  {
    var before := set j | 0 <= j < k && !polls[j].NoAnswer?;
    assert a > 0 ==> a - 1 in before;
    assert b > 0 ==> b - 1 in before;
  }

  lemma {:induction false} GivenUpIff(polls: seq<PollReply>, grace: real, first: nat, k: nat)
    requires first <= k < |polls| && (forall j :: first <= j <= k ==> polls[j].NoAnswer?)
    requires first > 0 ==> !polls[first - 1].NoAnswer?
    ensures GivenUpAt(polls, grace, k) <==> polls[k].at - polls[first].at > grace
  {
    if polls[k].at - polls[first].at > grace { assert SilentSince(polls, grace, first, k); }
    if i :| SilentSince(polls, grace, i, k) { OneStart(polls, i, first, k); }
  }

  /** Before poll `k` nothing has ended; `since` is when the present silence began, at poll `first`. */
  ghost predicate Listening(polls: seq<PollReply>, grace: real, k: int, since: Option<real>, first: int) {
    && 0 <= k <= |polls| && (forall j :: 0 <= j < k ==> !EndsAt(polls, grace, j))
    && (since.Some? <==> k > 0 && polls[k - 1].NoAnswer?)
    && (since.Some? ==>
          && 0 <= first < k && (forall j :: first <= j < k ==> polls[j].NoAnswer?)
          && since.value == polls[first].at && (first > 0 ==> !polls[first - 1].NoAnswer?))
  }

  /** When the silence began that this reply leaves. */
  function Silence(reply: PollReply, since: Option<real>): Option<real> {
    match reply
    case NoAnswer(at) => if since.Some? then since else Some(at)
    case _ => None
  }

  lemma {:induction false} Heard(polls: seq<PollReply>, grace: real, k: int, since: Option<real>, first: int)
    requires Listening(polls, grace, k, since, first) && k < |polls|
    ensures var left := Silence(polls[k], since);
      if polls[k].Over? || (polls[k].NoAnswer? && polls[k].at - left.value > grace) then FirstEndsAt(polls, grace, k)
      else Listening(polls, grace, k + 1, left, if since.Some? then first else k)
  {
    if polls[k].NoAnswer? {
      GivenUpIff(polls, grace, if since.Some? then first else k, k);
    } else {
      AnswerIsNoSilence(polls, grace, k);
    }
  }

  /** An answer is no silence. */
  lemma AnswerIsNoSilence(polls: seq<PollReply>, grace: real, k: nat)
    requires k < |polls| && !polls[k].NoAnswer?
    ensures !GivenUpAt(polls, grace, k)
  {
  }

  /** How a piece of the executor's work ends: it goes on, the process is gone, or an exception
      leaves it. */
  datatype Fate = GoesOn | Killed | Raised

  /** What recovery hears about a confirmed row. */
  datatype RecoverReply = Forgotten | StillRunning | NoAnswer | Ended(end: TaskEnd)

  /** The states a run of the machine goes through. */
  ghost predicate IsRun(states: seq<Dash>, events: seq<Event>) {
    && |states| == |events| + 1 && states[0] == NEW_DASH
    && forall k {:trigger events[k]} :: 0 <= k < |events| ==> states[k + 1] == Step(states[k], events[k])
  }

  lemma ExtendRun(states: seq<Dash>, events: seq<Event>, e: Event)
    requires IsRun(states, events)
    ensures IsRun(states + [Step(states[|events|], e)], events + [e])
  {
    forall k {:trigger (events + [e])[k]} | 0 <= k < |events + [e]|
      ensures (states + [Step(states[|events|], e)])[k + 1]
        == Step((states + [Step(states[|events|], e)])[k], (events + [e])[k])
    {
      if k < |events| { assert (events + [e])[k] == events[k]; }
    }
  }

  /** Every state of the worker is a state the machine can play into, so it has all its properties. */
  lemma {:induction false} RunIsPlayed(states: seq<Dash>, events: seq<Event>)
    requires IsRun(states, events)
    ensures states[|events|] == Play(NEW_DASH, events) && Inv(states[|events|])
    decreases |events|
  {
    if events == [] {
      StartIsFine();
    } else {
      var n := |events| - 1;
      forall k {:trigger events[..n][k]} | 0 <= k < n
        ensures states[..n + 1][k + 1] == Step(states[..n + 1][k], events[..n][k])
      {
        assert events[..n][k] == events[k];
      }
      RunIsPlayed(states[..n + 1], events[..n]);
      assert states[n + 1] == Step(states[n], events[n]);
      StepKeeps(states[n], events[n]);
    }
  }

  /** Closed rows keep what they say, apart from successes that are retired. */
  ghost predicate Lasting(a: map<RowId, Row>, b: map<RowId, Row>) {
    forall r :: r in a && Terminal(a[r].status) ==> r in b && Final(a[r], b[r])
  }

  /** Others do nothing to the rows but retire successes. */
  ghost predicate OnlyRetired(a: map<RowId, Row>, b: map<RowId, Row>) {
    a.Keys == b.Keys && forall r :: r in a ==> Final(a[r], b[r])
  }

  /** Only this row has changed, apart from successes that were retired. */
  ghost predicate Touches(a: map<RowId, Row>, b: map<RowId, Row>, row: RowId) {
    a.Keys == b.Keys && forall r :: r in a && r != row ==> Final(a[r], b[r])
  }

  /** Later in the same run, closed rows still say what they said. */
  lemma {:induction false} LastsSince(early: seq<Dash>, before: seq<Event>, states: seq<Dash>, events: seq<Event>)
    requires IsRun(early, before) && IsRun(states, events) && before <= events
    ensures Lasting(early[|before|].rows, states[|events|].rows)
  {
    RunIsPlayed(early, before);
    RunIsPlayed(states, events);
    var rows := early[|before|].rows;
    forall r | r in rows && Terminal(rows[r].status)
      ensures r in states[|events|].rows && Final(rows[r], states[|events|].rows[r])
    {
      VerdictsAreFinal(before, events[|before|..], r);
      assert before + events[|before|..] == events;
    }
  }

  /** What the agent's answers make of a target: a refused start fails it; otherwise the polls decide. */
  ghost predicate Says(adopted: bool, reply: StartReply, polls: seq<PollReply>, grace: real, s: RowStatus) {
    if !adopted && !reply.Accepted? then s == Failed else PolledTo(polls, grace, s)
  }

  ghost predicate ShownBy(row: Row, adopted: bool, reply: StartReply, polls: seq<PollReply>, grace: real) {
    && (!adopted ==> row.task == if reply.Accepted? then Some(reply.task) else None)
    && exists s :: Says(adopted, reply, polls, grace, s) && (row.status == s || (s == Success && row.status == Deleted))
  }

  /** The target's row says what the agent answered, unless it was a success and has been retired. */
  ghost predicate Shown(rows: map<RowId, Row>, plan: Plan, g: Guest, reply: StartReply, polls: seq<PollReply>,
                        grace: real)
  {
    exists r :: r in rows && rows[r].run == plan.run && rows[r].guest == g
                && ShownBy(rows[r], g in plan.adopt, reply, polls, grace)
  }

  /** So do the first `n` targets that were not done before, leaving out the last of them if a stop
      left it behind. */
  ghost predicate AllShown(rows: map<RowId, Row>, plan: Plan, targets: seq<Guest>, n: nat, skipped: bool,
                           replies: nat -> StartReply, polls: nat -> seq<PollReply>, grace: real)
  {
    forall j: nat :: j < n && j < |targets| && !(skipped && j == n - 1) && targets[j] !in plan.done ==>
      Shown(rows, plan, targets[j], replies(j), polls(j), grace)
  }

  lemma {:induction false} AllShownLasts(a: map<RowId, Row>, b: map<RowId, Row>, plan: Plan, targets: seq<Guest>,
                                         n: nat, skipped: bool, replies: nat -> StartReply,
                                         polls: nat -> seq<PollReply>, grace: real)
    requires Lasting(a, b) && AllShown(a, plan, targets, n, skipped, replies, polls, grace)
    ensures AllShown(b, plan, targets, n, skipped, replies, polls, grace)
  {
    forall j: nat | j < n && j < |targets| && !(skipped && j == n - 1) && targets[j] !in plan.done
      ensures Shown(b, plan, targets[j], replies(j), polls(j), grace)
    {
      ShownLasts(a, b, plan, targets[j], replies(j), polls(j), grace);
    }
  }

  lemma {:induction false} ShownLasts(a: map<RowId, Row>, b: map<RowId, Row>, plan: Plan, g: Guest, reply: StartReply,
                                      polls: seq<PollReply>, grace: real)
    requires Lasting(a, b) && Shown(a, plan, g, reply, polls, grace)
    ensures Shown(b, plan, g, reply, polls, grace)
  {
    var r :| r in a && a[r].run == plan.run && a[r].guest == g && ShownBy(a[r], g in plan.adopt, reply, polls, grace);
    var s :| Says(g in plan.adopt, reply, polls, grace, s)
      && (a[r].status == s || (s == Success && a[r].status == Deleted));
    assert Terminal(a[r].status);
    assert ShownBy(b[r], g in plan.adopt, reply, polls, grace);
  }

  /** What recovery makes of a confirmed row. */
  ghost predicate RecoveredAs(row: Row, reply: RecoverReply) {
    match reply
    case Forgotten => row.status == Interrupted
    case Ended(EndSuccess) => row.status == Success || row.status == Deleted
    case Ended(EndFailed) => row.status == Failed
    case Ended(EndCancelled) => row.status == Cancelled
    case Ended(EndInterrupted) => row.status == Interrupted
    case _ => row.status == Running
  }

  /** The first `n` rows asked about are as the agent's answers make them; the others are running. */
  ghost predicate RecoveredRows(rows: map<RowId, Row>, asked: seq<RowId>, n: nat, replies: nat -> RecoverReply) {
    forall k: nat :: k < |asked| ==>
      asked[k] in rows && if k < n then RecoveredAs(rows[asked[k]], replies(k)) else rows[asked[k]].status == Running
  }

  lemma {:induction false} RecoveredLasts(a: map<RowId, Row>, b: map<RowId, Row>, asked: seq<RowId>, n: nat,
                                          replies: nat -> RecoverReply)
    requires RecoveredRows(a, asked, n, replies) && OnlyRetired(a, b)
    ensures RecoveredRows(b, asked, n, replies)
  {
    forall k: nat | k < |asked| ensures asked[k] in b && Final(a[asked[k]], b[asked[k]]) { assert asked[k] in a; }
  }

  lemma {:induction false} RecoveredNext(a: map<RowId, Row>, b: map<RowId, Row>, asked: seq<RowId>, n: nat,
                                         replies: nat -> RecoverReply)
    requires RecoveredRows(a, asked, n, replies) && n < |asked| && Distinct(asked) && Touches(a, b, asked[n])
    requires asked[n] in b && RecoveredAs(b[asked[n]], replies(n))
    ensures RecoveredRows(b, asked, n + 1, replies)
  {
    forall k: nat | k < |asked| && k != n ensures asked[k] in b && Final(a[asked[k]], b[asked[k]]) {
      assert asked[k] in a && asked[k] != asked[n];
    }
  }

  // What the invariant says about the session at hand.

  /** The row in work is there; it has a task exactly from the moment one was stored. */
  lemma WorkFacts(states: seq<Dash>, events: seq<Event>)
    requires IsRun(states, events)
    ensures var d := states[|events|];
      match d.phase
      case Opened(_, _, row) => row in d.rows && d.rows[row].task.None? && d.rows[row].status == Running
      case Posted(_, _, row) => row in d.rows && d.rows[row].task.None? && d.rows[row].status == Running
      case Accepted(_, _, row, _) => row in d.rows && d.rows[row].task.None? && d.rows[row].status == Running
      case Polling(_, _, row, task) => row in d.rows && d.rows[row].task == Some(task) && d.rows[row].status == Running
      case AtTarget(plan, _, _) => forall g :: g in plan.adopt ==>
        && plan.adopt[g] in d.rows && d.rows[plan.adopt[g]].run == plan.run && d.rows[plan.adopt[g]].guest == g
        && d.rows[plan.adopt[g]].task.Some?
      case _ => true
  {
    RunIsPlayed(states, events);
  }

  lemma SettlingFacts(states: seq<Dash>, events: seq<Event>)
    requires IsRun(states, events) && states[|events|].phase.Settling?
    ensures var d := states[|events|]; d.phase.row in d.rows
  {
    RunIsPlayed(states, events);
    SettlingRow(states[|events|]);
  }

  lemma PendingFacts(states: seq<Dash>, events: seq<Event>)
    requires IsRun(states, events) && states[|events|].phase.Recovering?
    ensures var d := states[|events|]; forall r :: r in d.phase.pending ==> r in d.rows
  {
    RunIsPlayed(states, events);
    PendingStored(states[|events|]);
  }

  lemma PendingStored(d: Dash)
    requires Holding(Todo(d.runs, d.phase), d.rows, d.posts, d.phase, d.stopping) && d.phase.Recovering?
    ensures forall r :: r in d.phase.pending ==> r in d.rows
  {
  }

  lemma AcceptedFacts(states: seq<Dash>, events: seq<Event>)
    requires IsRun(states, events) && states[|events|].phase.Accepted?
    ensures var d := states[|events|]; d.phase.row in d.rows
  {
    RunIsPlayed(states, events);
    HeldIsStored(states[|events|]);
  }

  lemma TableFacts(states: seq<Dash>, events: seq<Event>)
    requires IsRun(states, events)
    ensures var d := states[|events|];
      (forall id :: id in d.runs ==> id < d.nextRun) && OneRowPerGuest(d.rows) && RowsOk(d.runs, d.rows, d.nextRow)
  {
    RunIsPlayed(states, events);
  }

  lemma NextRunIsNew(states: seq<Dash>, events: seq<Event>)
    requires IsRun(states, events)
    ensures states[|events|].nextRun !in states[|events|].runs
  {
    RunIsPlayed(states, events);
  }

  lemma OldestIsUnique(runs: map<RunId, Run>, a: RunId, b: RunId)
    requires IsOldestQueued(runs, a) && IsOldestQueued(runs, b)
    ensures a == b
  {
  }

  lemma ClaimTakes(d: Dash, id: RunId)
    requires d.phase.Idle? && !d.stopping && IsOldestQueued(d.runs, id)
    ensures ClaimNext(d) == d.(runs := d.runs[id := d.runs[id].(status := Executing)], phase := Planning(id))
  {
    forall other | IsOldestQueued(d.runs, other) ensures other == id { OldestIsUnique(d.runs, other, id); }
  }

  /** The same runs, each with the same targets. */
  ghost predicate SameTargets(a: map<RunId, Run>, b: map<RunId, Run>) {
    forall id :: id in a ==> id in b && b[id].targets == a[id].targets
  }

  class Runner {
    var runs: map<RunId, Run>
    var rows: map<RowId, Row>
    var nextRun: RunId
    var nextRow: RowId
    var cancelled: set<RunId>
    var stopping: bool
    var currentRun: Option<RunId>
    var currentTask: Option<TaskId>

    /** What others ask for, and whether an exception is raised, at each wait of the worker. */
    const requests: nat -> seq<Request>
    const faults: nat -> bool
    const grace: real
    var waits: nat

    ghost var phase: Phase
    ghost var posts: seq<RowId>
    ghost var closes: seq<RowId>
    ghost var endings: map<RunId, Ending>
    ghost var trace: seq<Event>
    ghost var states: seq<Dash>

    ghost function State(): Dash
      reads this
    {
      Dash(runs, rows, nextRun, nextRow, phase, cancelled, stopping, posts, closes, endings)
    }

    /** Everything that happened so far is a run of the machine. */
    ghost predicate Valid()
      reads this
    {
      IsRun(states, trace) && states[|trace|] == State()
    }

    constructor (requests: nat -> seq<Request>, faults: nat -> bool, grace: real)
      ensures Valid() && trace == [] && phase == Down && this.grace == grace
    {
      this.requests, this.faults, this.grace := requests, faults, grace;
      runs, rows, nextRun, nextRow, cancelled, stopping := map[], map[], 0, 0, {}, false;
      currentRun, currentTask, waits := None, None, 0;
      phase, posts, closes, endings, trace, states := Down, [], [], map[], [], [NEW_DASH];
    }

    /** What has been committed is what this step of the machine makes of the state before. */
    ghost predicate Did(e: Event, before: Dash)
      reads this
    {
      var n := Step(before, e);
      && runs == n.runs && rows == n.rows && nextRun == n.nextRun && nextRow == n.nextRow
      && cancelled == n.cancelled && stopping == n.stopping
    }

    /** One committed session was this step of the machine. */
    ghost method Track(e: Event)
      requires IsRun(states, trace) && Did(e, states[|trace|])
      modifies this`phase, this`posts, this`closes, this`endings, this`trace, this`states
      ensures Valid() && State() == Step(old(states)[|old(trace)|], e) && trace == old(trace) + [e]
    {
      var n := Step(states[|trace|], e);
      ExtendRun(states, trace, e);
      phase, posts, closes, endings, trace, states := n.phase, n.posts, n.closes, n.endings, trace + [e], states + [n];
    }

    // ---- others --------------------------------------------------------------------------

    method Serve(r: Request)
      requires Valid()
      modifies this
      ensures Valid() && phase == old(phase) && SameTargets(old(runs), runs)
      ensures currentRun == old(currentRun) && currentTask == old(currentTask) && waits == old(waits)
      ensures old(stopping) ==> stopping
      ensures State() == Step(old(State()), AsEvent(r)) && trace == old(trace) + [AsEvent(r)]
      ensures Grows(old(rows), rows) && OnlyRetired(old(rows), rows)
    {
      NextRunIsNew(states, trace);
      match r {
        case NewRun(targets) =>
          var distinct := AllDistinct(targets);
          if distinct {
            runs := runs[nextRun := Run(Queued, targets, 0, 0)];
            nextRun := nextRun + 1;
          }
        case Withdraw(run) =>
          if run in runs && runs[run].status == Queued { runs := runs[run := runs[run].(status := RunCancelled)]; }
        case RetireRow(row) =>
          if row in rows && rows[row].status == Success { rows := rows[row := rows[row].(status := Deleted)]; }
        case CancelRun(run) => cancelled := cancelled + {run};
        case Stop => stopping := true;
      }
      Track(AsEvent(r));
    }

    method AllDistinct(targets: seq<Guest>) returns (yes: bool)
      ensures yes <==> Distinct(targets)
    {
      var seen: set<Guest> := {};
      for i := 0 to |targets|
        invariant seen == set k | 0 <= k < i :: targets[k]
        invariant Distinct(targets[..i])
      {
        if targets[i] in seen { return false; }
        seen := seen + {targets[i]};
      }
      assert targets[..|targets|] == targets;
      return true;
    }

    /** The worker gives up control; whatever others asked for meanwhile happens, and what it was
        waiting for may raise an exception, having committed nothing. */
    method Await() returns (raised: bool)
      requires Valid()
      modifies this
      ensures Valid() && phase == old(phase) && SameTargets(old(runs), runs)
      ensures currentRun == old(currentRun) && currentTask == old(currentTask)
      ensures (old(stopping) ==> stopping) && old(trace) <= trace
      ensures Grows(old(rows), rows) && OnlyRetired(old(rows), rows)
      ensures raised == faults(old(waits))
    {
      var todo := requests(waits);
      for i := 0 to |todo|
        invariant Valid() && phase == old(phase) && SameTargets(old(runs), runs)
        invariant currentRun == old(currentRun) && currentTask == old(currentTask) && waits == old(waits)
        invariant (old(stopping) ==> stopping) && old(trace) <= trace
        invariant Grows(old(rows), rows) && OnlyRetired(old(rows), rows)
      {
        Serve(todo[i]);
      }
      raised := faults(waits);
      waits := waits + 1;
    }

    /** An exception may leave the executor here. */
    ghost predicate Working(run: RunId)
      reads this
    {
      Valid() && ActiveRun(phase) == Some(run) && run in runs && (phase.Finalising? ==> phase.ending != Error)
    }

    // ---- sessions of the worker ----------------------------------------------------------

    method FirstQueued() returns (id: RunId)
      requires forall k :: k in runs ==> k < nextRun
      ensures id <= nextRun && (id < nextRun ==> IsOldestQueued(runs, id))
      ensures id == nextRun ==> forall k :: k in runs ==> runs[k].status != Queued
    {
      id := 0;
      while id < nextRun && !(id in runs && runs[id].status == Queued)
        invariant id <= nextRun && forall k :: k in runs && runs[k].status == Queued ==> k >= id
      {
        id := id + 1;
      }
    }

    /** Take the oldest queued run off the queue. */
    method ClaimNextRun() returns (claimed: Option<RunId>)
      requires Valid() && phase.Idle? && !stopping
      modifies this
      ensures Valid()
      ensures claimed.None? ==> phase.Idle? && forall id :: id in runs ==> runs[id].status != Queued
      ensures claimed.Some? ==>
        IsOldestQueued(old(runs), claimed.value) && phase == Planning(claimed.value) && claimed.value in runs
      ensures State() == Step(old(State()), Claim) && trace == old(trace) + [Claim]
    {
      TableFacts(states, trace);
      var id := FirstQueued();
      if id == nextRun {
        Track(Claim);
        return None;
      }
      ClaimTakes(State(), id);
      runs := runs[id := runs[id].(status := Executing)];
      Track(Claim);
      return Some(id);
    }

    /** Which of the run's targets are done, and which rows may be adopted. */
    method ReadRows(run: RunId) returns (plan: Plan)
      requires OneRowPerGuest(rows) && forall r :: r in rows ==> r < nextRow
      ensures plan.run == run && PlanReads(rows, plan, nextRow)
    {
      var done: set<Guest> := {};
      var adopt: map<Guest, RowId> := map[];
      for r := 0 to nextRow
        invariant PlanReads(rows, Plan(run, done, adopt), r)
      {
        ReadOne(rows, Plan(run, done, adopt), r);
        if r in rows && rows[r].run == run {
          if rows[r].status == Running {
            adopt := adopt[rows[r].guest := r];
          } else {
            done := done + {rows[r].guest};
          }
        }
      }
      plan := Plan(run, done, adopt);
    }

    /** Load the run's plan, and forget an earlier request to cancel it. */
    method LoadPlan(run: RunId) returns (plan: Plan)
      requires Valid() && phase == Planning(run)
      modifies this`cancelled, this`phase, this`posts, this`closes, this`endings, this`trace, this`states
      ensures Valid() && phase == AtTarget(plan, 0, false) && PlanReads(rows, plan, nextRow) && plan.run == run
      ensures State() == Step(old(State()), Event.LoadPlan) && trace == old(trace) + [Event.LoadPlan]
    {
      TableFacts(states, trace);
      plan := ReadRows(run);
      PlanIsRead(State(), plan);
      cancelled := cancelled - {run};
      Track(Event.LoadPlan);
    }

    method BumpCounters(run: RunId, succeeded: bool)
      modifies this`runs
      ensures runs == if run !in old(runs) then old(runs)
                      else if succeeded then
                        old(runs)[run := old(runs)[run].(succeeded := old(runs)[run].succeeded + 1)]
                      else old(runs)[run := old(runs)[run].(failed := old(runs)[run].failed + 1)]
    {
      if run !in runs { return; }
      if succeeded {
        runs := runs[run := runs[run].(succeeded := runs[run].succeeded + 1)];
      } else {
        runs := runs[run := runs[run].(failed := runs[run].failed + 1)];
      }
    }

    /** Close a row and charge its run's counter, in one session, on the worker's verdict. */
    method SettleRow(row: RowId, s: RowStatus)
      requires Valid() && phase.Settling? && phase.row == row && s == VerdictStatus(phase.verdict)
      modifies this
      ensures Valid() && SameTargets(old(runs), runs) && stopping == old(stopping)
      ensures phase == match old(phase).after
        case NextTarget(plan, i) => AtTarget(plan, i + 1, false)
        case BackToRecovery(adoptable) => Recovering([], adoptable)
      ensures State() == Step(old(State()), Settle) && trace == old(trace) + [Settle]
      ensures Grows(old(rows), rows) && row in old(rows) && rows == old(rows)[row := old(rows)[row].(status := s)]
    {
      SettlingFacts(states, trace);
      var run := rows[row].run;
      rows := rows[row := rows[row].(status := s)];
      BumpCounters(run, s == Success);
      Track(Settle);
    }

    /** The same, as seen by the piece of work that has come to its end. */
    method CloseRow(row: RowId, s: RowStatus)
      requires Valid() && phase.Settling? && phase.row == row && s == VerdictStatus(phase.verdict)
      modifies this
      ensures Valid() && SameTargets(old(runs), runs) && old(trace) <= trace
      ensures phase == match old(phase).after
        case NextTarget(plan, i) => AtTarget(plan, i + 1, false)
        case BackToRecovery(adoptable) => Recovering([], adoptable)
      ensures Grows(old(rows), rows) && row in old(rows) && rows == old(rows)[row := old(rows)[row].(status := s)]
    {
      SettleRow(row, s);
    }

    // ---- one target ----------------------------------------------------------------------

    /** Pick up the row a previous process left behind, or create one. */
    method OpenBackup(plan: Plan, i: nat, guest: Guest) returns (row: RowId, task: Option<TaskId>)
      requires Valid() && phase.AtTarget? && phase.plan == plan && phase.index == i
      requires plan.run in runs && i < |runs[plan.run].targets| && runs[plan.run].targets[i] == guest
      requires !stopping && plan.run !in cancelled && guest !in plan.done
      modifies this
      ensures Valid() && SameTargets(old(runs), runs)
      ensures phase == if task.Some? then Polling(plan, i, row, task.value) else Opened(plan, i, row)
      ensures Grows(old(rows), rows) && row in rows && rows[row].run == plan.run && rows[row].guest == guest
      ensures rows[row].task == task && (task.Some? <==> guest in plan.adopt)
      ensures State() == Step(old(State()), VisitTarget) && trace == old(trace) + [VisitTarget]
    {
      WorkFacts(states, trace);
      TableFacts(states, trace);
      if guest in plan.adopt && plan.adopt[guest] in rows {
        row := plan.adopt[guest];
        task := rows[row].task;
      } else {
        row, task := nextRow, None;
        rows := rows[row := Row(plan.run, guest, Running, None)];
        nextRow := nextRow + 1;
      }
      Track(VisitTarget);
    }

    // Steps that move the worker on without changing a table.

    ghost method RequestLeaves()
      requires Valid() && phase.Opened?
      modifies this`phase, this`posts, this`closes, this`endings, this`trace, this`states
      ensures trace == old(trace) + [SendStart]
      ensures Valid() && phase == Posted(old(phase).plan, old(phase).index, old(phase).row)
    {
      Track(SendStart);
    }

    ghost method RequestFails()
      requires Valid() && (phase.Opened? || phase.Posted?)
      modifies this`phase, this`posts, this`closes, this`endings, this`trace, this`states
      ensures trace == old(trace) + [StartFailed]
      ensures Valid() && phase == Settling(old(phase).row, NotStarted, NextTarget(old(phase).plan, old(phase).index))
    {
      Track(StartFailed);
    }

    ghost method RequestAccepted(id: TaskId)
      requires Valid() && phase.Posted?
      modifies this`phase, this`posts, this`closes, this`endings, this`trace, this`states
      ensures trace == old(trace) + [StartAccepted(id)]
      ensures Valid() && phase == BackupRuns.Accepted(old(phase).plan, old(phase).index, old(phase).row, id)
    {
      Track(StartAccepted(id));
    }

    ghost method PollSays(v: Verdict)
      requires Valid() && phase.Polling? && (v.Reported? || v == Unknown)
      modifies this`phase, this`posts, this`closes, this`endings, this`trace, this`states
      ensures trace == old(trace) + [if v.Reported? then PollEnded(v.end) else PollGaveUp]
      ensures Valid() && phase == Settling(old(phase).row, v, NextTarget(old(phase).plan, old(phase).index))
    {
      if v.Reported? { Track(PollEnded(v.end)); } else { Track(PollGaveUp); }
    }

    ghost method PollIsStopped()
      requires Valid() && phase.Polling? && stopping
      modifies this`phase, this`posts, this`closes, this`endings, this`trace, this`states
      ensures trace == old(trace) + [PollStopped]
      ensures Valid() && phase == AtTarget(old(phase).plan, old(phase).index + 1, true)
    {
      Track(PollStopped);
    }

    /** A target that is done already is passed over. */
    ghost method PassOver()
      requires Valid() && phase.AtTarget? && !stopping && phase.plan.run in runs && phase.plan.run !in cancelled
      requires phase.index < |runs[phase.plan.run].targets|
        && runs[phase.plan.run].targets[phase.index] in phase.plan.done
      modifies this`phase, this`posts, this`closes, this`endings, this`trace, this`states
      ensures trace == old(trace) + [VisitTarget]
      ensures Valid() && phase == AtTarget(old(phase).plan, old(phase).index + 1, false)
    {
      Track(VisitTarget);
    }

    ghost method ExceptionEscapes(run: RunId)
      requires Working(run)
      modifies this`phase, this`posts, this`closes, this`endings, this`trace, this`states
      ensures trace == old(trace) + [ExecutorFails]
      ensures Valid() && phase == Finalising(run, Error)
    {
      Track(ExecutorFails);
    }

    /** The loop ends at the last target, or at a cancellation. */
    ghost method LeaveLoop()
      requires Valid() && phase.AtTarget? && phase.plan.run in runs
      requires phase.index >= |runs[phase.plan.run].targets| || (!stopping && phase.plan.run in cancelled)
      modifies this`phase, this`posts, this`closes, this`endings, this`trace, this`states
      ensures trace == old(trace) + [VisitTarget]
      ensures Valid() && phase == Finalising(old(phase).plan.run,
        if old(phase).index < |runs[old(phase).plan.run].targets| then CancelSeen
        else if old(phase).skipped then StoppedAtLast else Completed)
      ensures rows == old(rows) && runs == old(runs)
    {
      Track(VisitTarget);
    }

    /** Ask the agent to start. A refusal and a lost response both close the row as failed. */
    method StartAgentBackup(plan: Plan, i: nat, row: RowId, reply: StartReply)
      returns (task: Option<TaskId>, raised: bool)
      requires Valid() && phase == Opened(plan, i, row) && plan.run in runs
      modifies this
      ensures Valid() && SameTargets(old(runs), runs) && old(trace) <= trace
      ensures raised ==> Working(plan.run)
      ensures !raised ==>
        phase == if task.Some? then Polling(plan, i, row, task.value) else AtTarget(plan, i + 1, false)
      ensures Grows(old(rows), rows) && (!raised ==> row in old(rows) && row in rows)
      ensures !raised ==>
        if reply.Accepted? then task == Some(reply.task) && rows[row].task == task
        else task == None && rows[row].task == None && rows[row].status == Failed
    {
      task := None;
      if reply != NotSent {
        RequestLeaves();
        raised := Await();
        if raised { return; }
      }
      if reply.Accepted? {
        raised := AcceptBackup(plan, i, row, reply.task);
        if !raised { task := Some(reply.task); }
      } else {
        raised := FailBackup(row);
      }
    }

    method AcceptBackup(plan: Plan, i: nat, row: RowId, id: TaskId) returns (raised: bool)
      requires Valid() && phase == Posted(plan, i, row) && plan.run in runs
      modifies this
      ensures Valid() && SameTargets(old(runs), runs) && old(trace) <= trace && Grows(old(rows), rows)
      ensures raised ==> Working(plan.run)
      ensures !raised ==>
        phase == Polling(plan, i, row, id) && row in old(rows) && row in rows && rows[row].task == Some(id)
    {
      RequestAccepted(id);
      raised := Await();
      if !raised { StoreTask(plan, i, row, id); }
    }

    /** Close the row of the target at hand, and go on to the next. */
    method CloseTarget(row: RowId, s: RowStatus) returns (raised: bool)
      requires Valid() && phase.Settling? && phase.row == row && s == VerdictStatus(phase.verdict)
      requires phase.after.NextTarget? && phase.after.plan.run in runs
      requires row in rows && rows[row].status == Running
      modifies this
      ensures Valid() && SameTargets(old(runs), runs) && old(trace) <= trace && Grows(old(rows), rows)
      ensures raised ==> Working(old(phase).after.plan.run)
      ensures !raised ==>
        && phase == AtTarget(old(phase).after.plan, old(phase).after.index + 1, false)
        && row in rows && rows[row] == old(rows)[row].(status := s)
    {
      raised := Await();
      if !raised { CloseRow(row, s); }
    }

    method FailBackup(row: RowId) returns (raised: bool)
      requires Valid() && (phase.Opened? || phase.Posted?) && phase.row == row && phase.plan.run in runs
      modifies this
      ensures Valid() && SameTargets(old(runs), runs) && old(trace) <= trace
      ensures raised ==> Working(old(phase).plan.run)
      ensures !raised ==> phase == AtTarget(old(phase).plan, old(phase).index + 1, false)
      ensures Grows(old(rows), rows)
      ensures !raised ==> row in old(rows) && row in rows && rows[row].task == None && rows[row].status == Failed
    {
      WorkFacts(states, trace);
      RequestFails();
      raised := CloseTarget(row, Failed);
    }

    method StoreTask(plan: Plan, i: nat, row: RowId, id: TaskId)
      requires Valid() && phase == BackupRuns.Accepted(plan, i, row, id)
      modifies this
      ensures Valid() && SameTargets(old(runs), runs) && phase == Polling(plan, i, row, id)
      ensures State() == Step(old(State()), Event.StoreTask) && trace == old(trace) + [Event.StoreTask]
      ensures Grows(old(rows), rows) && row in old(rows) && row in rows && rows[row].task == Some(id)
    {
      AcceptedFacts(states, trace);
      rows := rows[row := rows[row].(task := Some(id))];
      Track(Event.StoreTask);
    }

    /** The process is gone; what it kept in memory goes with it. */
    method Die(ghost e: Event)
      requires Valid() && Step(State(), e) == GoDown(State())
      modifies this
      ensures Valid() && phase == Down && runs == old(runs) && rows == old(rows) && trace == old(trace) + [e]
    {
      cancelled, stopping, currentRun, currentTask := {}, false, None, None;
      Track(e);
    }

    /** Killed from outside. */
    method Perish()
      requires Valid()
      modifies this
      ensures Valid() && phase == Down && runs == old(runs) && rows == old(rows) && trace == old(trace) + [Crash]
    {
      Die(Crash);
    }

    /** Stopped between two runs. */
    method StopAtRest()
      requires Valid() && phase.Idle? && stopping
      modifies this
      ensures Valid() && phase == Down && runs == old(runs) && rows == old(rows) && trace == old(trace) + [Claim]
    {
      Die(Claim);
    }

    /** Stopped before a target. */
    method StopAtTarget()
      requires Valid() && phase.AtTarget? && stopping
      requires phase.plan.run in runs && phase.index < |runs[phase.plan.run].targets|
      modifies this
      ensures Valid() && phase == Down && runs == old(runs) && rows == old(rows) && trace == old(trace) + [VisitTarget]
    {
      Die(VisitTarget);
    }

    /** Where nobody catches an exception. */
    ghost predicate BeyondHelp()
      reads this
    {
      phase.Recovering? || (phase.Finalising? && phase.ending == Error)
        || (phase.Settling? && phase.after.BackToRecovery?)
    }

    method Collapse()
      requires Valid() && BeyondHelp()
      modifies this
      ensures Valid() && phase == Down && runs == old(runs) && rows == old(rows)
        && trace == old(trace) + [ExecutorFails]
    {
      Die(ExecutorFails);
    }

    /** Close the row of a task that is over, or that nobody could be asked about. */
    method RecordOutcome(row: RowId, verdict: Verdict) returns (raised: bool)
      requires Valid() && phase.Polling? && phase.row == row && phase.plan.run in runs
        && (verdict.Reported? || verdict == Unknown)
      modifies this
      ensures Valid() && SameTargets(old(runs), runs) && old(trace) <= trace
      ensures raised ==> Working(old(phase).plan.run)
      ensures !raised ==> phase == AtTarget(old(phase).plan, old(phase).index + 1, false)
      ensures Grows(old(rows), rows)
      ensures !raised ==> row in old(rows) && row in rows && rows[row].task == Some(old(phase).task)
      ensures !raised ==> rows[row].status == VerdictStatus(verdict)
    {
      WorkFacts(states, trace);
      PollSays(verdict);
      raised := CloseTarget(row, VerdictStatus(verdict));
    }

    /** One poll. `since` is when the present silence began; without a fate the executor polls again. */
    method PollOnce(plan: Plan, i: nat, row: RowId, task: TaskId, reply: PollReply, since: Option<real>)
      returns (next: Option<real>, fate: Option<Fate>)
      requires Valid() && phase == Polling(plan, i, row, task) && plan.run in runs
      modifies this
      ensures Valid() && SameTargets(old(runs), runs) && old(trace) <= trace && Grows(old(rows), rows)
      ensures match fate
        case None =>
          phase == Polling(plan, i, row, task) && !reply.Over? && next == Silence(reply, since)
          && (reply.NoAnswer? ==> reply.at - next.value <= grace)
        case Some(Killed) => false
        case Some(Raised) => Working(plan.run)
        case Some(GoesOn) =>
          && phase.AtTarget? && phase.plan == plan && phase.index == i + 1
          && if phase.skipped then stopping
             else row in rows && rows[row].task == Some(task) && ClosesAs(reply, rows[row].status)
                  && (reply.NoAnswer? ==> reply.at - Silence(reply, since).value > grace)
      ensures old(stopping) ==> fate == Some(Raised) || (fate == Some(GoesOn) && phase.AtTarget? && phase.skipped)
    {
      next, fate := since, None;
      var raised := Await();
      if raised { return next, Some(Raised); }
      if stopping {
        PollIsStopped();
        return next, Some(GoesOn);
      }
      match reply {
        case Pending => next := None;
        case Over(end) =>
          raised := RecordOutcome(row, Reported(end));
          fate := Some(if raised then Raised else GoesOn);
        case NoAnswer(at) =>
          if next.None? { next := Some(at); }
          if at - next.value > grace {
            raised := RecordOutcome(row, Unknown);
            fate := Some(if raised then Raised else GoesOn);
          }
      }
    }

    /** Follow a task until it ends, the agent stays silent too long, or the worker is stopped.
        A process that is killed on the way has polled only finitely often. */
    method PollToTerminal(plan: Plan, i: nat, row: RowId, task: TaskId, polls: seq<PollReply>) returns (fate: Fate)
      requires Valid() && phase == Polling(plan, i, row, task) && plan.run in runs
      modifies this
      ensures Valid() && SameTargets(old(runs), runs) && old(trace) <= trace && Grows(old(rows), rows)
      ensures match fate
        case Raised => Working(plan.run)
        case Killed => phase == Down && forall k: nat :: !EndsAt(polls, grace, k)
        case GoesOn =>
          && phase.AtTarget? && phase.plan == plan && phase.index == i + 1
          && if phase.skipped then stopping else
               row in rows && rows[row].task == Some(task) && PolledTo(polls, grace, rows[row].status)
      ensures old(stopping) && polls != [] ==> fate == Raised || (fate == GoesOn && phase.AtTarget? && phase.skipped)
    {
      var since: Option<real> := None;
      ghost var first: nat := 0;
      for k := 0 to |polls|
        invariant Valid() && phase == Polling(plan, i, row, task) && SameTargets(old(runs), runs) && old(trace) <= trace
        invariant Grows(old(rows), rows) && Listening(polls, grace, k, since, first)
        invariant old(stopping) ==> stopping && k == 0
      {
        Heard(polls, grace, k, since, first);
        if since.None? { first := k; }
        var next, ended := PollOnce(plan, i, row, task, polls[k], since);
        if ended.Some? { return ended.value; }
        since := next;
      }
      Perish();
      return Killed;
    }

    /** What is left after work on target `i`: the next one, no process, or an exception. */
    ghost predicate Leads(fate: Fate, plan: Plan, i: nat)
      reads this
    {
      match fate
      case GoesOn => Valid() && phase.AtTarget? && phase.plan == plan && phase.index == i + 1
      case Killed => Valid() && phase == Down
      case Raised => Working(plan.run)
    }

    /** The row a target is followed by, and the agent's task for it, adopted or just started. */
    method StartGuest(plan: Plan, i: nat, guest: Guest, reply: StartReply)
      returns (row: RowId, task: Option<TaskId>, raised: bool)
      requires Valid() && phase.AtTarget? && phase.plan == plan && phase.index == i
      requires plan.run in runs && i < |runs[plan.run].targets| && runs[plan.run].targets[i] == guest
      requires !stopping && plan.run !in cancelled && guest !in plan.done
      modifies this
      ensures Valid() && SameTargets(old(runs), runs) && old(trace) <= trace
      ensures raised ==> Working(plan.run)
      ensures !raised ==>
        && phase == (if task.Some? then Polling(plan, i, row, task.value) else AtTarget(plan, i + 1, false))
        && row in rows && rows[row].run == plan.run && rows[row].guest == guest
        && if guest in plan.adopt then task.Some?
           else if reply.Accepted? then task == Some(reply.task)
           else task == None && rows[row].task == None && rows[row].status == Failed
    {
      row, task := OpenBackup(plan, i, guest);
      raised := Await();
      if !raised && task.None? { task, raised := StartAgentBackup(plan, i, row, reply); }
    }

    method BackupGuest(plan: Plan, i: nat, guest: Guest, reply: StartReply, polls: seq<PollReply>) returns (fate: Fate)
      requires Valid() && phase.AtTarget? && phase.plan == plan && phase.index == i
      requires plan.run in runs && i < |runs[plan.run].targets| && runs[plan.run].targets[i] == guest
      requires !stopping && plan.run !in cancelled && guest !in plan.done
      modifies this
      ensures SameTargets(old(runs), runs) && old(trace) <= trace && Leads(fate, plan, i)
      ensures fate == GoesOn && !phase.skipped ==> Shown(rows, plan, guest, reply, polls, grace)
    {
      var row, task, raised := StartGuest(plan, i, guest, reply);
      if raised { return Raised; }
      if task.None? {
        assert ShownBy(rows[row], guest in plan.adopt, reply, polls, grace) by {
          assert Says(guest in plan.adopt, reply, polls, grace, Failed);
        }
        return GoesOn;
      }
      currentTask := task;
      fate := PollToTerminal(plan, i, row, task.value, polls);
      currentTask := None;
      if fate == GoesOn && !phase.skipped {
        assert ShownBy(rows[row], guest in plan.adopt, reply, polls, grace) by {
          assert Says(guest in plan.adopt, reply, polls, grace, rows[row].status);
        }
      }
    }

    /** Pass over a target that is done, or back it up. */
    method DoTarget(plan: Plan, i: nat, guest: Guest, reply: StartReply, polls: seq<PollReply>) returns (fate: Fate)
      requires Valid() && phase.AtTarget? && phase.plan == plan && phase.index == i
      requires plan.run in runs && i < |runs[plan.run].targets| && runs[plan.run].targets[i] == guest
      requires !stopping && plan.run !in cancelled
      modifies this
      ensures SameTargets(old(runs), runs) && old(trace) <= trace && Leads(fate, plan, i)
      ensures fate == GoesOn && !phase.skipped && guest !in plan.done ==> Shown(rows, plan, guest, reply, polls, grace)
    {
      if guest in plan.done {
        PassOver();
        return GoesOn;
      }
      fate := BackupGuest(plan, i, guest, reply, polls);
    }

    // ---- one run -------------------------------------------------------------------------

    method FinaliseRun(run: RunId, error: bool)
      requires Valid() && phase.Finalising? && phase.run == run && (error <==> phase.ending == Error)
      modifies this
      ensures Valid() && phase == Idle && (run in old(runs) ==> run in runs && RunOver(runs[run].status))
      ensures rows == old(rows) && SameTargets(old(runs), runs)
      ensures run in old(runs) ==> run in endings && endings[run] == old(phase).ending
      ensures run in old(runs) && run in old(cancelled) ==> runs[run].status == RunCancelled
      ensures run in old(runs) && run !in old(cancelled) && error ==> runs[run].status == RunFailed
      ensures State() == Step(old(State()), Finalise) && trace == old(trace) + [Finalise]
    {
      if run in runs {
        var status := if run in cancelled then RunCancelled
                      else if error then RunFailed
                      else Summarise(runs[run], rows, run);
        runs := runs[run := runs[run].(status := status)];
        cancelled := cancelled - {run};
      }
      Track(Finalise);
    }

    /** The run is over, the process is gone, or an exception is on its way out. */
    ghost predicate Ends(fate: Fate, run: RunId)
      reads this
    {
      match fate
      case GoesOn => Valid() && phase == Idle && run in runs && RunOver(runs[run].status)
      case Killed => Valid() && phase == Down
      case Raised => Working(run)
    }

    method EndRun(run: RunId) returns (fate: Fate)
      requires Valid() && phase.AtTarget? && phase.plan.run == run && run in runs
      requires phase.index >= |runs[run].targets| || (!stopping && run in cancelled)
      modifies this
      ensures Ends(fate, run) && fate != Killed && old(trace) <= trace
      ensures fate == GoesOn ==>
        && SameTargets(old(runs), runs) && run in endings
        && endings[run] == if old(phase).index < |old(runs)[run].targets| then CancelSeen
                           else if old(phase).skipped then StoppedAtLast else Completed
    {
      LeaveLoop();
      var raised := Await();
      if raised { return Raised; }
      FinaliseRun(run, false);
      return GoesOn;
    }

    /** What targets show goes on being shown. */
    lemma KeepsShowing(early: seq<Dash>, before: seq<Event>, plan: Plan, targets: seq<Guest>, n: nat, skipped: bool,
                       replies: nat -> StartReply, polls: nat -> seq<PollReply>)
      requires Valid() && IsRun(early, before) && before <= trace
      requires AllShown(early[|before|].rows, plan, targets, n, skipped, replies, polls, grace)
      ensures AllShown(rows, plan, targets, n, skipped, replies, polls, grace)
    {
      LastsSince(early, before, states, trace);
      AllShownLasts(early[|before|].rows, rows, plan, targets, n, skipped, replies, polls, grace);
    }

    /** A target is left behind only by a worker that has been told to stop. */
    lemma NotSkipped()
      requires Valid() && phase.AtTarget? && !stopping
      ensures !phase.skipped
    {
      RunIsPlayed(states, trace);
    }

    /** The loop over the targets. `replies` and `polls` are what the agent answers for each. */
    method VisitTargets(plan: Plan, targets: seq<Guest>, replies: nat -> StartReply, polls: nat -> seq<PollReply>)
      returns (fate: Fate)
      requires Valid() && phase == AtTarget(plan, 0, false) && plan.run in runs && runs[plan.run].targets == targets
      modifies this
      ensures old(trace) <= trace
      ensures match fate
        case GoesOn =>
          && Valid() && phase.AtTarget? && phase.plan == plan && plan.run in runs && runs[plan.run].targets == targets
          && (phase.index >= |targets| || (!stopping && plan.run in cancelled))
          && AllShown(rows, plan, targets, phase.index, phase.skipped, replies, polls, grace)
        case Killed => Valid() && phase == Down
        case Raised => Working(plan.run)
    {
      var i := 0;
      while i < |targets|
        invariant 0 <= i <= |targets| && Valid() && plan.run in runs && runs[plan.run].targets == targets
        invariant phase.AtTarget? && phase.plan == plan && phase.index == i && old(trace) <= trace
        invariant AllShown(rows, plan, targets, i, phase.skipped, replies, polls, grace)
      {
        ghost var early, before := states, trace;
        var raised := Await();
        if raised { return Raised; }
        if stopping {
          StopAtTarget();
          return Killed;
        }
        if plan.run in cancelled {
          KeepsShowing(early, before, plan, targets, i, phase.skipped, replies, polls);
          return GoesOn;
        }
        NotSkipped();
        KeepsShowing(early, before, plan, targets, i, phase.skipped, replies, polls);
        early, before := states, trace;
        fate := DoTarget(plan, i, targets[i], replies(i), polls(i));
        if fate != GoesOn { return; }
        KeepsShowing(early, before, plan, targets, i, false, replies, polls);
        i := i + 1;
      }
      return GoesOn;
    }

    /** A run, from its claim to its end, unless the process ends or an exception escapes first. */
    method ExecuteRun(run: RunId, replies: nat -> StartReply, polls: nat -> seq<PollReply>)
      returns (fate: Fate, ghost plan: Plan)
      requires Valid() && phase == Planning(run) && run in runs
      modifies this
      ensures Ends(fate, run) && old(trace) <= trace
      ensures fate == GoesOn ==>
        && run in endings && endings[run] in {Completed, StoppedAtLast, CancelSeen}
        && (endings[run] == Completed ==>
              AllShown(rows, plan, runs[run].targets, |runs[run].targets|, false, replies, polls, grace))
    {
      plan := Plan(run, {}, map[]);
      var raised := Await();
      if raised { return Raised, plan; }
      var loaded := LoadPlan(run);
      plan := loaded;
      currentRun := Some(run);
      fate := VisitTargets(loaded, runs[run].targets, replies, polls);
      if fate == GoesOn {
        ghost var early, before, n, skipped := states, trace, phase.index, phase.skipped;
        fate := EndRun(run);
        if fate == GoesOn { KeepsShowing(early, before, plan, runs[run].targets, n, skipped, replies, polls); }
      }
    }

    /** An exception left the executor: the run is finished as failed, or as cancelled if that was
        asked for. If that raises as well, nobody catches it and the worker is gone. */
    method FailRun(run: RunId)
      requires Working(run)
      modifies this
      ensures Ends(if phase == Down then Killed else GoesOn, run) && old(trace) <= trace
      ensures phase == Idle ==> runs[run].status == RunFailed || runs[run].status == RunCancelled
    {
      ExceptionEscapes(run);
      var raised := Await();
      if raised {
        Collapse();
        return;
      }
      FinaliseRun(run, true);
    }

    /** Execute a claimed run, and fail it if an exception escapes. */
    method TakeRun(run: RunId, replies: nat -> StartReply, polls: nat -> seq<PollReply>)
      requires Valid() && phase == Planning(run) && run in runs
      modifies this
      ensures Ends(if phase == Down then Killed else GoesOn, run) && old(trace) <= trace
      ensures currentRun == None && currentTask == None
    {
      var fate, plan := ExecuteRun(run, replies, polls);
      if fate == Raised { FailRun(run); }
      currentRun, currentTask := None, None;
    }

    /** One turn of the worker's loop. A claim that raises is tried again in a later turn. */
    method Turn(replies: nat -> StartReply, polls: nat -> seq<PollReply>)
      returns (ghost taken: Option<RunId>)
      requires Valid() && phase.Idle?
      modifies this
      ensures Valid() && (phase == Idle || phase == Down) && old(trace) <= trace
      ensures phase == Idle && taken.None? ==>
        faults(old(waits)) || forall id :: id in runs ==> runs[id].status != Queued
      ensures phase == Idle && taken.Some? ==> taken.value in runs && RunOver(runs[taken.value].status)
      ensures old(stopping) ==> phase == Down && taken.None?
    {
      taken := None;
      var raised := Await();
      if stopping {
        StopAtRest();
        return;
      }
      if raised { return; }
      var run := ClaimNextRun();
      if run.None? { return; }
      taken := run;
      TakeRun(run.value, replies, polls);
    }

    // ---- start-up ------------------------------------------------------------------------

    /** Reconcile what the previous process left behind. `scan` is the answer to the query for
        running rows; `replies(k)` is what the agent says about the k-th confirmed one. An exception
        leaves the worker unstarted. */
    method Recover(scan: seq<RowId>, replies: nat -> RecoverReply)
      returns (raised: bool, ghost asked: seq<RowId>)
      requires Valid() && phase == Down && ScanResult(rows, scan)
      modifies this
      ensures Valid() && phase == (if raised then Down else Idle) && old(trace) <= trace && Grows(old(rows), rows)
      ensures !raised ==> forall id :: id in runs ==> runs[id].status != Executing
      ensures !raised ==>
        forall r :: r in scan && old(rows)[r].task.None? ==> r in rows && rows[r].status == Interrupted
      ensures forall r :: r in asked <==> r in scan && old(rows)[r].task.Some?
      ensures !raised ==> RecoveredRows(rows, asked, |asked|, replies)
    {
      var pending, adoptable := Orphans(scan);
      asked := adoptable;
      raised := Reconcile(pending, adoptable, replies);
      if raised {
        Collapse();
      } else {
        RequeueRuns();
      }
    }

    /** Interrupt the one kind, ask about the other. */
    method Reconcile(pending: seq<RowId>, adoptable: seq<RowId>, replies: nat -> RecoverReply) returns (raised: bool)
      requires Valid() && phase == Recovering(pending, adoptable)
      modifies this
      ensures Valid() && old(trace) <= trace && Grows(old(rows), rows)
      ensures if raised then BeyondHelp() else phase == Recovering([], [])
      ensures !raised ==> forall r :: r in pending ==> r in rows && rows[r].status == Interrupted
      ensures !raised ==> RecoveredRows(rows, adoptable, |adoptable|, replies)
    {
      raised := InterruptAll(pending, adoptable);
      if raised { return; }
      ghost var early, before, first := states, trace, rows;
      raised := AskAll(adoptable, replies);
      LastsSince(early, before, states, trace);
      assert forall r :: r in first && Terminal(first[r].status) ==> r in rows && Final(first[r], rows[r]);
    }

    /** Split the rows left running into those never confirmed and those the agent may know. */
    method Orphans(scan: seq<RowId>) returns (pending: seq<RowId>, adoptable: seq<RowId>)
      requires Valid() && phase == Down && ScanResult(rows, scan)
      modifies this
      ensures Valid() && phase == Recovering(pending, adoptable) && trace == old(trace) + [Boot(scan)]
        && rows == old(rows)
      ensures forall r :: r in pending <==> r in scan && rows[r].task.None?
      ensures forall r :: r in adoptable <==> r in scan && rows[r].task.Some?
    {
      pending, adoptable := Unconfirmed(rows, scan), Confirmed(rows, scan);
      SplitScan(rows, scan);
      cancelled, stopping := {}, false;
      Track(Boot(scan));
    }

    method InterruptAll(pending: seq<RowId>, ghost adoptable: seq<RowId>) returns (raised: bool)
      requires Valid() && phase == Recovering(pending, adoptable)
      modifies this
      ensures Valid() && old(trace) <= trace && Grows(old(rows), rows)
      ensures if raised then BeyondHelp() else phase == Recovering([], adoptable)
      ensures !raised ==> forall r :: r in pending ==> r in rows && rows[r].status == Interrupted
    {
      for k := 0 to |pending|
        invariant Valid() && phase == Recovering(pending[k..], adoptable) && old(trace) <= trace
        invariant Grows(old(rows), rows)
        invariant forall r :: r in pending[..k] ==> r in rows && rows[r].status == Interrupted
      {
        raised := Await();
        if raised { return; }
        assert pending[k..][1..] == pending[k + 1..];
        InterruptOne(pending[k]);
      }
      return false;
    }

    method InterruptOne(row: RowId)
      requires Valid() && phase.Recovering? && phase.pending != [] && phase.pending[0] == row
      modifies this
      ensures Valid() && phase == Recovering(old(phase).pending[1..], old(phase).adoptable)
      ensures State() == Step(old(State()), RecoverPending) && trace == old(trace) + [RecoverPending]
      ensures Grows(old(rows), rows) && row in old(rows)
      ensures rows == old(rows)[row := old(rows)[row].(status := Interrupted)]
    {
      PendingFacts(states, trace);
      assert row in phase.pending;
      var run := rows[row].run;
      rows := rows[row := rows[row].(status := Interrupted)];
      BumpCounters(run, false);
      Track(RecoverPending);
    }

    /** The rows to ask about are running, and each is there once. */
    lemma AskedRowsRun()
      requires Valid() && phase.Recovering?
      ensures Distinct(phase.adoptable)
      ensures forall r :: r in phase.adoptable ==> r in rows && rows[r].status == Running
    {
      RunIsPlayed(states, trace);
    }

    method AskAll(adoptable: seq<RowId>, replies: nat -> RecoverReply) returns (raised: bool)
      requires Valid() && phase == Recovering([], adoptable)
      modifies this
      ensures Valid() && old(trace) <= trace && Grows(old(rows), rows)
      ensures if raised then BeyondHelp() else phase == Recovering([], [])
      ensures !raised ==> RecoveredRows(rows, adoptable, |adoptable|, replies)
    {
      AskedRowsRun();
      for k := 0 to |adoptable|
        invariant Valid() && phase == Recovering([], adoptable[k..]) && old(trace) <= trace && Grows(old(rows), rows)
        invariant RecoveredRows(rows, adoptable, k, replies)
      {
        ghost var before := rows;
        raised := Await();
        if raised { return; }
        RecoveredLasts(before, rows, adoptable, k, replies);
        assert adoptable[k..][1..] == adoptable[k + 1..];
        before := rows;
        raised := AskOne(adoptable[k], replies(k));
        if raised { return; }
        RecoveredNext(before, rows, adoptable, k, replies);
      }
      return false;
    }

    method SettleRecovered(row: RowId, verdict: Verdict) returns (raised: bool)
      requires Valid() && phase.Settling? && phase.row == row && phase.verdict == verdict && phase.after.BackToRecovery?
      modifies this
      ensures Valid() && old(trace) <= trace && Grows(old(rows), rows)
      ensures if raised then BeyondHelp() else phase == Recovering([], old(phase).after.adoptable)
      ensures Touches(old(rows), rows, row)
      ensures !raised ==> row in rows && rows[row].status == VerdictStatus(verdict)
    {
      raised := Await();
      if !raised { CloseRow(row, VerdictStatus(verdict)); }
    }

    /** Adopt the real outcome of a task that is over; leave one that is running to the executor. */
    method AskOne(row: RowId, reply: RecoverReply) returns (raised: bool)
      requires Valid() && phase.Recovering? && phase.pending == [] && phase.adoptable != [] && phase.adoptable[0] == row
      modifies this
      ensures Valid() && old(trace) <= trace && Grows(old(rows), rows)
      ensures if raised then BeyondHelp() else phase == Recovering([], old(phase).adoptable[1..])
      ensures Touches(old(rows), rows, row)
      ensures !raised ==> match reply
        case Forgotten => row in rows && rows[row].status == Interrupted
        case Ended(EndSuccess) => row in rows && rows[row].status == Success
        case Ended(EndFailed) => row in rows && rows[row].status == Failed
        case Ended(EndCancelled) => row in rows && rows[row].status == Cancelled
        case Ended(EndInterrupted) => row in rows && rows[row].status == Interrupted
        case _ => rows == old(rows) && runs == old(runs)
    {
      match reply {
        case Forgotten =>
          Track(RecoverForgotten);
          raised := SettleRecovered(row, Unknown);
        case StillRunning => Track(RecoverDeferred); raised := false;
        case NoAnswer => Track(RecoverDeferred); raised := false;
        case Ended(end) =>
          Track(RecoverEnded(end));
          raised := SettleRecovered(row, Reported(end));
      }
    }

    method RequeueAll()
      requires forall id :: id in runs ==> id < nextRun
      modifies this`runs
      ensures runs == Requeued(old(runs))
    {
      for id := 0 to nextRun
        invariant forall k :: k in runs <==> k in old(runs)
        invariant forall k :: k in runs ==> runs[k] == if k < id then Requeued(old(runs))[k] else old(runs)[k]
      {
        if id in runs && runs[id].status == Executing { runs := runs[id := runs[id].(status := Queued)]; }
      }
      assert runs == Requeued(old(runs));
    }

    method RequeueRuns()
      requires Valid() && phase == Recovering([], [])
      modifies this
      ensures Valid() && phase == Idle && runs == Requeued(old(runs))
      ensures State() == Step(old(State()), Requeue) && trace == old(trace) + [Requeue]
    {
      TableFacts(states, trace);
      RequeueAll();
      Track(Requeue);
    }
  }

  function Requeued(runs: map<RunId, Run>): map<RunId, Run> {
    map id | id in runs :: if runs[id].status == Executing then runs[id].(status := Queued) else runs[id]
  }

  /** A row of the run that a previous process left running. */
  predicate Adoptee(rows: map<RowId, Row>, run: RunId, r: RowId) {
    r in rows && rows[r].run == run && rows[r].status == Running
  }

  /** The plan accounts for the run's rows below `n`. */
  ghost predicate PlanReads(rows: map<RowId, Row>, plan: Plan, n: nat) {
    && (forall k: RowId :: k < n && k in rows && rows[k].run == plan.run && Terminal(rows[k].status) ==>
        rows[k].guest in plan.done)
    && (forall g :: g in plan.done ==> Finished(rows, plan.run, g))
    && (forall k: RowId :: k < n && Adoptee(rows, plan.run, k) ==>
        rows[k].guest in plan.adopt && plan.adopt[rows[k].guest] == k)
    && (forall g :: g in plan.adopt ==>
        plan.adopt[g] < n && Adoptee(rows, plan.run, plan.adopt[g]) && rows[plan.adopt[g]].guest == g)
  }

  ghost predicate Finished(rows: map<RowId, Row>, run: RunId, g: Guest) {
    exists k :: k in rows && rows[k].run == run && Terminal(rows[k].status) && rows[k].guest == g
  }

  lemma ReadOne(rows: map<RowId, Row>, plan: Plan, r: RowId)
    requires OneRowPerGuest(rows) && PlanReads(rows, plan, r)
    ensures PlanReads(rows,
      if r in rows && rows[r].run == plan.run then
        if rows[r].status == Running then plan.(adopt := plan.adopt[rows[r].guest := r])
        else plan.(done := plan.done + {rows[r].guest})
      else plan, r + 1)
  {
  }

  lemma PlanIsRead(d: Dash, plan: Plan)
    requires OneRowPerGuest(d.rows) && PlanReads(d.rows, plan, d.nextRow) && forall r :: r in d.rows ==> r < d.nextRow
    ensures PlanFor(d, plan.run) == plan
  {
    var p := PlanFor(d, plan.run);
    assert p.done == plan.done;
    forall g ensures g in p.adopt <==> g in plan.adopt {
      if g in plan.adopt { assert Adoptee(d.rows, plan.run, plan.adopt[g]); }
      if g in p.adopt {
        var r :| r in d.rows && d.rows[r].run == plan.run && d.rows[r].status == Running && d.rows[r].guest == g;
        assert Adoptee(d.rows, plan.run, r);
      }
    }
    forall g | g in p.adopt ensures p.adopt[g] == plan.adopt[g] {}
    assert p.adopt == plan.adopt;
  }

  lemma HeldIsStored(d: Dash)
    requires Holding(Todo(d.runs, d.phase), d.rows, d.posts, d.phase, d.stopping) && d.phase.Accepted?
    ensures d.phase.row in d.rows
  {
  }
}
