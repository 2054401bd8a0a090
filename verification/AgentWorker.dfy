/** The agent workers (`regnmed-agent`): any number of processes - queue workers
    and sweeps - claim, run and release tasks through one lease table, and write
    what happened to an append-only trail. Concurrency is interleaving: every
    statement against the database is one atomic step, and any process may take
    the next step. */
module AgentWorker {
  import opened Wrappers

  type Task = nat
  type Process = nat
  type Run = nat

  /** How long a claim is honoured, in the clock's minutes. */
  const CLAIM_TTL_MINUTES := 15

  datatype Status = Pagar | Sporsmal | Utfort | Avvist

  predicate IsTerminal(status: Status) {
    status == Utfort || status == Avvist
  }

  /** Who wrote a record: one run of the worker, or anybody else - a person in the
      portal, a client of the API. */
  datatype Author = ByRun(run: Run) | ByOther

  datatype Event = Event(task: Task, status: Status, author: Author)

  /** How far `run_task` has come: claimed and not looked at, found open, `pagar`
      written, or returned but not yet released. */
  datatype Stage = Claimed | FoundOpen | Working | Returned

  /** A process is idle, has a task in hand but no claim, or sits between a
      successful claim and its release. */
  datatype Phase =
    | Idle
    | Picked(task: Task)
    | Holding(task: Task, run: Run, since: int, stage: Stage)

  datatype State = State(
    now: int,
    leases: map<Task, int>,
    phases: map<Process, Phase>,
    trail: seq<Event>,
    nextRun: Run)

  /** A database call goes through, fails, or goes through while the caller is told
      that it failed. */
  datatype Reply = Answered | Lost | Failed

  datatype Action =
    | PickUp(p: Process, task: Task)
    | Claim(p: Process, reply: Reply)
    | ReadStatus(p: Process, readable: bool)
    | GiveUp(p: Process)
    | Start(p: Process, reply: Reply)
    | Conclude(p: Process, outcome: Status, reply: Reply)
    | Release(p: Process, reply: Reply)
    | Crash(p: Process)
    | Tick(minutes: nat)
    | Comment(task: Task, status: Status)

  function PhaseOf(s: State, p: Process): Phase {
    if p in s.phases then s.phases[p] else Idle
  }

  predicate Holds(s: State, p: Process, task: Task) {
    PhaseOf(s, p).Holding? && PhaseOf(s, p).task == task
  }

  predicate AtStage(s: State, p: Process, stage: Stage) {
    PhaseOf(s, p).Holding? && PhaseOf(s, p).stage == stage
  }

  // ---------- The trail ----------

  /** The newest record's status; `None` is "ny". */
  function StatusOf(trail: seq<Event>, task: Task): Option<Status> {
    if trail == [] then None
    else if trail[|trail| - 1].task == task then Some(trail[|trail| - 1].status)
    else StatusOf(trail[..|trail| - 1], task)
  }

  predicate IsClosed(trail: seq<Event>, task: Task) {
    var status := StatusOf(trail, task);
    status.Some? && IsTerminal(status.value)
  }

  /** The insert behind `answer`: the guard refuses a record on a closed task. */
  function Append(trail: seq<Event>, event: Event): seq<Event> {
    if IsClosed(trail, event.task) then trail else trail + [event]
  }

  /** What one run has written, oldest first. */
  function RecordsOf(trail: seq<Event>, run: Run): seq<Status> {
    if trail == [] then []
    else
      var last := trail[|trail| - 1];
      RecordsOf(trail[..|trail| - 1], run) + if last.author == ByRun(run) then [last.status] else []
  }

  /** Everything on one task's trail, oldest first. */
  function EventsOf(trail: seq<Event>, task: Task): seq<Event> {
    if trail == [] then []
    else
      var last := trail[|trail| - 1];
      EventsOf(trail[..|trail| - 1], task) + if last.task == task then [last] else []
  }

  // ---------- The lease table ----------

  /** The test of `claim_task`: no row, or one old enough to be abandoned. */
  predicate Grants(leases: map<Task, int>, task: Task, now: int) {
    task in leases ==> leases[task] < now - CLAIM_TTL_MINUTES
  }

  /** The table `agent_task_claim`. */
  class ClaimTable {
    var rows: map<Task, int>

    constructor ()
      ensures rows == map[]
    {
      rows := map[];
    }

    /** One statement: insert, or update a stale row, or nothing. */
    method ClaimTask(task: Task, now: int) returns (taken: bool)
      modifies this
      ensures taken <==> Grants(old(rows), task, now)
      ensures taken <==> task !in old(rows) || old(rows)[task] < now - 15
      ensures rows == if taken then old(rows)[task := now] else old(rows)
    {
      if task !in rows {
        rows := rows[task := now];
        taken := true;
      } else if rows[task] < now - CLAIM_TTL_MINUTES {
        rows := rows[task := now];
        taken := true;
      } else {
        taken := false;
      }
    }

    /** Deletes by task id: whoever holds the row, it is gone. */
    method ReleaseTask(task: Task)
      modifies this
      ensures rows == old(rows) - {task}
    {
      rows := rows - {task};
    }
  }

  // ---------- The steps ----------

  predicate Enabled(s: State, a: Action) {
    match a
    case PickUp(p, task) => PhaseOf(s, p).Idle?
    case Claim(p, reply) => PhaseOf(s, p).Picked?
    case ReadStatus(p, readable) => AtStage(s, p, Claimed)
    case GiveUp(p) => AtStage(s, p, FoundOpen)
    case Start(p, reply) => AtStage(s, p, FoundOpen)
    case Conclude(p, outcome, reply) => AtStage(s, p, Working) && outcome != Pagar
    case Release(p, reply) => AtStage(s, p, Returned)
    case Crash(p) => true
    case Tick(minutes) => true
    case Comment(task, status) => true
  }

  function SetPhase(s: State, p: Process, phase: Phase): State {
    s.(phases := s.phases[p := phase])
  }

  function SetStage(s: State, p: Process, stage: Stage): State
    requires PhaseOf(s, p).Holding?
  {
    SetPhase(s, p, PhaseOf(s, p).(stage := stage))
  }

  /** A record by the run of `p`; whether the caller carries on depends on the
      guard and on what it is told. */
  function Write(s: State, p: Process, status: Status, reply: Reply, carryOn: Stage): State
    requires PhaseOf(s, p).Holding?
  {
    var phase := PhaseOf(s, p);
    var refused := reply == Failed || IsClosed(s.trail, phase.task);
    var trail := if reply == Failed then s.trail else Append(s.trail, Event(phase.task, status, ByRun(phase.run)));
    SetStage(s, p, if refused || reply == Lost then Returned else carryOn).(trail := trail)
  }

  function Next(s: State, a: Action): State
    requires Enabled(s, a)
  {
    match a
    case PickUp(p, task) => SetPhase(s, p, Picked(task))
    case Claim(p, reply) =>
      var task := PhaseOf(s, p).task;
      if reply == Failed || !Grants(s.leases, task, s.now) then SetPhase(s, p, Idle)
      else
        var leased := s.(leases := s.leases[task := s.now]);
        if reply == Lost then SetPhase(leased, p, Idle)
        else SetPhase(leased, p, Holding(task, s.nextRun, s.now, Claimed)).(nextRun := s.nextRun + 1)
    case ReadStatus(p, readable) =>
      SetStage(s, p, if !readable || IsClosed(s.trail, PhaseOf(s, p).task) then Returned else FoundOpen)
    case GiveUp(p) => SetStage(s, p, Returned)
    case Start(p, reply) => Write(s, p, Pagar, reply, Working)
    case Conclude(p, outcome, reply) => Write(s, p, outcome, reply, Returned)
    case Release(p, reply) =>
      var leases := if reply == Failed then s.leases else s.leases - {PhaseOf(s, p).task};
      SetPhase(s, p, Idle).(leases := leases)
    case Crash(p) => SetPhase(s, p, Idle)
    case Tick(minutes) => s.(now := s.now + minutes)
    case Comment(task, status) => s.(trail := Append(s.trail, Event(task, status, ByOther)))
  }

  /** Who gets onto a task: a claim goes through if and only if the task has no row or one
      more than fifteen minutes old, and then the row is of this very minute. */
  lemma ClaimIsGrantedIff(s: State, p: Process)
    requires PhaseOf(s, p).Picked?
    ensures
      var t, task := Next(s, Claim(p, Answered)), PhaseOf(s, p).task;
      && (Holds(t, p, task) <==> task !in s.leases || s.leases[task] < s.now - 15)
      && t.leases == (if Holds(t, p, task) then s.leases[task := s.now] else s.leases)
      && (!Holds(t, p, task) ==> PhaseOf(t, p) == Idle) && t.trail == s.trail && t.now == s.now
  {
  }

  function WithReply(a: Action, reply: Reply): Action {
    match a
    case Claim(p, _) => Claim(p, reply)
    case Start(p, _) => Start(p, reply)
    case Conclude(p, outcome, _) => Conclude(p, outcome, reply)
    case Release(p, _) => Release(p, reply)
    case _ => a
  }

  /** What a call does to the database does not depend on whether its answer arrives; a call
      that fails does nothing to it; and a process that dies leaves its row behind. */
  lemma RepliesAndTheDatabase(s: State, a: Action, p: Process)
    requires Enabled(s, a) && (a.Claim? || a.Start? || a.Conclude? || a.Release?)
    ensures
      var lost, answered, failed := Next(s, WithReply(a, Lost)), Next(s, WithReply(a, Answered)),
        Next(s, WithReply(a, Failed));
      && lost.leases == answered.leases && lost.trail == answered.trail
      && failed.leases == s.leases && failed.trail == s.trail
      && (a.Claim? ==> !PhaseOf(lost, a.p).Holding? && !PhaseOf(failed, a.p).Holding?)
      && (a.Start? || a.Conclude? ==> AtStage(lost, a.p, Returned) && AtStage(failed, a.p, Returned))
      && (a.Release? ==> answered.leases == s.leases - {PhaseOf(s, a.p).task} && PhaseOf(failed, a.p) == Idle)
    ensures
      var dead := Next(s, Crash(p));
      dead.leases == s.leases && dead.trail == s.trail && PhaseOf(dead, p) == Idle
  {
    hide IsClosed, Append, Grants;
  }

  /** Every process idle; the lease table and the trail may hold anything that
      earlier processes left behind. */
  predicate IsInitial(s: State) {
    s.phases == map[] && s.nextRun == 0 && forall e | e in s.trail :: e.author == ByOther
  }

  /** One interleaving: `states[i + 1]` is `states[i]` after `actions[i]`. */
  ghost predicate Execution(states: seq<State>, actions: seq<Action>) {
    && |states| == |actions| + 1
    && IsInitial(states[0])
    && forall i | 0 <= i < |actions| :: Enabled(states[i], actions[i]) && states[i + 1] == Next(states[i], actions[i])
  }

  // ---------- Mutual exclusion ----------

  /** At most one process is between claim and release of any task. */
  ghost predicate Exclusive(s: State) {
    forall p, q, task | Holds(s, p, task) && Holds(s, q, task) :: p == q
  }

  predicate Succeeds(s: State, a: Action) {
    && a.Claim? && a.reply == Answered && PhaseOf(s, a.p).Picked?
    && Grants(s.leases, PhaseOf(s, a.p).task, s.now)
  }

  /** A process is on the task and its row in the lease table is older than the time a
      claim is honoured: what the operator sees in the table. */
  ghost predicate IsOverdue(s: State, task: Task) {
    && task in s.leases && s.leases[task] < s.now - CLAIM_TTL_MINUTES
    && exists p :: Holds(s, p, task)
  }

  /** A claim that goes through on an overdue task. */
  ghost predicate ClaimsOverdue(s: State, a: Action) {
    a.Claim? && a.reply == Answered && PhaseOf(s, a.p).Picked? && IsOverdue(s, PhaseOf(s, a.p).task)
  }

  /** Every holder's task has a row in the lease table, none older than its claim. */
  ghost predicate Covered(s: State) {
    forall p, task | Holds(s, p, task) ::
      task in s.leases && PhaseOf(s, p).since <= s.leases[task] <= s.now
  }

  /** A step makes at most one new holder, by a successful claim. */
  lemma HoldersBefore(s: State, a: Action, p: Process, task: Task)
    requires Enabled(s, a) && Holds(Next(s, a), p, task)
    ensures
      var t := Next(s, a);
      || (Holds(s, p, task) && PhaseOf(t, p).run == PhaseOf(s, p).run && PhaseOf(t, p).since == PhaseOf(s, p).since)
      || (Succeeds(s, a) && a.p == p && PhaseOf(s, p).task == task && !PhaseOf(s, p).Holding?
          && PhaseOf(t, p) == Holding(task, s.nextRun, s.now, Claimed) && t.leases == s.leases[task := s.now])
  {
    hide IsClosed, Append;
  }

  /** The lease is what keeps a second process out: while every holder has its row, no
      step but a claim on an overdue task makes a second holder. */
  lemma StepKeepsExclusion(s: State, a: Action)
    requires Enabled(s, a) && Exclusive(s) && Covered(s) && !ClaimsOverdue(s, a)
    ensures Exclusive(Next(s, a))
  {
    var t := Next(s, a);
    forall p: Process, q: Process, task: Task | Holds(t, p, task) && Holds(t, q, task) ensures p == q {
      HoldersBefore(s, a, p, task);
      HoldersBefore(s, a, q, task);
      hide Next;
    }
  }

  /** A row disappears only when its own holder releases it, or nobody holds it. */
  lemma StepKeepsCover(s: State, a: Action)
    requires Enabled(s, a) && Exclusive(s) && Covered(s)
    ensures Covered(Next(s, a))
  {
    hide IsClosed, Append;
    var t := Next(s, a);
    forall p: Process, task: Task | Holds(t, p, task)
      ensures task in t.leases && PhaseOf(t, p).since <= t.leases[task] <= t.now
    {
      HoldersBefore(s, a, p, task);
      if Holds(s, p, task) && a.Release? {
        assert Holds(s, a.p, PhaseOf(s, a.p).task);
      }
    }
  }

  lemma OverdueClaimBreaksExclusion(s: State, a: Action)
    requires Enabled(s, a) && ClaimsOverdue(s, a)
    ensures !Exclusive(Next(s, a))
  {
    var task := PhaseOf(s, a.p).task;
    var q :| Holds(s, q, task);
    assert Holds(Next(s, a), q, task) && Holds(Next(s, a), a.p, task) && q != a.p;
  }

  lemma {:induction false} ExclusiveUntilOverdueClaim(states: seq<State>, actions: seq<Action>, n: nat)
    requires Execution(states, actions) && n <= |actions|
    requires forall i | 0 <= i < n :: !ClaimsOverdue(states[i], actions[i])
    ensures Exclusive(states[n]) && Covered(states[n])
  {
    hide Exclusive, Covered, ClaimsOverdue, Next, Enabled;
    if n == 0 {
      InitiallyExclusive(states[0]);
    } else {
      ExclusiveUntilOverdueClaim(states, actions, n - 1);
      StepKeepsExclusion(states[n - 1], actions[n - 1]);
      StepKeepsCover(states[n - 1], actions[n - 1]);
    }
  }

  lemma InitiallyExclusive(s: State)
    requires IsInitial(s)
    ensures Exclusive(s) && Covered(s)
  {
  }

  /** Whatever the interleaving of workers, redeliveries, sweeps, crashes and failed
      database calls: one process per task at all times, if and only if no claim
      goes through on a task whose row had gone stale under a process still on it. */
  lemma OneProcessPerTaskIffNoOverdueClaim(states: seq<State>, actions: seq<Action>)
    requires Execution(states, actions)
    ensures (forall i | 0 <= i < |states| :: Exclusive(states[i]))
       <==> (forall i | 0 <= i < |actions| :: !ClaimsOverdue(states[i], actions[i]))
  {
    hide Exclusive, Covered, ClaimsOverdue, Next, Enabled;
    if forall i | 0 <= i < |actions| :: !ClaimsOverdue(states[i], actions[i]) {
      forall i | 0 <= i < |states| ensures Exclusive(states[i]) {
        ExclusiveUntilOverdueClaim(states, actions, i);
      }
    } else {
      var i :| 0 <= i < |actions| && ClaimsOverdue(states[i], actions[i]);
      OverdueClaimBreaksExclusion(states[i], actions[i]);
      assert states[i + 1] == Next(states[i], actions[i]);
    }
  }

  /** While the states are exclusive every holder has its row. */
  lemma ExclusiveMeansCovered(states: seq<State>, actions: seq<Action>)
    requires Execution(states, actions) && forall i | 0 <= i < |states| :: Exclusive(states[i])
    ensures Covered(states[|actions|])
  {
    hide Exclusive, Covered, ClaimsOverdue, Next, Enabled;
    OneProcessPerTaskIffNoOverdueClaim(states, actions);
    ExclusiveUntilOverdueClaim(states, actions, |actions|);
  }

  // ---------- When exactly the lease fails ----------

  /** An idle process is nudged for the task, or sweeps it, and claims it. */
  function ClaimedBy(s: State, r: Process, task: Task): State
    requires PhaseOf(s, r).Idle?
  {
    Next(Next(s, PickUp(r, task)), Claim(r, Answered))
  }

  /** The guard of the claim decides: from a state with one process per task, a nudge
      and a claim by an idle process put two on it if and only if it is overdue. */
  lemma ClaimOverlapsIffOverdue(s: State, r: Process, task: Task)
    requires Exclusive(s) && Covered(s) && PhaseOf(s, r).Idle?
    ensures !Exclusive(ClaimedBy(s, r, task)) <==> IsOverdue(s, task)
  {
    var s1 := Next(s, PickUp(r, task));
    assert forall p: Process, t: Task :: Holds(s1, p, t) <==> Holds(s, p, t);
    assert PhaseOf(s1, r) == Picked(task);
    if IsOverdue(s, task) {
      assert IsOverdue(s1, task);
      OverdueClaimBreaksExclusion(s1, Claim(r, Answered));
    } else {
      StepKeepsExclusion(s1, Claim(r, Answered));
    }
  }

  lemma SomeProcessIsIdle(s: State) returns (r: Process)
    ensures PhaseOf(s, r).Idle?
  {
    r := Above(s.phases.Keys);
  }

  lemma {:induction false} Above(ps: set<Process>) returns (r: Process)
    ensures forall p | p in ps :: p < r
  {
    if ps == {} {
      r := 0;
    } else {
      var p :| p in ps;
      var q := Above(ps - {p});
      r := if q > p then q else p + 1;
      assert forall x | x in ps :: x == p || x in ps - {p};
    }
  }

  /** Over whole runs: a run of the system that has kept one process per task so far is
      one nudge and one claim away from an overlap if and only if some task is
      overdue. */
  lemma OverlapIsOneClaimAwayIffOverdue(states: seq<State>, actions: seq<Action>)
    requires Execution(states, actions) && forall i | 0 <= i < |states| :: Exclusive(states[i])
    ensures
      var s := states[|actions|];
      && ((exists r: Process, task: Task :: PhaseOf(s, r).Idle? && !Exclusive(ClaimedBy(s, r, task)))
          <==> exists task: Task :: IsOverdue(s, task))
      && forall r: Process, task: Task | PhaseOf(s, r).Idle? ::
           Execution(states + [Next(s, PickUp(r, task)), ClaimedBy(s, r, task)],
                     actions + [PickUp(r, task), Claim(r, Answered)])
  {
    var s := states[|actions|];
    ExclusiveMeansCovered(states, actions);
    hide Exclusive, Covered, IsOverdue;
    forall r: Process, task: Task | PhaseOf(s, r).Idle?
      ensures !Exclusive(ClaimedBy(s, r, task)) <==> IsOverdue(s, task)
      ensures Execution(states + [Next(s, PickUp(r, task)), ClaimedBy(s, r, task)],
                        actions + [PickUp(r, task), Claim(r, Answered)])
    {
      ClaimOverlapsIffOverdue(s, r, task);
      ClaimExtends(states, actions, r, task);
    }
    var r := SomeProcessIsIdle(s);
    hide ClaimedBy;
    if task: Task :| IsOverdue(s, task) {
      assert !Exclusive(ClaimedBy(s, r, task));
    }
  }

  lemma ClaimExtends(states: seq<State>, actions: seq<Action>, r: Process, task: Task)
    requires Execution(states, actions) && PhaseOf(states[|actions|], r).Idle?
    ensures
      var s := states[|actions|];
      Execution(states + [Next(s, PickUp(r, task)), ClaimedBy(s, r, task)],
                actions + [PickUp(r, task), Claim(r, Answered)])
  {
    var s := states[|actions|];
    Extend(states, actions, [Next(s, PickUp(r, task)), ClaimedBy(s, r, task)], [PickUp(r, task), Claim(r, Answered)]);
  }

  /** Any run whatever that goes on for sixteen more minutes makes its task overdue, and
      so can be overlapped: there is no task on which the lease alone keeps a long run
      safe. */
  lemma LongRunsBecomeOverdue(states: seq<State>, actions: seq<Action>, p: Process, task: Task)
    requires Execution(states, actions) && forall i | 0 <= i < |states| :: Exclusive(states[i])
    requires Holds(states[|actions|], p, task)
    ensures
      var later := Next(states[|actions|], Tick(CLAIM_TTL_MINUTES + 1));
      && Execution(states + [later], actions + [Tick(CLAIM_TTL_MINUTES + 1)])
      && Exclusive(later) && IsOverdue(later, task)
  {
    ExclusiveMeansCovered(states, actions);
    var s, a := states[|actions|], Tick(CLAIM_TTL_MINUTES + 1);
    var later := Next(s, a);
    Extend(states, actions, [later], [a]);
    StepKeepsExclusion(s, a);
    assert Holds(later, p, task);
  }

  /** Nobody is on a task for longer than the lease lasts. */
  ghost predicate OnTime(s: State) {
    forall p, task | Holds(s, p, task) :: s.now <= PhaseOf(s, p).since + CLAIM_TTL_MINUTES
  }

  lemma NothingIsOverdueOnTime(s: State, a: Action)
    requires Covered(s) && OnTime(s)
    ensures !ClaimsOverdue(s, a)
  {
  }

  /** What the operator has to see to: if every run is over, released or dead, within
      fifteen minutes of its claim, there is never more than one on a task. */
  lemma {:induction false} RunsInTimeNeverOverlap(states: seq<State>, actions: seq<Action>, n: nat)
    requires Execution(states, actions) && n <= |actions|
    requires forall i | 0 <= i < n :: OnTime(states[i])
    ensures Exclusive(states[n])
    ensures forall i | 0 <= i < n :: !ClaimsOverdue(states[i], actions[i])
  {
    hide Exclusive, Covered, OnTime, ClaimsOverdue, Next, Enabled;
    if n > 0 {
      RunsInTimeNeverOverlap(states, actions, n - 1);
      ExclusiveUntilOverdueClaim(states, actions, n - 1);
      NothingIsOverdueOnTime(states[n - 1], actions[n - 1]);
    }
    ExclusiveUntilOverdueClaim(states, actions, n);
  }

  // ---------- The trail of one run ----------

  ghost predicate IsLive(s: State, run: Run) {
    exists p :: PhaseOf(s, p).Holding? && PhaseOf(s, p).run == run && PhaseOf(s, p).stage != Returned
  }

  /** Nothing; a `pagar`; or a `pagar` and one outcome. */
  predicate IsRunsRecord(records: seq<Status>) {
    || records == []
    || records == [Pagar]
    || (|records| == 2 && records[0] == Pagar && records[1] != Pagar)
  }

  /** Runs are numbered in claim order and what each has written fits its stage. */
  ghost predicate RunsInOrder(s: State) {
    && (forall p | PhaseOf(s, p).Holding? :: PhaseOf(s, p).run < s.nextRun)
    && (forall p, q | PhaseOf(s, p).Holding? && PhaseOf(s, q).Holding? && PhaseOf(s, p).run == PhaseOf(s, q).run ::
        p == q)
  }

  ghost predicate RecordsFit(s: State) {
    && (forall run | run >= s.nextRun :: RecordsOf(s.trail, run) == [])
    && (forall run :: IsRunsRecord(RecordsOf(s.trail, run)))
    && (forall p | AtStage(s, p, Claimed) || AtStage(s, p, FoundOpen) :: RecordsOf(s.trail, PhaseOf(s, p).run) == [])
    && (forall p | AtStage(s, p, Working) :: RecordsOf(s.trail, PhaseOf(s, p).run) == [Pagar])
  }

  /** The one record a step may add, and whose it is. */
  function Recorded(s: State, a: Action): Option<Event> {
    match a
    case Start(p, reply) =>
      if PhaseOf(s, p).Holding? && reply != Failed then Some(Event(PhaseOf(s, p).task, Pagar, ByRun(PhaseOf(s, p).run)))
      else None
    case Conclude(p, outcome, reply) =>
      if PhaseOf(s, p).Holding? && reply != Failed then Some(Event(PhaseOf(s, p).task, outcome,
                                                                   ByRun(PhaseOf(s, p).run)))
      else None
    case Comment(task, status) => Some(Event(task, status, ByOther))
    case _ => None
  }

  lemma StepAppends(s: State, a: Action)
    requires Enabled(s, a)
    ensures Next(s, a).trail
         == match Recorded(s, a) case Some(event) => Append(s.trail, event) case None => s.trail
  {
    hide IsClosed, Grants;
  }

  lemma RecordsAfterAppend(trail: seq<Event>, event: Event, run: Run)
    ensures RecordsOf(Append(trail, event), run)
         == RecordsOf(trail, run)
          + if !IsClosed(trail, event.task) && event.author == ByRun(run) then [event.status] else []
  {
    hide IsClosed;
    assert (trail + [event])[..|trail|] == trail;
  }

  lemma StepNumbersRuns(s: State, a: Action)
    requires Enabled(s, a) && RunsInOrder(s)
    ensures RunsInOrder(Next(s, a))
    ensures Next(s, a).nextRun == if Succeeds(s, a) then s.nextRun + 1 else s.nextRun
  {
    hide IsClosed, Append, Grants;
    var t := Next(s, a);
    forall p: Process | PhaseOf(t, p).Holding? ensures PhaseOf(t, p).run < t.nextRun {
      HoldersBefore(s, a, p, PhaseOf(t, p).task);
    }
    forall p: Process, q: Process |
      PhaseOf(t, p).Holding? && PhaseOf(t, q).Holding? && PhaseOf(t, p).run == PhaseOf(t, q).run
      ensures p == q
    {
      HoldersBefore(s, a, p, PhaseOf(t, p).task);
      HoldersBefore(s, a, q, PhaseOf(t, q).task);
    }
  }

  lemma {:induction false} RunsAreInOrder(states: seq<State>, actions: seq<Action>, n: nat)
    requires Execution(states, actions) && n <= |actions|
    ensures RunsInOrder(states[n])
  {
    hide Next, Enabled;
    if n > 0 {
      RunsAreInOrder(states, actions, n - 1);
      hide RunsInOrder;
      StepNumbersRuns(states[n - 1], actions[n - 1]);
    }
  }

  /** A process keeps its run and moves on by at most one stage: it works only after
      `pagar` went through. */
  lemma StageBefore(s: State, a: Action, p: Process)
    requires Enabled(s, a) && PhaseOf(Next(s, a), p).Holding?
    requires !(Succeeds(s, a) && a.p == p)
    ensures
      var stage, now := PhaseOf(s, p), PhaseOf(Next(s, a), p);
      && stage.Holding? && stage.run == now.run
      && (now.stage == Claimed ==> stage.stage == Claimed)
      && (now.stage == FoundOpen ==> stage.stage in {Claimed, FoundOpen})
      && (now.stage == Working ==>
            || stage.stage == Working
            || (stage.stage == FoundOpen && a == Start(p, Answered) && !IsClosed(s.trail, now.task)
                && stage.task == now.task))
  {
    hide Append, Grants, IsClosed;
  }

  lemma RecordsStayShaped(s: State, a: Action, run: Run)
    requires Enabled(s, a) && RunsInOrder(s) && RecordsFit(s)
    ensures IsRunsRecord(RecordsOf(Next(s, a).trail, run))
    ensures run >= Next(s, a).nextRun ==> RecordsOf(Next(s, a).trail, run) == []
  {
    StepAppends(s, a);
    StepNumbersRuns(s, a);
    if Recorded(s, a).Some? {
      RecordsAfterAppend(s.trail, Recorded(s, a).value, run);
      if Recorded(s, a).value.author == ByRun(run) {
        WriterIsLive(s, a, run);
        assert RecordsOf(s.trail, run) == if a.Start? then [] else [Pagar];
        assert Recorded(s, a).value.status == Pagar <==> a.Start?;
      }
    }
    hide Next, IsClosed, Append, RecordsOf, Enabled, RunsInOrder, Recorded;
  }

  lemma RecordsFitStage(s: State, a: Action, p: Process)
    requires Enabled(s, a) && RunsInOrder(s) && RecordsFit(s)
    requires PhaseOf(Next(s, a), p).Holding?
    ensures
      var now := PhaseOf(Next(s, a), p);
      && (now.stage in {Claimed, FoundOpen} ==> RecordsOf(Next(s, a).trail, now.run) == [])
      && (now.stage == Working ==> RecordsOf(Next(s, a).trail, now.run) == [Pagar])
  {
    var now := PhaseOf(Next(s, a), p);
    StepAppends(s, a);
    if Recorded(s, a).Some? {
      RecordsAfterAppend(s.trail, Recorded(s, a).value, now.run);
    }
    if !(Succeeds(s, a) && a.p == p) {
      StageBefore(s, a, p);
    }
    hide IsClosed, Append, RecordsOf, Grants;
  }

  lemma StepKeepsRecords(s: State, a: Action)
    requires Enabled(s, a) && RunsInOrder(s) && RecordsFit(s)
    ensures RecordsFit(Next(s, a))
  {
    hide Next, IsClosed, Append, RecordsOf, Grants, Enabled;
    var t := Next(s, a);
    forall run: Run
      ensures IsRunsRecord(RecordsOf(t.trail, run))
      ensures run >= t.nextRun ==> RecordsOf(t.trail, run) == []
    {
      RecordsStayShaped(s, a, run);
    }
    forall p: Process | PhaseOf(t, p).Holding?
      ensures AtStage(t, p, Claimed) || AtStage(t, p, FoundOpen) ==> RecordsOf(t.trail, PhaseOf(t, p).run) == []
      ensures AtStage(t, p, Working) ==> RecordsOf(t.trail, PhaseOf(t, p).run) == [Pagar]
    {
      RecordsFitStage(s, a, p);
    }
  }

  lemma NothingRecordedYet(trail: seq<Event>, run: Run)
    requires forall e | e in trail :: e.author == ByOther
    ensures RecordsOf(trail, run) == []
  {
    if trail != [] {
      assert trail[|trail| - 1] in trail;
      NothingRecordedYet(trail[..|trail| - 1], run);
    }
  }

  /** In every interleaving, with or without mutual exclusion: what one run leaves on
      the trail is nothing, its `pagar`, or its `pagar` and exactly one outcome. */
  lemma {:induction false} EveryRunWritesAtMostOneOutcome(states: seq<State>, actions: seq<Action>, n: nat)
    requires Execution(states, actions) && n <= |actions|
    ensures RecordsFit(states[n])
    ensures forall run :: IsRunsRecord(RecordsOf(states[n].trail, run))
  {
    hide Next, Enabled, RunsInOrder;
    if n == 0 {
      forall run: Run ensures RecordsOf(states[0].trail, run) == [] {
        NothingRecordedYet(states[0].trail, run);
      }
    } else {
      EveryRunWritesAtMostOneOutcome(states, actions, n - 1);
      RunsAreInOrder(states, actions, n - 1);
      hide RecordsFit;
      StepKeepsRecords(states[n - 1], actions[n - 1]);
      assert RecordsFit(states[n]);
      StageOfRecords(states[n]);
    }
  }

  lemma StageOfRecords(s: State)
    requires RecordsFit(s)
    ensures forall run :: IsRunsRecord(RecordsOf(s.trail, run))
  {
  }

  // ---------- A run that is over ----------

  ghost predicate IsOver(s: State, run: Run) {
    run < s.nextRun && !IsLive(s, run)
  }

  lemma WriterIsLive(s: State, a: Action, run: Run)
    requires Enabled(s, a) && Recorded(s, a).Some? && Recorded(s, a).value.author == ByRun(run)
    ensures IsLive(s, run) && a.p in s.phases && Holds(s, a.p, Recorded(s, a).value.task) && PhaseOf(s, a.p).run == run
  {
  }

  /** A run that has returned, crashed or been released never writes again. */
  lemma OverStaysOver(s: State, a: Action, run: Run)
    requires Enabled(s, a) && IsOver(s, run)
    ensures IsOver(Next(s, a), run) && RecordsOf(Next(s, a).trail, run) == RecordsOf(s.trail, run)
  {
    StepAppends(s, a);
    var event := Recorded(s, a);
    if event.Some? {
      if event.value.author == ByRun(run) {
        WriterIsLive(s, a, run);
      }
      RecordsAfterAppend(s.trail, event.value, run);
    }
    StepRevivesNoRun(s, a);
  }

  lemma StepRevivesNoRun(s: State, a: Action)
    requires Enabled(s, a)
    ensures s.nextRun <= Next(s, a).nextRun
    ensures forall run: Run | run < s.nextRun && IsLive(Next(s, a), run) :: IsLive(s, run)
  {
    hide IsClosed, Append, Grants;
    forall run: Run | run < s.nextRun && IsLive(Next(s, a), run) ensures IsLive(s, run) {
      var p: Process :| PhaseOf(Next(s, a), p).Holding? && PhaseOf(Next(s, a), p).run == run
                        && PhaseOf(Next(s, a), p).stage != Returned;
      assert PhaseOf(s, p).Holding? && PhaseOf(s, p).run == run && PhaseOf(s, p).stage != Returned;
    }
  }

  lemma {:induction false} OverForGood(states: seq<State>, actions: seq<Action>, i: nat, j: nat, run: Run)
    requires Execution(states, actions) && i <= j <= |actions| && IsOver(states[i], run)
    ensures IsOver(states[j], run) && RecordsOf(states[j].trail, run) == RecordsOf(states[i].trail, run)
    decreases j
  {
    hide IsOver, Next, Enabled, RecordsOf;
    if i < j {
      OverForGood(states, actions, i, j - 1, run);
      OverStaysOver(states[j - 1], actions[j - 1], run);
    }
  }

  // ---------- Which statuses close a task ----------

  /** The newest record on a task decides its status. */
  lemma {:induction false} NewestDecides(trail: seq<Event>, task: Task, i: nat)
    requires i < |trail| && trail[i].task == task && forall j | i < j < |trail| :: trail[j].task != task
    ensures StatusOf(trail, task) == Some(trail[i].status)
  {
    if i < |trail| - 1 {
      NewestDecides(trail[..|trail| - 1], task, i);
    }
  }

  lemma {:induction false} NoRecordNoStatus(trail: seq<Event>, task: Task)
    ensures StatusOf(trail, task) == None <==> forall i | 0 <= i < |trail| :: trail[i].task != task
  {
    if trail != [] {
      NoRecordNoStatus(trail[..|trail| - 1], task);
    }
  }

  /** A run that has read its task goes on if and only if it could, and there is no record on
      the task or the newest one is `pagar` or `sporsmal`. */
  lemma RunGoesOnIff(s: State, p: Process, readable: bool)
    requires AtStage(s, p, Claimed)
    ensures
      var t := Next(s, ReadStatus(p, readable));
      && (AtStage(t, p, FoundOpen) <==>
            readable && StatusOf(s.trail, PhaseOf(s, p).task) in {None, Some(Pagar), Some(Sporsmal)})
      && (!AtStage(t, p, FoundOpen) ==> AtStage(t, p, Returned))
  {
  }

  /** On one task, nothing comes after a `utfort` or an `avvist`. */
  ghost predicate NothingAfterTheEnd(trail: seq<Event>) {
    forall i, j | 0 <= i < j < |trail| && trail[i].task == trail[j].task ::
      trail[i].status != Utfort && trail[i].status != Avvist
  }

  lemma {:induction false} AnyEndIsTheStatus(trail: seq<Event>, i: nat)
    requires NothingAfterTheEnd(trail) && i < |trail| && trail[i].status in {Utfort, Avvist}
    ensures StatusOf(trail, trail[i].task) in {Some(Utfort), Some(Avvist)}
  {
    NewestDecides(trail, trail[i].task, i);
  }

  lemma AppendKeepsTheEnd(trail: seq<Event>, event: Event)
    requires NothingAfterTheEnd(trail)
    ensures NothingAfterTheEnd(Append(trail, event))
  {
    var more := Append(trail, event);
    forall i, j | 0 <= i < j < |more| && more[i].task == more[j].task
      ensures more[i].status != Utfort && more[i].status != Avvist
    {
      if j == |trail| && more[i].status in {Utfort, Avvist} {
        AnyEndIsTheStatus(trail, i);
      } else if j < |trail| {
        assert more[i] == trail[i] && more[j] == trail[j];
      }
    }
  }

  /** In every execution: once a task's trail has a `utfort` or an `avvist`, no record is
      added to it, by whomever. */
  lemma {:induction false} NothingFollowsTheEnd(states: seq<State>, actions: seq<Action>, n: nat)
    requires Execution(states, actions) && n <= |actions| && NothingAfterTheEnd(states[0].trail)
    ensures NothingAfterTheEnd(states[n].trail)
  {
    if n > 0 {
      hide NothingAfterTheEnd, Next, Append;
      NothingFollowsTheEnd(states, actions, n - 1);
      StepAppends(states[n - 1], actions[n - 1]);
      if Recorded(states[n - 1], actions[n - 1]).Some? {
        AppendKeepsTheEnd(states[n - 1].trail, Recorded(states[n - 1], actions[n - 1]).value);
      }
    }
  }

  /** A run that reads `utfort` or `avvist` writes nothing, then or later. */
  lemma RunThatFindsTheTaskClosedWritesNothing(states: seq<State>, actions: seq<Action>, i: nat, j: nat)
    requires Execution(states, actions) && i < j <= |actions| && actions[i].ReadStatus?
    requires
      var p := actions[i].p;
      && PhaseOf(states[i], p).Holding?
      && StatusOf(states[i].trail, PhaseOf(states[i], p).task) in {Some(Utfort), Some(Avvist)}
    ensures RecordsOf(states[j].trail, PhaseOf(states[i], actions[i].p).run) == []
  {
    hide RecordsOf, Grants, Append;
    var s, p := states[i], actions[i].p;
    var run := PhaseOf(s, p).run;
    EveryRunWritesAtMostOneOutcome(states, actions, i);
    RunsAreInOrder(states, actions, i);
    RunsAreInOrder(states, actions, i + 1);
    assert states[i + 1] == Next(s, actions[i]);
    assert AtStage(states[i + 1], p, Returned) && PhaseOf(states[i + 1], p).run == run;
    OverForGood(states, actions, i + 1, j, run);
  }

  /** A closed task is closed for good: nobody adds to its trail. */
  lemma StepKeepsClosed(s: State, a: Action, task: Task)
    requires Enabled(s, a) && IsClosed(s.trail, task)
    ensures IsClosed(Next(s, a).trail, task) && EventsOf(Next(s, a).trail, task) == EventsOf(s.trail, task)
  {
    StepAppends(s, a);
    hide Next;
    if Recorded(s, a).Some? {
      assert (s.trail + [Recorded(s, a).value])[..|s.trail|] == s.trail;
    }
  }

  lemma {:induction false} ClosedIsFinal(states: seq<State>, actions: seq<Action>, i: nat, j: nat, task: Task)
    requires Execution(states, actions) && i <= j <= |actions|
    requires StatusOf(states[i].trail, task) in {Some(Utfort), Some(Avvist)}
    ensures StatusOf(states[j].trail, task) in {Some(Utfort), Some(Avvist)}
    ensures EventsOf(states[j].trail, task) == EventsOf(states[i].trail, task)
    decreases j
  {
    hide StatusOf, EventsOf, Next, Enabled;
    if i < j {
      ClosedIsFinal(states, actions, i, j - 1, task);
      StepKeepsClosed(states[j - 1], actions[j - 1], task);
    }
  }

  // ---------- No other worker in between ----------

  /** On one task no other run's record lies between two records of a run. */
  ghost predicate RunsDoNotInterleave(trail: seq<Event>) {
    forall i, j, k | 0 <= i < j < k < |trail| && trail[i].task == trail[j].task == trail[k].task
      && trail[i].author.ByRun? && trail[i].author == trail[k].author && trail[j].author.ByRun? ::
      trail[j].author == trail[i].author
  }

  /** A run that another run has written after, on the same task, is over. */
  ghost predicate OvertakenIsOver(s: State) {
    forall i, j | 0 <= i < j < |s.trail| && s.trail[i].task == s.trail[j].task
      && s.trail[i].author.ByRun? && s.trail[j].author.ByRun? && s.trail[i].author != s.trail[j].author ::
      IsOver(s, s.trail[i].author.run)
  }

  ghost predicate AuthorsAreKnown(s: State) {
    forall e | e in s.trail && e.author.ByRun? :: e.author.run < s.nextRun
  }

  /** The worker's records of a live run name the task it holds. */
  ghost predicate RecordsNameTheTask(s: State) {
    forall e, p | e in s.trail && PhaseOf(s, p).Holding? && e.author == ByRun(PhaseOf(s, p).run) ::
      e.task == PhaseOf(s, p).task
  }

  lemma NamesSurvive(s: State, a: Action)
    requires Enabled(s, a) && RunsInOrder(s) && AuthorsAreKnown(s) && RecordsNameTheTask(s)
    ensures AuthorsAreKnown(Next(s, a)) && RecordsNameTheTask(Next(s, a))
  {
    var t := Next(s, a);
    StepAppends(s, a);
    StepNumbersRuns(s, a);
    forall e | e in t.trail && e.author.ByRun? ensures e.author.run < t.nextRun {
      hide Next, IsClosed, Grants;
      if e !in s.trail {
        WriterIsLive(s, a, e.author.run);
      }
    }
    forall e, p: Process | e in t.trail && PhaseOf(t, p).Holding? && e.author == ByRun(PhaseOf(t, p).run)
      ensures e.task == PhaseOf(t, p).task
    {
      HoldersBefore(s, a, p, PhaseOf(t, p).task);
      hide Next, IsClosed, Grants;
      if e !in s.trail {
        WriterIsLive(s, a, e.author.run);
      }
    }
  }

  /** Whoever else has written on the task of a live writer is over. */
  lemma OtherWritersAreOver(s: State, p: Process, e: Event)
    requires Exclusive(s) && AuthorsAreKnown(s) && RecordsNameTheTask(s)
    requires Holds(s, p, e.task) && e in s.trail && e.author.ByRun? && e.author.run != PhaseOf(s, p).run
    ensures IsOver(s, e.author.run)
  {
    if IsLive(s, e.author.run) {
      var q :| PhaseOf(s, q).Holding? && PhaseOf(s, q).run == e.author.run && PhaseOf(s, q).stage != Returned;
      assert Holds(s, q, e.task);
    }
  }

  lemma OvertakenStaysOver(s: State, a: Action)
    requires Enabled(s, a) && Exclusive(s)
    requires AuthorsAreKnown(s) && RecordsNameTheTask(s) && OvertakenIsOver(s)
    ensures OvertakenIsOver(Next(s, a))
  {
    var t := Next(s, a);
    StepAppends(s, a);
    StepRevivesNoRun(s, a);
    hide Next, IsClosed, Grants, Exclusive, RecordsNameTheTask, Enabled, AuthorsAreKnown, IsLive;
    forall i, j | 0 <= i < j < |t.trail| && t.trail[i].task == t.trail[j].task
      && t.trail[i].author.ByRun? && t.trail[j].author.ByRun? && t.trail[i].author != t.trail[j].author
      ensures IsOver(t, t.trail[i].author.run)
    {
      assert s.trail[i] == t.trail[i];
      if j == |s.trail| {
        WriterIsLive(s, a, t.trail[j].author.run);
        OtherWritersAreOver(s, a.p, s.trail[i]);
      } else {
        assert s.trail[j] == t.trail[j];
      }
    }
  }

  lemma StepKeepsRunsApart(s: State, a: Action)
    requires Enabled(s, a) && OvertakenIsOver(s) && RunsDoNotInterleave(s.trail)
    ensures RunsDoNotInterleave(Next(s, a).trail)
  {
    var trail := Next(s, a).trail;
    StepAppends(s, a);
    hide Next, IsClosed, Grants, Enabled;
    forall i, j, k | 0 <= i < j < k < |trail| && trail[i].task == trail[j].task == trail[k].task
      && trail[i].author.ByRun? && trail[i].author == trail[k].author && trail[j].author.ByRun?
      ensures trail[j].author == trail[i].author
    {
      assert trail[i] == s.trail[i] && trail[j] == s.trail[j];
      if k == |s.trail| {
        WriterIsLive(s, a, trail[k].author.run);
      } else {
        assert trail[k] == s.trail[k];
      }
    }
  }

  lemma {:induction false} RunsStandTogether(states: seq<State>, actions: seq<Action>, n: nat)
    requires Execution(states, actions) && n <= |actions|
    requires forall i | 0 <= i < n :: !ClaimsOverdue(states[i], actions[i])
    ensures RunsDoNotInterleave(states[n].trail)
    ensures AuthorsAreKnown(states[n]) && RecordsNameTheTask(states[n]) && OvertakenIsOver(states[n])
  {
    hide ClaimsOverdue, Exclusive, Covered, Next, Enabled;
    if n > 0 {
      hide RunsDoNotInterleave, AuthorsAreKnown, RecordsNameTheTask, OvertakenIsOver, RunsInOrder;
      var s, a := states[n - 1], actions[n - 1];
      RunsStandTogether(states, actions, n - 1);
      RunsAreInOrder(states, actions, n - 1);
      ExclusiveUntilOverdueClaim(states, actions, n - 1);
      NamesSurvive(s, a);
      OvertakenStaysOver(s, a);
      StepKeepsRunsApart(s, a);
    }
  }

  /** If every run is over within fifteen minutes of its claim, the records of one run
      stand together on the task's trail: no other worker's record falls between a
      `pagar` and its outcome. */
  lemma NoRecordFallsBetween(states: seq<State>, actions: seq<Action>, n: nat)
    requires Execution(states, actions) && n <= |actions|
    requires forall i | 0 <= i < n :: OnTime(states[i])
    ensures RunsDoNotInterleave(states[n].trail)
  {
    hide Exclusive, OnTime, ClaimsOverdue, Next, Enabled, RunsDoNotInterleave;
    RunsInTimeNeverOverlap(states, actions, n);
    RunsStandTogether(states, actions, n);
  }

  // ---------- When a lease does expire under a holder ----------

  /** Release deletes by task id, so a run that lost its lease takes the new holder's
      lease with it: the next claim succeeds however fresh that lease was. */
  lemma LateReleaseOpensTheDoor(s: State, p: Process, q: Process, r: Process, task: Task)
    requires AtStage(s, p, Returned) && Holds(s, p, task) && Holds(s, q, task) && p != q
    requires PhaseOf(s, r) == Picked(task)
    ensures
      var released := Next(s, Release(p, Answered));
      && task !in released.leases && Succeeds(released, Claim(r, Answered))
      && !Exclusive(Next(released, Claim(r, Answered)))
  {
    var released := Next(s, Release(p, Answered));
    var t := Next(released, Claim(r, Answered));
    assert Holds(released, q, task) && PhaseOf(released, r) == Picked(task);
    assert Holds(t, q, task) && Holds(t, r, task) && r != q;
  }

  function Before(from: State, more: seq<State>, i: nat): State
    requires i <= |more|
  {
    if i == 0 then from else more[i - 1]
  }

  /** An execution carries on from its last state. */
  lemma Extend(states: seq<State>, actions: seq<Action>, more: seq<State>, steps: seq<Action>)
    requires Execution(states, actions) && |more| == |steps|
    requires forall i | 0 <= i < |steps| ::
      Enabled(Before(states[|actions|], more, i), steps[i])
        && more[i] == Next(Before(states[|actions|], more, i), steps[i])
    ensures Execution(states + more, actions + steps)
  {
    hide Next, Enabled;
    var all, done := states + more, actions + steps;
    forall i | 0 <= i < |done| ensures Enabled(all[i], done[i]) && all[i + 1] == Next(all[i], done[i]) {
      if i < |actions| {
        assert all[i] == states[i] && all[i + 1] == states[i + 1] && done[i] == actions[i];
      } else {
        var j := i - |actions|;
        assert all[i] == Before(states[|actions|], more, j) && done[i] == steps[j] && all[i + 1] == more[j];
      }
    }
  }

  lemma {:induction false} RecordStandsSomewhere(trail: seq<Event>, run: Run)
    requires RecordsOf(trail, run) != []
    ensures exists i | 0 <= i < |trail| :: trail[i].author == ByRun(run)
  {
    var n := |trail| - 1;
    if trail[n].author != ByRun(run) {
      RecordStandsSomewhere(trail[..n], run);
      var i :| 0 <= i < n && trail[..n][i].author == ByRun(run);
      assert trail[i].author == ByRun(run);
    }
  }

  /** What a run at work has written so far, its `pagar`, stands on its own task's trail. */
  lemma PagarStandsOnTheTask(states: seq<State>, actions: seq<Action>, q: Process) returns (at: nat)
    requires Execution(states, actions) && forall i | 0 <= i < |states| :: Exclusive(states[i])
    requires AtStage(states[|actions|], q, Working)
    ensures
      var s := states[|actions|];
      && at < |s.trail| && s.trail[at].author == ByRun(PhaseOf(s, q).run) && s.trail[at].task == PhaseOf(s, q).task
      && PhaseOf(s, q).run < s.nextRun
  {
    hide Next, Enabled, Exclusive, ClaimsOverdue, RunsDoNotInterleave, OvertakenIsOver, AuthorsAreKnown;
    var s := states[|actions|];
    OneProcessPerTaskIffNoOverdueClaim(states, actions);
    RunsStandTogether(states, actions, |actions|);
    EveryRunWritesAtMostOneOutcome(states, actions, |actions|);
    RunsAreInOrder(states, actions, |actions|);
    RecordStandsSomewhere(s.trail, PhaseOf(s, q).run);
    at :| 0 <= at < |s.trail| && s.trail[at].author == ByRun(PhaseOf(s, q).run);
    assert s.trail[at] in s.trail;
  }

  /** What an idle process does about a task it is nudged for, as far as its `pagar`; then
      the process already at work concludes. */
  function Overtaking(r: Process, task: Task, q: Process, outcome: Status): (steps: seq<Action>)
    ensures |steps| == 5
  {
    [PickUp(r, task), Claim(r, Answered), ReadStatus(r, true), Start(r, Answered), Conclude(q, outcome, Answered)]
  }

  lemma OvertakingRuns(s: State, r: Process, task: Task, q: Process, outcome: Status) returns (more: seq<State>)
    requires AtStage(s, q, Working) && Holds(s, q, task) && !IsClosed(s.trail, task) && IsOverdue(s, task)
    requires PhaseOf(s, r).Idle? && outcome != Pagar
    ensures
      var steps := Overtaking(r, task, q, outcome);
      && |more| == 5
      && forall i | 0 <= i < 5 :: Enabled(Before(s, more, i), steps[i]) && more[i] == Next(Before(s, more, i), steps[i])
    ensures more[4].trail
         == s.trail + [Event(task, Pagar, ByRun(s.nextRun)), Event(task, outcome, ByRun(PhaseOf(s, q).run))]
  {
    var s1 := Next(s, PickUp(r, task));
    var s2 := Next(s1, Claim(r, Answered));
    assert PhaseOf(s2, r) == Holding(task, s.nextRun, s.now, Claimed) && PhaseOf(s2, q) == PhaseOf(s, q);
    var s3 := Next(s2, ReadStatus(r, true));
    var s4 := Next(s3, Start(r, Answered));
    var pagar := Event(task, Pagar, ByRun(s.nextRun));
    assert s4.trail == s.trail + [pagar] && PhaseOf(s4, q) == PhaseOf(s, q);
    assert !IsClosed(s4.trail, task);
    var s5 := Next(s4, Conclude(q, outcome, Answered));
    assert s5.trail == s.trail + [pagar] + [Event(task, outcome, ByRun(PhaseOf(s, q).run))];
    more := [s1, s2, s3, s4, s5];
  }

  /** The other half of `RunsStandTogether`: from every run of the system that has kept one
      process per task so far, if a process is at work on an open task that is overdue,
      any idle process can put its `pagar` between that process's `pagar` and whatever
      outcome it comes to. */
  lemma OverdueWorkIsInterleaved(states: seq<State>, actions: seq<Action>, q: Process, r: Process, outcome: Status)
    returns (more: seq<State>)
    requires Execution(states, actions) && forall i | 0 <= i < |states| :: Exclusive(states[i])
    requires
      var s := states[|actions|];
      && AtStage(s, q, Working) && !IsClosed(s.trail, PhaseOf(s, q).task) && IsOverdue(s, PhaseOf(s, q).task)
      && PhaseOf(s, r).Idle? && outcome != Pagar
    ensures Execution(states + more, actions + Overtaking(r, PhaseOf(states[|actions|], q).task, q, outcome))
    ensures |more| == 5 && !RunsDoNotInterleave(more[4].trail)
  {
    var s := states[|actions|];
    var task, run := PhaseOf(s, q).task, PhaseOf(s, q).run;
    var at := PagarStandsOnTheTask(states, actions, q);
    more := OvertakingRuns(s, r, task, q, outcome);
    Extend(states, actions, more, Overtaking(r, task, q, outcome));
    hide Execution, IsOverdue, IsClosed, Exclusive, Overtaking;
    var trail, n := more[4].trail, |s.trail|;
    assert trail[at] == s.trail[at];
    assert trail[n] == Event(task, Pagar, ByRun(s.nextRun)) && trail[n + 1] == Event(task, outcome, ByRun(run));
  }

  lemma OneRunAtWork() returns (states: seq<State>, actions: seq<Action>)
    ensures Execution(states, actions) && |actions| == 4
    ensures states[4]
         == State(0, map[0 := 0], map[0 := Holding(0, 0, 0, Working)], [Event(0, Pagar, ByRun(0))], 1)
  {
    var s0 := State(0, map[], map[], [], 0);
    var s1 := Next(s0, PickUp(0, 0));
    var s2 := Next(s1, Claim(0, Answered));
    assert s2.leases == map[0 := 0] && s2.phases == map[0 := Holding(0, 0, 0, Claimed)];
    var s3 := Next(s2, ReadStatus(0, true));
    assert s3.phases == map[0 := Holding(0, 0, 0, FoundOpen)];
    var s4 := Next(s3, Start(0, Answered));
    assert s4.phases == map[0 := Holding(0, 0, 0, Working)];
    states := [s0, s1, s2, s3, s4];
    actions := [PickUp(0, 0), Claim(0, Answered), ReadStatus(0, true), Start(0, Answered)];
  }

  /** The first overlap: a run of sixteen minutes, a redelivery, a second worker. */
  lemma SlowRunIsTakenOver() returns (states: seq<State>, actions: seq<Action>)
    ensures Execution(states, actions) && |actions| == 9
    ensures ClaimsOverdue(states[6], actions[6])
    ensures states[9]
         == State(16, map[0 := 16], map[0 := Holding(0, 0, 0, Working), 1 := Holding(0, 1, 16, Working)],
                  [Event(0, Pagar, ByRun(0)), Event(0, Pagar, ByRun(1))], 2)
  {
    states, actions := OneRunAtWork();
    var s4 := states[4];
    var working := Holding(0, 0, 0, Working);
    assert StatusOf(s4.trail, 0) == Some(Pagar);
    var s5 := Next(s4, Tick(16));
    var s6 := Next(s5, PickUp(1, 0));
    assert s6.phases == map[0 := working, 1 := Picked(0)];
    assert Holds(s6, 0, 0);
    var s7 := Next(s6, Claim(1, Answered));
    assert s7.leases == map[0 := 16] && s7.phases == map[0 := working, 1 := Holding(0, 1, 16, Claimed)];
    var s8 := Next(s7, ReadStatus(1, true));
    assert s8.phases == map[0 := working, 1 := Holding(0, 1, 16, FoundOpen)];
    var s9 := Next(s8, Start(1, Answered));
    assert s9.phases == map[0 := working, 1 := Holding(0, 1, 16, Working)];
    var steps := [Tick(16), PickUp(1, 0), Claim(1, Answered), ReadStatus(1, true), Start(1, Answered)];
    Extend(states, actions, [s5, s6, s7, s8, s9], steps);
    states, actions := states + [s5, s6, s7, s8, s9], actions + steps;
  }

  /** One expiry is enough to lose both guarantees: the first run's outcome falls
      after the second run's `pagar`, and its release lets a third process in while
      the second, whose lease was taken this very minute, is still at work. */
  lemma OneExpiryBreaksBothGuarantees() returns (states: seq<State>, actions: seq<Action>)
    ensures Execution(states, actions) && |actions| == 13
    ensures Holds(states[12], 1, 0) && states[12].now == PhaseOf(states[12], 1).since
    ensures Succeeds(states[12], actions[12])
    ensures Holds(states[13], 1, 0) && Holds(states[13], 2, 0)
    ensures !RunsDoNotInterleave(states[13].trail)
  {
    states, actions := SlowRunIsTakenOver();
    var s9 := states[9];
    assert StatusOf(s9.trail, 0) == Some(Pagar);
    var steps := [Conclude(0, Sporsmal, Answered), Release(0, Answered), PickUp(2, 0), Claim(2, Answered)];
    var t0 := Next(s9, steps[0]);
    assert t0.trail == [Event(0, Pagar, ByRun(0)), Event(0, Pagar, ByRun(1)), Event(0, Sporsmal, ByRun(0))];
    var t1 := Next(t0, steps[1]);
    assert 0 !in t1.leases && Holds(t1, 1, 0) && PhaseOf(t1, 2) == Idle;
    var t2 := Next(t1, steps[2]);
    assert Holds(t2, 1, 0) && PhaseOf(t2, 2) == Picked(0);
    var t3 := Next(t2, steps[3]);
    assert t3.trail == t0.trail;
    assert t3.trail[0].author == t3.trail[2].author && t3.trail[1].author != t3.trail[0].author;
    Extend(states, actions, [t0, t1, t2, t3], steps);
    states, actions := states + [t0, t1, t2, t3], actions + steps;
  }
}
