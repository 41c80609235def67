/** Roles in Keycloak. Assigning or removing a role commits the local row and then starts a background
    job, which reads the local roles of the user and pushes the admin role to Keycloak. Requests and
    jobs of one live user interleave at their queries, commits and Keycloak calls. */
module KcRoles {
  import opened Wrappers
  import L = LockProtocol

  /** A request to assign or remove the role. `Enqueue` is after its commit, or after it found that
      there was nothing to change, and before it has started its job. */
  datatype ReqPc =
    | AssignQuery | AssignCommit | RemoveQuery | RemoveCommit(row: nat)
    | Enqueue(changed: bool) | Answered(changed: bool) | Raised

  /** A background job: it takes its snapshot of the local roles, reads the user's Keycloak roles, and
      writes. What it does afterwards does not touch roles. */
  datatype TaskPc = Pending | Snapped(want: bool) | Read(want: bool, had: bool) | Over

  /** `row` is the local admin row, if there is one. `overlap` records that a job took its snapshot
      while another was between snapshot and write; `cut` that a job died before it had written, or a
      request between commit and starting its job. */
  datatype Sys = Sys(
    row: Option<nat>, nextRow: nat, kc: set<string>,
    reqs: seq<ReqPc>, tasks: seq<TaskPc>, overlap: bool, cut: bool)

  datatype Event =
    | NewAssign | NewRemove
    | Req(i: nat, ok: bool) | ReqDies(i: nat)
    | Task(i: nat) | TaskDies(i: nat, written: bool)

  const ADMIN := "admin"

  predicate Running(pc: TaskPc) {
    pc.Snapped? || pc.Read?
  }

  predicate ReqDone(pc: ReqPc) {
    pc.Answered? || pc.Raised?
  }

  /** The write of check_user_roles, given what it wants and what it read. */
  function Push(kc: set<string>, want: bool, had: bool): set<string> {
    if want && !had then kc + {ADMIN} else if !want && had then kc - {ADMIN} else kc
  }

  function ReqGoes(row: Option<nat>, pc: ReqPc, ok: bool): ReqPc {
    match pc
    case AssignQuery => if row.Some? then Enqueue(false) else AssignCommit
    case AssignCommit => if ok && row.None? then Enqueue(true) else Raised
    case RemoveQuery => if row.Some? then RemoveCommit(row.value) else Enqueue(false)
    case RemoveCommit(_) => if ok then Enqueue(true) else Raised
    case Enqueue(changed) => Answered(changed)
    case _ => pc
  }

  /** Inserting a second row violates the unique index; a row is deleted by its own key. */
  function RowAfter(s: Sys, pc: ReqPc, ok: bool): Option<nat> {
    match pc
    case AssignCommit => if ok && s.row.None? then Some(s.nextRow) else s.row
    case RemoveCommit(r) => if ok && s.row == Some(r) then None else s.row
    case _ => s.row
  }

  function TaskGoes(s: Sys, pc: TaskPc): TaskPc {
    match pc
    case Pending => Snapped(s.row.Some?)
    case Snapped(want) => Read(want, ADMIN in s.kc)
    case Read(_, _) => Over
    case Over => Over
  }

  function Next(s: Sys, ev: Event): Sys {
    match ev
    case NewAssign => s.(reqs := s.reqs + [AssignQuery])
    case NewRemove => s.(reqs := s.reqs + [RemoveQuery])
    case Req(i, ok) =>
      if i >= |s.reqs| then s
      else
        s.(reqs := s.reqs[i := ReqGoes(s.row, s.reqs[i], ok)],
           row := RowAfter(s, s.reqs[i], ok), nextRow := s.nextRow + 1,
           tasks := if s.reqs[i].Enqueue? then s.tasks + [Pending] else s.tasks)
    case ReqDies(i) =>
      if i >= |s.reqs| || ReqDone(s.reqs[i]) then s
      else s.(reqs := s.reqs[i := Raised], cut := s.cut || s.reqs[i].Enqueue?)
    case Task(i) =>
      if i >= |s.tasks| then s
      else
        s.(tasks := s.tasks[i := TaskGoes(s, s.tasks[i])],
           kc := if s.tasks[i].Read? then Push(s.kc, s.tasks[i].want, s.tasks[i].had) else s.kc,
           overlap := s.overlap || (s.tasks[i].Pending? && exists j | 0 <= j < |s.tasks| :: Running(s.tasks[j])))
    case TaskDies(i, written) =>
      if i >= |s.tasks| || s.tasks[i].Over? then s
      else
        s.(tasks := s.tasks[i := Over], cut := true,
           kc := if written && s.tasks[i].Read? then Push(s.kc, s.tasks[i].want, s.tasks[i].had) else s.kc)
  }

  function Run(s: Sys, evs: seq<Event>): Sys {
    if evs == [] then s else Next(Run(s, evs[..|evs| - 1]), evs[|evs| - 1])
  }

  lemma RunSnoc(s: Sys, evs: seq<Event>, ev: Event)
    ensures Run(s, evs + [ev]) == Next(Run(s, evs), ev)
  {
    assert (evs + [ev])[..|evs|] == evs;
  }

  lemma {:induction false} RunConcat(s: Sys, evs: seq<Event>, more: seq<Event>)
    ensures Run(s, evs + more) == Run(Run(s, evs), more)
  {
    if more == [] {
      assert evs + more == evs;
    } else {
      var init, last := more[..|more| - 1], more[|more| - 1];
      RunConcat(s, evs, init);
      RunSnoc(s, evs + init, last);
      assert evs + more == evs + init + [last];
    }
  }

  // ---- Agreement at rest ---------------------------------------------------------------

  predicate Agree(s: Sys) {
    ADMIN in s.kc <==> s.row.Some?
  }

  /** Nobody owes Keycloak another look at the local roles. */
  predicate Settled(s: Sys) {
    && (forall i | 0 <= i < |s.tasks| :: !s.tasks[i].Pending?)
    && (forall i | 0 <= i < |s.reqs| :: !s.reqs[i].Enqueue?)
  }

  predicate NoneRunning(s: Sys) {
    forall i | 0 <= i < |s.tasks| :: !Running(s.tasks[i])
  }

  predicate AtRest(s: Sys) {
    Settled(s) && NoneRunning(s)
  }

  /** A state to start counting from: no job is under way, and if Keycloak disagrees with the local
      roles then somebody will look again. */
  predicate Fit(s: Sys) {
    NoneRunning(s) && (Settled(s) ==> Agree(s)) && !s.overlap && !s.cut
  }

  /** A job under way that may still write. */
  predicate Writes(pc: TaskPc) {
    pc.Snapped? || (pc.Read? && pc.want != pc.had)
  }

  predicate WritersRight(s: Sys) {
    forall i | 0 <= i < |s.tasks| && Writes(s.tasks[i]) :: s.tasks[i].want == s.row.Some?
  }

  predicate SomeWriter(s: Sys) {
    exists i | 0 <= i < |s.tasks| :: Writes(s.tasks[i])
  }

  /** Unless somebody is still going to look, every job that may write wants what the local table
      says, and Keycloak says so already if there is none. */
  predicate OnCourse(s: Sys) {
    Settled(s) ==> WritersRight(s) && (Agree(s) || SomeWriter(s))
  }

  lemma ReqKeepsCourse(s: Sys, i: nat, ok: bool)
    requires OnCourse(s) && i < |s.reqs|
    ensures OnCourse(Next(s, Req(i, ok)))
  {
    var t := Next(s, Req(i, ok));
    if t.reqs[i].Enqueue? {
      assert !Settled(t);
    } else if s.reqs[i].Enqueue? {
      assert t.tasks[|s.tasks|].Pending?;
      assert !Settled(t);
    } else if Settled(t) {
      assert t.tasks == s.tasks;
      forall j | 0 <= j < |s.reqs| ensures !s.reqs[j].Enqueue? {
        assert j == i || t.reqs[j] == s.reqs[j];
      }
    }
  }

  lemma TaskKeepsSettled(s: Sys, i: nat)
    requires i < |s.tasks| && !s.tasks[i].Pending?
    ensures Settled(Next(s, Task(i))) <==> Settled(s)
  {
    var t := Next(s, Task(i));
    forall j | 0 <= j < |s.tasks| ensures s.tasks[j].Pending? <==> t.tasks[j].Pending? {
      assert j == i || t.tasks[j] == s.tasks[j];
    }
  }

  lemma TaskKeepsCourse(s: Sys, i: nat)
    requires OnCourse(s) && i < |s.tasks| && !Next(s, Task(i)).overlap
    ensures OnCourse(Next(s, Task(i)))
  {
    var t := Next(s, Task(i));
    assert forall j | 0 <= j < |s.tasks| && j != i :: t.tasks[j] == s.tasks[j];
    if s.tasks[i].Pending? {
      assert NoneRunning(s) && Writes(t.tasks[i]);
    } else if Settled(t) {
      TaskKeepsSettled(s, i);
      if Writes(t.tasks[i]) {
        assert SomeWriter(t);
      } else if Writes(s.tasks[i]) {
        assert Agree(t);
      } else if !Agree(s) {
        var j :| 0 <= j < |s.tasks| && Writes(s.tasks[j]);
        assert Writes(t.tasks[j]);
      }
    }
  }

  lemma NextKeepsCourse(s: Sys, ev: Event)
    requires OnCourse(s) && !Next(s, ev).overlap && !Next(s, ev).cut
    ensures OnCourse(Next(s, ev))
  {
    var t := Next(s, ev);
    match ev
    case Req(i, ok) => if i < |s.reqs| { ReqKeepsCourse(s, i, ok); }
    case Task(i) => if i < |s.tasks| { TaskKeepsCourse(s, i); }
    case _ =>
      assert t.tasks == s.tasks;
      assert Settled(t) ==> Settled(s) by {
        if Settled(t) {
          forall j | 0 <= j < |s.reqs| ensures !s.reqs[j].Enqueue? {
            assert !t.reqs[j].Enqueue?;
          }
        }
      }
  }

  lemma {:induction false} RunKeepsCourse(s: Sys, evs: seq<Event>)
    requires OnCourse(s)
    ensures var t := Run(s, evs); !t.overlap && !t.cut ==> OnCourse(t)
  {
    if evs != [] {
      var init, last := evs[..|evs| - 1], evs[|evs| - 1];
      RunKeepsCourse(s, init);
      var t := Run(s, evs);
      if !t.overlap && !t.cut {
        NextKeepsCourse(Run(s, init), last);
      }
    }
  }

  /** What happened before is forgotten: disturbances are counted from here on. */
  function Afresh(s: Sys): Sys {
    s.(overlap := false, cut := false)
  }

  ghost predicate AgreesAfter(s: Sys, evs: seq<Event>) {
    var t := Run(Afresh(s), evs);
    !t.overlap && !t.cut && AtRest(t) ==> Agree(t)
  }

  // Off course, the wrong writer can be the last one.

  lemma RunTwo(s: Sys, a: Event, b: Event)
    ensures Run(s, [a, b]) == Next(Next(s, a), b)
  {
    assert [a, b][..1] == [a] && [a][..0] == [];
    assert Run(s, [a]) == Next(s, a);
  }

  /** One job runs to its end: if it may write, Keycloak has what it wants, and otherwise it is left
      alone. */
  lemma RunsToItsEnd(s: Sys, i: nat) returns (evs: seq<Event>, t: Sys)
    requires i < |s.tasks| && !s.tasks[i].Pending?
    ensures t == Run(s, evs) == s.(tasks := s.tasks[i := Over], kc := t.kc)
    ensures if Writes(s.tasks[i]) then (ADMIN in t.kc <==> s.tasks[i].want) else t.kc == s.kc
  {
    if s.tasks[i].Snapped? {
      evs := [Task(i), Task(i)];
      RunTwo(s, Task(i), Task(i));
      assert s.tasks[i := Read(s.tasks[i].want, ADMIN in s.kc)][i := Over] == s.tasks[i := Over];
    } else if s.tasks[i].Read? {
      evs := [Task(i)];
      assert evs[..0] == [];
      assert Run(s, evs) == Next(s, Task(i));
    } else {
      evs := [];
      assert s.tasks[i := Over] == s.tasks;
    }
    t := Run(s, evs);
  }

  /** The first n jobs run to their end, all but job k. */
  lemma {:induction false} OthersRunToTheirEnd(s: Sys, n: nat, k: nat) returns (evs: seq<Event>, t: Sys)
    requires n <= |s.tasks| && forall i | 0 <= i < |s.tasks| :: !s.tasks[i].Pending?
    ensures t == Run(s, evs) == s.(tasks := t.tasks, kc := t.kc) && |t.tasks| == |s.tasks|
    ensures forall i | 0 <= i < |s.tasks| :: t.tasks[i] == if i < n && i != k then Over else s.tasks[i]
    ensures (forall i | 0 <= i < |s.tasks| :: !Writes(s.tasks[i])) ==> t.kc == s.kc
  {
    if n == 0 {
      evs, t := [], s;
    } else {
      var more;
      evs, t := OthersRunToTheirEnd(s, n - 1, k);
      if n - 1 != k {
        var u;
        more, u := RunsToItsEnd(t, n - 1);
        RunConcat(s, evs, more);
        evs, t := evs + more, u;
      }
    }
  }

  lemma OffCourseGoesWrong(s: Sys) returns (evs: seq<Event>)
    requires !OnCourse(s)
    ensures !AgreesAfter(s, evs)
  {
    var start := Afresh(s);
    assert forall i | 0 <= i < |s.tasks| :: !s.tasks[i].Pending?;
    var t;
    if !WritersRight(s) {
      var k :| 0 <= k < |s.tasks| && Writes(s.tasks[k]) && s.tasks[k].want != s.row.Some?;
      evs, t := OthersRunToTheirEnd(start, |s.tasks|, k);
      var last, end := RunsToItsEnd(t, k);
      RunConcat(start, evs, last);
      evs, t := evs + last, end;
    } else {
      assert forall i | 0 <= i < |s.tasks| :: !Writes(s.tasks[i]);
      evs, t := OthersRunToTheirEnd(start, |s.tasks|, |s.tasks|);
    }
    assert AtRest(t) && !Agree(t);
  }

  /** From any state at all, jobs under way or not: Keycloak and the local table agree at rest of
      everything that can follow undisturbed, however requests and jobs interleave, exactly when
      somebody is still going to look, or else every job that may still write wants what the local
      table says and Keycloak says so already if there is none. */
  lemma AgreesFromHereIff(s: Sys)
    ensures (forall evs :: AgreesAfter(s, evs)) <==> OnCourse(s)
  {
    if OnCourse(s) {
      assert Settled(Afresh(s)) <==> Settled(s);
      assert SomeWriter(Afresh(s)) <==> SomeWriter(s);
      forall evs ensures AgreesAfter(s, evs) {
        RunKeepsCourse(Afresh(s), evs);
      }
    } else {
      var evs := OffCourseGoesWrong(s);
    }
  }

  /** In particular, from a quiet start: if jobs of the user did not overlap and none was cut short,
      then with no job pending or running and no request about to start one, Keycloak has admin
      exactly when the local table does. */
  lemma AgreeAtRest(s: Sys, evs: seq<Event>)
    requires Fit(s)
    ensures var t := Run(s, evs); !t.overlap && !t.cut && AtRest(t) ==> Agree(t)
  {
    assert Afresh(s) == s;
    AgreesFromHereIff(s);
    assert AgreesAfter(s, evs);
  }

  // ---- One job at a time ---------------------------------------------------------------

  /** At most one job is under way, and what it has read is still so. */
  ghost predicate OneAtATime(s: Sys) {
    && (forall i, j | 0 <= i < |s.tasks| && 0 <= j < |s.tasks| && Running(s.tasks[i]) && Running(s.tasks[j]) :: i == j)
    && (forall i | 0 <= i < |s.tasks| && s.tasks[i].Read? :: s.tasks[i].had <==> ADMIN in s.kc)
  }

  ghost predicate Inv(s: Sys) {
    s.overlap || s.cut || OneAtATime(s)
  }

  lemma NextKeeps(s: Sys, ev: Event)
    requires Inv(s)
    ensures Inv(Next(s, ev))
  {
    var t := Next(s, ev);
    if !t.overlap && !t.cut && ev.Task? && ev.i < |s.tasks| {
      assert s.tasks[ev.i].Pending? ==> NoneRunning(s);
      assert forall j | 0 <= j < |s.tasks| && j != ev.i :: t.tasks[j] == s.tasks[j];
    }
  }

  lemma {:induction false} RunKeeps(s: Sys, evs: seq<Event>)
    requires Inv(s)
    ensures Inv(Run(s, evs))
  {
    if evs != [] {
      RunKeeps(s, evs[..|evs| - 1]);
      NextKeeps(Run(s, evs[..|evs| - 1]), evs[|evs| - 1]);
    }
  }

  /** Roles other than admin are never touched in Keycloak, disturbances or not. */
  lemma {:induction false} OtherRolesUntouched(s: Sys, evs: seq<Event>)
    ensures Run(s, evs).kc - {ADMIN} == s.kc - {ADMIN}
  {
    if evs != [] {
      OtherRolesUntouched(s, evs[..|evs| - 1]);
    }
  }

  /** After any disturbance a later undisturbed look repairs it: one that is still to come is enough. */
  lemma NextLookRepairs(s: Sys, evs: seq<Event>)
    requires !Settled(s)
    ensures AgreesAfter(s, evs)
  {
    AgreesFromHereIff(s);
  }

  // ---- None of the conditions can be dropped -------------------------------------------

  function Quiet(): Sys {
    Sys(None, 0, {}, [], [], false, false)
  }

  lemma Then(start: Sys, evs: seq<Event>, s: Sys, ev: Event) returns (more: seq<Event>, t: Sys)
    requires Run(start, evs) == s
    ensures more == evs + [ev] && t == Next(s, ev) && Run(start, more) == t
  {
    more, t := evs + [ev], Next(s, ev);
    assert more[..|evs|] == evs;
  }

  /** A promotion whose job has taken its snapshot. */
  lemma PromotedAndSnapped() returns (evs: seq<Event>)
    ensures Run(Quiet(), evs) == Sys(Some(1), 3, {}, [Answered(true)], [Snapped(true)], false, false)
  {
    var s := Quiet();
    evs := [];
    evs, s := Then(Quiet(), evs, s, NewAssign);
    evs, s := Then(Quiet(), evs, s, Req(0, true));
    evs, s := Then(Quiet(), evs, s, Req(0, true));
    evs, s := Then(Quiet(), evs, s, Req(0, true));
    evs, s := Then(Quiet(), evs, s, Task(0));
  }

  /** A demotion after that, whose job is still to come. */
  lemma DemotedMeanwhile() returns (evs: seq<Event>)
    ensures Run(Quiet(), evs)
         == Sys(None, 6, {}, [Answered(true), Answered(true)], [Snapped(true), Pending], false, false)
  {
    evs := PromotedAndSnapped();
    var s := Run(Quiet(), evs);
    evs, s := Then(Quiet(), evs, s, NewRemove);
    evs, s := Then(Quiet(), evs, s, Req(1, true));
    evs, s := Then(Quiet(), evs, s, Req(1, true));
    evs, s := Then(Quiet(), evs, s, Req(1, true));
  }

  /** Two jobs at once: the first one's stale snapshot is written last. */
  lemma OverlapBreaksAgreement() returns (evs: seq<Event>)
    ensures var s := Run(Quiet(), evs); Fit(Quiet()) && AtRest(s) && !s.cut && !Agree(s)
  {
    evs := DemotedMeanwhile();
    var s := Run(Quiet(), evs);
    evs, s := Then(Quiet(), evs, s, Task(1));
    evs, s := Then(Quiet(), evs, s, Task(1));
    evs, s := Then(Quiet(), evs, s, Task(1));
    assert s.tasks == [Snapped(true), Over] && s.kc == {};
    evs, s := Then(Quiet(), evs, s, Task(0));
    evs, s := Then(Quiet(), evs, s, Task(0));
    assert ADMIN in s.kc;
  }

  /** One job that dies before its write. */
  lemma DeathBreaksAgreement() returns (evs: seq<Event>)
    ensures var s := Run(Quiet(), evs); AtRest(s) && !s.overlap && !Agree(s)
  {
    evs := PromotedAndSnapped();
    var s := Run(Quiet(), evs);
    evs, s := Then(Quiet(), evs, s, TaskDies(0, false));
  }

  /** Between its commit and the start of its job a request leaves the two apart with no job
      pending or running. */
  lemma WindowBreaksAgreement() returns (evs: seq<Event>)
    ensures var s := Run(Quiet(), evs);
            s.tasks == [] && !s.overlap && !s.cut && !Agree(s)
  {
    var s := Quiet();
    evs := [];
    evs, s := Then(Quiet(), evs, s, NewAssign);
    evs, s := Then(Quiet(), evs, s, Req(0, true));
    evs, s := Then(Quiet(), evs, s, Req(0, true));
  }

  // ---- Coming to rest ------------------------------------------------------------------

  function ReqRank(pc: ReqPc): nat {
    match pc
    case AssignQuery => 6
    case AssignCommit => 5
    case RemoveQuery => 6
    case RemoveCommit(_) => 5
    case Enqueue(_) => 4
    case _ => 0
  }

  function TaskRank(pc: TaskPc): nat {
    match pc
    case Pending => 3
    case Snapped(_) => 2
    case Read(_, _) => 1
    case Over => 0
  }

  function ReqRanks(reqs: seq<ReqPc>): seq<nat> {
    seq(|reqs|, i requires 0 <= i < |reqs| => ReqRank(reqs[i]))
  }

  function TaskRanks(tasks: seq<TaskPc>): seq<nat> {
    seq(|tasks|, i requires 0 <= i < |tasks| => TaskRank(tasks[i]))
  }

  function Work(s: Sys): nat {
    L.Total(ReqRanks(s.reqs)) + L.Total(TaskRanks(s.tasks))
  }

  /** A step of a request or job that is not finished yet. */
  predicate Live(s: Sys, ev: Event) {
    match ev
    case NewAssign => false
    case NewRemove => false
    case Req(i, _) => i < |s.reqs| && !ReqDone(s.reqs[i])
    case ReqDies(i) => i < |s.reqs| && !ReqDone(s.reqs[i])
    case Task(i) => i < |s.tasks| && !s.tasks[i].Over?
    case TaskDies(i, _) => i < |s.tasks| && !s.tasks[i].Over?
  }

  predicate AllLive(s: Sys, evs: seq<Event>) {
    evs == [] || (AllLive(s, evs[..|evs| - 1]) && Live(Run(s, evs[..|evs| - 1]), evs[|evs| - 1]))
  }

  lemma LiveStepShrinksWork(s: Sys, ev: Event)
    requires Live(s, ev)
    ensures Work(Next(s, ev)) < Work(s)
  {
    var t := Next(s, ev);
    if ev.Req? || ev.ReqDies? {
      assert ReqRanks(t.reqs) == ReqRanks(s.reqs)[ev.i := ReqRank(t.reqs[ev.i])];
      L.TotalUpdate(ReqRanks(s.reqs), ev.i, ReqRank(t.reqs[ev.i]));
      if t.tasks != s.tasks {
        assert TaskRanks(t.tasks) == TaskRanks(s.tasks) + [3];
        L.TotalSnoc(TaskRanks(s.tasks), 3);
      }
    } else {
      assert TaskRanks(t.tasks) == TaskRanks(s.tasks)[ev.i := TaskRank(t.tasks[ev.i])];
      L.TotalUpdate(TaskRanks(s.tasks), ev.i, TaskRank(t.tasks[ev.i]));
    }
  }

  lemma {:induction false} WorkPaysForSteps(s: Sys, evs: seq<Event>)
    requires AllLive(s, evs)
    ensures |evs| + Work(Run(s, evs)) <= Work(s)
  {
    if evs != [] {
      WorkPaysForSteps(s, evs[..|evs| - 1]);
      LiveStepShrinksWork(Run(s, evs[..|evs| - 1]), evs[|evs| - 1]);
    }
  }

  /** Once no more requests come in, every schedule of the remaining steps ends, after no more than
      Work(s) of them, and what it ends in is a state at rest. */
  lemma ComesToRest(s: Sys, evs: seq<Event>)
    requires AllLive(s, evs)
    ensures |evs| <= Work(s)
    ensures (forall ev :: !Live(Run(s, evs), ev)) ==> AtRest(Run(s, evs))
  {
    WorkPaysForSteps(s, evs);
    var t := Run(s, evs);
    if forall ev :: !Live(t, ev) {
      forall i | 0 <= i < |t.tasks| ensures t.tasks[i].Over? {
        assert !Live(t, Task(i));
      }
      forall i | 0 <= i < |t.reqs| ensures !t.reqs[i].Enqueue? {
        assert !Live(t, Req(i, true));
      }
    }
  }

  // ---- The methods themselves ----------------------------------------------------------

  predicate AvoidsReq(ev: Event, i: nat) {
    (ev.Req? || ev.ReqDies?) ==> ev.i != i
  }

  predicate AvoidsTask(ev: Event, i: nat) {
    (ev.Task? || ev.TaskDies?) ==> ev.i != i
  }

  lemma {:induction false} ReqUntouched(s: Sys, i: nat, evs: seq<Event>)
    requires i < |s.reqs| && forall k | 0 <= k < |evs| :: AvoidsReq(evs[k], i)
    ensures i < |Run(s, evs).reqs| && Run(s, evs).reqs[i] == s.reqs[i]
  {
    if evs != [] {
      ReqUntouched(s, i, evs[..|evs| - 1]);
      assert AvoidsReq(evs[|evs| - 1], i);
    }
  }

  lemma TaskStepUntouched(s: Sys, i: nat, ev: Event)
    requires i < |s.tasks| && AvoidsTask(ev, i)
    ensures i < |Next(s, ev).tasks| && Next(s, ev).tasks[i] == s.tasks[i]
  {
  }

  lemma {:induction false} TaskUntouched(s: Sys, i: nat, evs: seq<Event>)
    requires i < |s.tasks| && forall k | 0 <= k < |evs| :: AvoidsTask(evs[k], i)
    ensures i < |Run(s, evs).tasks| && Run(s, evs).tasks[i] == s.tasks[i]
  {
    if evs != [] {
      TaskUntouched(s, i, evs[..|evs| - 1]);
      TaskStepUntouched(Run(s, evs[..|evs| - 1]), i, evs[|evs| - 1]);
    }
  }

  /** One live user: the local admin row, the Keycloak roles, and the requests and jobs about them.
      `trace` records every step, of the method at hand and of all the others. */
  class UserRoles {
    var row: Option<nat>
    var nextRow: nat
    var kc: set<string>
    var reqs: seq<ReqPc>
    var tasks: seq<TaskPc>
    var overlap: bool
    var cut: bool
    ghost const origin: Sys
    ghost var trace: seq<Event>

    function State(): Sys
      reads this
    {
      Sys(row, nextRow, kc, reqs, tasks, overlap, cut)
    }

    ghost predicate Valid()
      reads this
    {
      Fit(origin) && State() == Run(origin, trace)
    }

    constructor (start: Sys)
      requires Fit(start)
      ensures Valid() && State() == start
    {
      row, nextRow, kc := start.row, start.nextRow, start.kc;
      reqs, tasks, overlap, cut := start.reqs, start.tasks, start.overlap, start.cut;
      origin, trace := start, [];
    }

    /** Other requests and jobs run while this one is suspended. */
    method Others(evs: seq<Event>)
      requires Valid()
      modifies this
      ensures Valid() && trace == old(trace) + evs && State() == Run(old(State()), evs)
    {
      RunConcat(origin, trace, evs);
      var t := Run(State(), evs);
      row, nextRow, kc := t.row, t.nextRow, t.kc;
      reqs, tasks, overlap, cut := t.reqs, t.tasks, t.overlap, t.cut;
      trace := trace + evs;
    }

    method OthersAroundReq(i: nat, evs: seq<Event>)
      requires Valid() && i < |reqs| && forall k | 0 <= k < |evs| :: AvoidsReq(evs[k], i)
      modifies this
      ensures Valid() && trace == old(trace) + evs && i < |reqs| && reqs[i] == old(reqs)[i]
      ensures State() == Run(old(State()), evs)
    {
      ReqUntouched(State(), i, evs);
      Others(evs);
    }

    method OthersAroundTask(i: nat, evs: seq<Event>)
      requires Valid() && i < |tasks| && forall k | 0 <= k < |evs| :: AvoidsTask(evs[k], i)
      modifies this
      ensures Valid() && trace == old(trace) + evs && i < |tasks| && tasks[i] == old(tasks)[i]
      ensures State() == Run(old(State()), evs)
    {
      TaskUntouched(State(), i, evs);
      Others(evs);
    }

    /** The request gets to its next step, the row being already what that makes of it. */
    method ReqMoves(i: nat, pc: ReqPc, ghost before: Sys, ghost ok: bool)
      requires Fit(origin) && before == Run(origin, trace) && i < |reqs| && !reqs[i].Enqueue?
      requires before == State().(row := before.row) && row == RowAfter(before, reqs[i], ok)
      requires pc == ReqGoes(before.row, reqs[i], ok)
      modifies this`reqs, this`nextRow, this`trace
      ensures Valid() && trace == old(trace) + [Req(i, ok)] && reqs == old(reqs)[i := pc]
    {
      RunSnoc(origin, trace, Req(i, ok));
      reqs, nextRow, trace := reqs[i := pc], nextRow + 1, trace + [Req(i, ok)];
    }

    /** Starts the background job and answers. */
    method Notify(i: nat, evs: seq<Event>) returns (changed: bool)
      requires Valid() && i < |reqs| && reqs[i].Enqueue? && forall k | 0 <= k < |evs| :: AvoidsReq(evs[k], i)
      modifies this
      ensures Valid() && old(trace) <= trace && i < |reqs| && reqs[i] == Answered(changed)
      ensures changed == old(reqs)[i].changed && (evs == [] ==> row == old(row))
      ensures |tasks| > 0 && tasks[|tasks| - 1].Pending?
    {
      changed := reqs[i].changed;
      OthersAroundReq(i, evs);
      RunSnoc(origin, trace, Req(i, true));
      tasks := tasks + [Pending];
      reqs, nextRow, trace := reqs[i := Answered(changed)], nextRow + 1, trace + [Req(i, true)];
    }

    /** Inserts the row, which fails if there is one by now. */
    method CommitAssign(i: nat, ok: bool) returns (done: bool)
      requires Valid() && i < |reqs| && reqs[i] == AssignCommit
      modifies this
      ensures Valid() && trace == old(trace) + [Req(i, ok)]
      ensures reqs == old(reqs)[i := if done then Enqueue(true) else Raised]
      ensures done <==> ok && old(row).None?
      ensures row == if done then Some(old(nextRow)) else old(row)
    {
      ghost var s := State();
      done := ok && row.None?;
      if done {
        row := Some(nextRow);
      }
      ReqMoves(i, if done then Enqueue(true) else Raised, s, ok);
    }

    method InsertRow(i: nat, ok: bool, evs: seq<Event>) returns (done: bool)
      requires Valid() && i < |reqs| && reqs[i] == AssignCommit && forall k | 0 <= k < |evs| :: AvoidsReq(evs[k], i)
      modifies this
      ensures Valid() && old(trace) <= trace && i < |reqs|
      ensures reqs[i] == if done then Enqueue(true) else Raised
      ensures evs == [] && done ==> row.Some?
      ensures if done then ok && row.Some? else !ok || row.Some?
    {
      OthersAroundReq(i, evs);
      done := CommitAssign(i, ok);
    }

    /** Deletes the row found before; another row that replaced it stays. */
    method CommitRemove(i: nat, obj: nat, ok: bool)
      requires Valid() && i < |reqs| && reqs[i] == RemoveCommit(obj)
      modifies this
      ensures Valid() && trace == old(trace) + [Req(i, ok)]
      ensures reqs == old(reqs)[i := if ok then Enqueue(true) else Raised]
      ensures row == if ok && old(row) == Some(obj) then None else old(row)
    {
      ghost var s := State();
      if ok && row == Some(obj) {
        row := None;
      }
      ReqMoves(i, if ok then Enqueue(true) else Raised, s, ok);
    }

    /** assign_role for the admin role: true if this request made the row; unless the commit failed a
        job is started. */
    method AssignRole(i: nat, ok: bool, others: nat -> seq<Event>) returns (r: Result<bool, ()>)
      requires Valid() && i < |reqs| && reqs[i] == AssignQuery
      requires forall k, j | 0 <= j < |others(k)| :: AvoidsReq(others(k)[j], i)
      modifies this
      ensures Valid() && old(trace) <= trace && i < |reqs|
      ensures reqs[i] == if r.Ok? then Answered(r.value) else Raised
      ensures r.Ok? ==> |tasks| > 0 && tasks[|tasks| - 1].Pending?
      ensures others(0) == [] && others(1) == [] && r.Ok? ==> row.Some?
      ensures old(row).Some? <==> r == Ok(false)
      ensures r == Ok(true) ==> ok
      ensures r.Err? ==> !ok || row.Some?
    {
      var had := row.Some?;
      ReqMoves(i, if had then Enqueue(false) else AssignCommit, State(), ok);
      if !had {
        var done := InsertRow(i, ok, others(0));
        if !done {
          return Err(());
        }
      }
      var changed := Notify(i, others(1));
      r := Ok(changed);
    }

    /** remove_role for the admin role: false exactly if it found no row; unless the commit failed a
        job is started. */
    method RemoveRole(i: nat, ok: bool, others: nat -> seq<Event>) returns (r: Result<bool, ()>)
      requires Valid() && i < |reqs| && reqs[i] == RemoveQuery
      requires forall k, j | 0 <= j < |others(k)| :: AvoidsReq(others(k)[j], i)
      modifies this
      ensures Valid() && old(trace) <= trace && i < |reqs|
      ensures reqs[i] == if r.Ok? then Answered(r.value) else Raised
      ensures r.Ok? ==> |tasks| > 0 && tasks[|tasks| - 1].Pending?
      ensures others(0) == [] && others(1) == [] && r.Ok? ==> row.None?
      ensures old(row).None? <==> r == Ok(false)
      ensures r == Ok(true) ==> ok
      ensures r.Err? ==> !ok
    {
      var obj := row;
      ReqMoves(i, if obj.Some? then RemoveCommit(obj.value) else Enqueue(false), State(), ok);
      if obj.Some? {
        OthersAroundReq(i, others(0));
        CommitRemove(i, obj.value, ok);
        if !ok {
          return Err(());
        }
      }
      var changed := Notify(i, others(1));
      r := Ok(changed);
    }

    /** check_user_roles: true if it wrote. In an undisturbed run Keycloak has admin afterwards
        exactly when the snapshot had it. */
    method CheckUserRoles(i: nat, want: bool, others: seq<Event>) returns (changed: bool)
      requires Valid() && i < |tasks| && tasks[i] == Snapped(want)
      requires forall j | 0 <= j < |others| :: AvoidsTask(others[j], i)
      modifies this
      ensures Valid() && old(trace) <= trace && i < |tasks| && tasks[i] == Over
      ensures kc - {"admin"} == old(kc) - {"admin"}
      ensures changed <==> (want <==> "admin" !in old(kc))
      ensures others == [] ==> ("admin" in kc <==> want)
      ensures !overlap && !cut ==> ("admin" in kc <==> want)
    {
      var had := ADMIN in kc;
      RunSnoc(origin, trace, Task(i));
      tasks, trace := tasks[i := Read(want, had)], trace + [Task(i)];
      OtherRolesUntouched(State(), others);
      OthersAroundTask(i, others);
      changed := Write(i, want, had);
    }

    /** Its write, given what it read. */
    method Write(i: nat, want: bool, had: bool) returns (changed: bool)
      requires Valid() && i < |tasks| && tasks[i] == Read(want, had)
      modifies this
      ensures Valid() && trace == old(trace) + [Task(i)] && tasks == old(tasks)[i := Over]
      ensures kc - {ADMIN} == old(kc) - {ADMIN}
      ensures had == (ADMIN in old(kc)) ==> (ADMIN in kc <==> want)
      ensures changed <==> want != had
      ensures !overlap && !cut ==> (ADMIN in kc <==> want)
    {
      RunKeeps(origin, trace);
      RunSnoc(origin, trace, Task(i));
      if want {
        changed := !had;
        kc := if !had then kc + {ADMIN} else kc;
      } else {
        changed := had;
        kc := if had then kc - {ADMIN} else kc;
      }
      tasks, trace := tasks[i := Over], trace + [Task(i)];
    }

    method Snapshot(i: nat) returns (want: bool)
      requires Valid() && i < |tasks| && tasks[i] == Pending
      modifies this
      ensures Valid() && trace == old(trace) + [Task(i)] && tasks == old(tasks)[i := Snapped(want)]
      ensures want == row.Some? && row == old(row)
    {
      want := row.Some?;
      RunSnoc(origin, trace, Task(i));
      overlap := overlap || exists j | 0 <= j < |tasks| :: Running(tasks[j]);
      tasks, trace := tasks[i := Snapped(want)], trace + [Task(i)];
    }

    /** user_promoted and user_demoted: snapshot of the local roles, then check_user_roles. If that
        leaves everything at rest in an undisturbed run, Keycloak and the local table agree. */
    method PushRoles(i: nat, others: nat -> seq<Event>) returns (changed: bool)
      requires Valid() && i < |tasks| && tasks[i] == Pending
      requires forall k, j | 0 <= j < |others(k)| :: AvoidsTask(others(k)[j], i)
      modifies this
      ensures Valid() && old(trace) <= trace && i < |tasks| && tasks[i] == Over
      ensures !overlap && !cut ==> ("admin" in kc <==> old(row).Some?)
      ensures !overlap && !cut && AtRest(State()) ==> ("admin" in kc <==> row.Some?)
    {
      var want := Snapshot(i);
      OthersAroundTask(i, others(0));
      changed := CheckUserRoles(i, want, others(1));
      AgreeAtRest(origin, trace);
    }
  }
}
