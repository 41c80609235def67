/** Every request that changes people, enrollments, pools or roles, as a program whose steps
    are single queries or single commits. The environment picks the answers of queries, the
    random identifiers and codes, and which external calls and commits fail. */
module Requests {
  import opened Wrappers
  import opened Database

  /** What the environment contributes to one step. */
  datatype Env = Env(ok: bool, hit: Option<Pk>, pk: Pk, code: string, now: Time)

  /** The arguments of Enrollment.create_for_callsign; `firstAdmin` when called by post_admin_add. */
  datatype Signup = Signup(callsign: string, pool: Option<Pk>, csr: Option<string>, firstAdmin: bool)

  /** An approval in progress: the enrollment and the row as it was read. */
  datatype Approval = Approval(enrollment: Pk, seen: Enrollment, approver: Pk, firstAdmin: bool)

  /** Who called create_with_cert. */
  datatype Caller = ForEnrollment(a: Approval) | ForAnonAdmin(su: Signup) | ForCli(admin: bool)

  datatype PoolAction = Activate | Deactivate | Delete

  datatype Outcome = Finished | Refused | Orphaned(person: Pk) | Crashed

  /** The next step a request will take. */
  datatype Pc =
    | AdminAdd(su: Signup)
    | EnrollLookup(su: Signup)
    | EnrollInsert(su: Signup)
    | AnonLoad(enrollment: Pk, seen: Enrollment)
    | InviteLookup(code: string, su: Signup)
    | InviteNameCheck(su: Signup)
    | AcceptActor(actor: string, target: string, approvecode: string)
    | AcceptEnrollment(approver: Pk, target: string, approvecode: string)
    | CreateGuard(callsign: string, csr: Option<string>, caller: Caller)
    | CreateInsert(callsign: string, caller: Caller)
    | CreateSign(person: Pk, callsign: string, caller: Caller)
    | CreatePost(person: Pk, callsign: string, caller: Caller)
    | ApproveCommit(person: Pk, a: Approval)
    | RoleLookup(target: string, add: bool)
    | RoleQuery(person: Pk, role: string, add: bool, next: Option<Signup>)
    | RoleCommit(person: Pk, role: string, add: bool, next: Option<Signup>)
    | LockActor(actor: string, target: string)
    | LockEnrollment(decider: Pk, target: string)
    | LockCommit(decider: Pk, enrollment: Pk, seen: Enrollment)
    | RevokeLookup(target: string)
    | RevokeCommit(person: Pk)
    | RevokeCert(person: Pk)
    | PoolCreate(owner: Pk)
    | PoolLookup(code: string, action: PoolAction)
    | PoolCommit(pool: Pk, seenPool: Pool, action: PoolAction)
    | ResetLookup(target: string)
    | ResetCommit(enrollment: Pk)
    | Ended(out: Outcome)

  datatype Turn = Turn(db: DB, pc: Pc)

  /** The routes (and the one command-line entry) a caller can start. Who may call them is not
      restricted: what is proved holds whoever calls. */
  predicate Entry(pc: Pc) {
    match pc
    case AdminAdd(su) => su.firstAdmin && su.pool.None?
    case EnrollLookup(su) => !su.firstAdmin && su.pool.None?
    case InviteLookup(_, su) => !su.firstAdmin && su.pool.None?
    case CreateGuard(_, csr, caller) => csr.None? && caller.ForCli?
    case AcceptActor(_, _, _) | RoleLookup(_, _) | LockActor(_, _) => true
    case RevokeLookup(_) | PoolCreate(_) | PoolLookup(_, _) | ResetLookup(_) => true
    case _ => false
  }

  function AfterRole(next: Option<Signup>): Pc {
    if next.Some? then EnrollLookup(next.value) else Ended(Finished)
  }

  function AfterCreate(person: Pk, caller: Caller): Pc {
    match caller
    case ForEnrollment(a) => ApproveCommit(person, a)
    case ForAnonAdmin(su) => RoleQuery(person, ANON_ADMIN, true, Some(su))
    case ForCli(admin) => if admin then RoleQuery(person, "admin", true, None) else Ended(Finished)
  }

  function NewEnrollment(su: Signup, code: string): Enrollment {
    Enrollment(code, su.callsign, Pending, None, None, None, su.pool, su.csr, false)
  }

  function PoolAfter(row: Pool, seen: Pool, action: PoolAction): Pool {
    match action
    case Activate => row.(active := Dirty(seen.active, true, row.active))
    case Deactivate => row.(active := Dirty(seen.active, false, row.active))
    case Delete => row.(deleted := true)
  }

  /** One step. An answer the query could not have given leaves the request where it is. */
  function Step(cfg: Config, db: DB, pc: Pc, e: Env): Turn {
    match pc
    case AdminAdd(su) =>
      if !PersonAnswer(cfg, db, ANON_ADMIN, e.hit) then Turn(db, pc)
      else if e.hit.Some? then Turn(db, EnrollLookup(su))
      else Turn(db, CreateGuard(ANON_ADMIN, None, ForAnonAdmin(su)))
    case EnrollLookup(su) =>
      if su.callsign in cfg.productCns || !CsrFits(cfg, su.csr, su.callsign) then Turn(db, Ended(Refused))
      else if !EnrollmentAnswer(cfg, db, su.callsign, e.hit) then Turn(db, pc)
      else if LiveEnrollment(db, e.hit) then Turn(db, Ended(Refused))
      else Turn(db, EnrollInsert(su))
    case EnrollInsert(su) =>
      if !e.ok || !EnrollmentFits(db, e.pk, su.callsign, e.code) then Turn(db, Ended(Refused))
      else
        var row := NewEnrollment(su, e.code);
        Turn(WithEnrollment(db, e.pk, row), if su.firstAdmin then AnonLoad(e.pk, row) else Ended(Finished))
    case AnonLoad(n, seen) =>
      if !PersonAnswer(cfg, db, ANON_ADMIN, e.hit) then Turn(db, pc)
      else if !LivePerson(db, e.hit) then Turn(db, Ended(Refused))
      else Turn(db, CreateGuard(seen.callsign, seen.csr, ForEnrollment(Approval(n, seen, e.hit.value, true))))
    case InviteLookup(code, su) =>
      if !PoolAnswer(db, code, e.hit) then Turn(db, pc)
      else if !LivePool(db, e.hit) || !db.pools[e.hit.value].active then Turn(db, Ended(Refused))
      else Turn(db, InviteNameCheck(su.(pool := e.hit)))
    case InviteNameCheck(su) =>
      if !EnrollmentAnswer(cfg, db, su.callsign, e.hit) then Turn(db, pc)
      else if LiveEnrollment(db, e.hit) then Turn(db, Ended(Refused))
      else Turn(db, EnrollLookup(su))
    case AcceptActor(actor, target, code) =>
      if !PersonAnswer(cfg, db, actor, e.hit) then Turn(db, pc)
      else if !LivePerson(db, e.hit) then Turn(db, Ended(Refused))
      else Turn(db, AcceptEnrollment(e.hit.value, target, code))
    case AcceptEnrollment(approver, target, code) =>
      if !EnrollmentAnswer(cfg, db, target, e.hit) then Turn(db, pc)
      else if !LiveEnrollment(db, e.hit) || db.enrollments[e.hit.value].approvecode != code then
        Turn(db, Ended(Refused))
      else
        var row := db.enrollments[e.hit.value];
        Turn(db, CreateGuard(row.callsign, row.csr, ForEnrollment(Approval(e.hit.value, row, approver, false))))
    case CreateGuard(callsign, csr, caller) =>
      if !NameAllowed(cfg, callsign, csr) then Turn(db, Ended(Refused))
      else if !PersonAnswer(cfg, db, callsign, e.hit) then Turn(db, pc)
      else if LivePerson(db, e.hit) then Turn(db, Ended(Refused))
      else Turn(db, CreateInsert(callsign, caller))
    case CreateInsert(callsign, caller) =>
      if e.pk in db.dirs || !e.ok || !PersonFits(db, e.pk, callsign) then Turn(db, Ended(Refused))
      else Turn(WithPerson(db, e.pk, callsign), CreateSign(e.pk, callsign, caller))
    case CreateSign(p, callsign, caller) =>
      if e.ok then Turn(db, CreatePost(p, callsign, caller))
      else Turn(db.(dirs := db.dirs - {p}), Ended(Orphaned(p)))
    case CreatePost(p, callsign, caller) =>
      Turn(db, if e.ok then AfterCreate(p, caller) else Ended(Orphaned(p)))
    case ApproveCommit(p, a) =>
      if !e.ok || a.enrollment !in db.enrollments then Turn(db, Ended(Orphaned(p)))
      else
        var row := ApprovedRow(db.enrollments[a.enrollment], a.seen, a.approver, e.now, p);
        Turn(WithEnrollment(db, a.enrollment, row),
             if a.firstAdmin then RoleQuery(p, "admin", true, None) else Ended(Finished))
    case RoleLookup(target, add) =>
      if !PersonAnswer(cfg, db, target, e.hit) then Turn(db, pc)
      else if !LivePerson(db, e.hit) then Turn(db, Ended(Refused))
      else Turn(db, RoleQuery(e.hit.value, "admin", add, None))
    case RoleQuery(p, role, add, next) =>
      Turn(db, if ((p, role) in db.roles) == add then AfterRole(next) else RoleCommit(p, role, add, next))
    case RoleCommit(p, role, add, next) =>
      if !e.ok || ((p, role) in db.roles) == add then Turn(db, Ended(Refused))
      else
        Turn(db.(roles := WithRole(db.roles, p, role, add)), AfterRole(next))
    case LockActor(actor, target) =>
      if !PersonAnswer(cfg, db, actor, e.hit) then Turn(db, pc)
      else if !LivePerson(db, e.hit) then Turn(db, Ended(Refused))
      else Turn(db, LockEnrollment(e.hit.value, target))
    case LockEnrollment(decider, target) =>
      if !EnrollmentAnswer(cfg, db, target, e.hit) then Turn(db, pc)
      else if !LiveEnrollment(db, e.hit) then Turn(db, Ended(Refused))
      else Turn(db, LockCommit(decider, e.hit.value, db.enrollments[e.hit.value]))
    case LockCommit(decider, n, seen) =>
      if !e.ok || n !in db.enrollments then Turn(db, Ended(Refused))
      else
        Turn(WithEnrollment(db, n, RejectedRow(db.enrollments[n], seen, decider, e.now)), Ended(Finished))
    case RevokeLookup(target) =>
      if !PersonAnswer(cfg, db, target, e.hit) then Turn(db, pc)
      else if !LivePerson(db, e.hit) then Turn(db, Ended(Refused))
      else Turn(db, RevokeCommit(e.hit.value))
    case RevokeCommit(p) =>
      if e.ok then Turn(WithDeletedPerson(db, p), RevokeCert(p)) else Turn(db, Ended(Refused))
    case RevokeCert(_) => Turn(db, Ended(if e.ok then Finished else Refused))
    case PoolCreate(owner) =>
      if !e.ok || !PoolFits(db, e.pk, e.code) then Turn(db, Ended(Refused))
      else Turn(WithPool(db, e.pk, Pool(owner, true, false, e.code)), Ended(Finished))
    case PoolLookup(code, action) =>
      if !PoolAnswer(db, code, e.hit) then Turn(db, pc)
      else if !LivePool(db, e.hit) then Turn(db, Ended(Refused))
      else Turn(db, PoolCommit(e.hit.value, db.pools[e.hit.value], action))
    case PoolCommit(p, seen, action) =>
      if !e.ok || p !in db.pools then Turn(db, Ended(Refused))
      else Turn(WithPool(db, p, PoolAfter(db.pools[p], seen, action)), Ended(Finished))
    case ResetLookup(target) =>
      if !EnrollmentAnswer(cfg, db, target, e.hit) then Turn(db, pc)
      else if !LiveEnrollment(db, e.hit) then Turn(db, Ended(Refused))
      else Turn(db, ResetCommit(e.hit.value))
    case ResetCommit(n) =>
      if !e.ok || n !in db.enrollments || !ApprovecodeFits(db, e.code) then Turn(db, Ended(Refused))
      else Turn(WithEnrollment(db, n, db.enrollments[n].(approvecode := e.code)), Ended(Finished))
    case Ended(_) => Turn(db, pc)
  }

  // ---- Any number of requests, interleaved in any order --------------------------------

  /** `granted` lists every approval that took effect: the enrollment and the person returned. */
  datatype Sys = Sys(db: DB, reqs: map<nat, Pc>, granted: seq<(Pk, Pk)>)

  datatype Event = Start(id: nat, entry: Pc) | Act(id: nat, e: Env) | Crash(id: nat)

  const IDLE := Sys(EMPTY_DB, map[], [])

  predicate Grants(db: DB, pc: Pc, e: Env) {
    pc.ApproveCommit? && e.ok && pc.a.enrollment in db.enrollments
  }

  function Next(cfg: Config, s: Sys, ev: Event): Sys {
    match ev
    case Start(id, entry) =>
      if id in s.reqs || !Entry(entry) then s else s.(reqs := s.reqs[id := entry])
    case Act(id, e) =>
      if id !in s.reqs then s
      else
        var pc := s.reqs[id];
        var t := Step(cfg, s.db, pc, e);
        Sys(t.db, s.reqs[id := t.pc],
            if Grants(s.db, pc, e) then s.granted + [(pc.a.enrollment, pc.person)] else s.granted)
    case Crash(id) =>
      if id !in s.reqs then s else s.(reqs := s.reqs[id := Ended(Crashed)])
  }

  function Run(cfg: Config, s: Sys, evs: seq<Event>): Sys
    decreases |evs|
  {
    if evs == [] then s else Run(cfg, Next(cfg, s, evs[0]), evs[1..])
  }

  // ---- One request at a time -----------------------------------------------------------

  /** One request run on its own for as many steps as there are environments; running out of
      them early is a crash of the worker in the middle of the request. */
  function Solo(cfg: Config, db: DB, pc: Pc, es: seq<Env>): Turn {
    if es == [] then Turn(db, pc)
    else
      var t := Solo(cfg, db, pc, es[..|es| - 1]);
      Step(cfg, t.db, t.pc, es[|es| - 1])
  }

  datatype Job = Job(entry: Pc, es: seq<Env>)

  /** A serial run: each request finishes (or crashes) before the next one starts. */
  function Serial(cfg: Config, db: DB, jobs: seq<Job>): DB {
    if jobs == [] then db
    else
      var prev := Serial(cfg, db, jobs[..|jobs| - 1]);
      var job := jobs[|jobs| - 1];
      if Entry(job.entry) then Solo(cfg, prev, job.entry, job.es).db else prev
  }

  lemma SoloSnoc(cfg: Config, db: DB, pc: Pc, es: seq<Env>, e: Env)
    ensures var t := Solo(cfg, db, pc, es);
            Solo(cfg, db, pc, es + [e]) == Step(cfg, t.db, t.pc, e)
  {
    assert (es + [e])[..|es|] == es;
  }

  /** One more step from a known point of a run. */
  lemma Advance(cfg: Config, db: DB, pc: Pc, es: seq<Env>, at: Turn, e: Env, next: Turn)
    requires Solo(cfg, db, pc, es) == at && Step(cfg, at.db, at.pc, e) == next
    ensures Solo(cfg, db, pc, es + [e]) == next
  {
    SoloSnoc(cfg, db, pc, es, e);
  }

  lemma {:induction false} SoloConcat(cfg: Config, db: DB, pc: Pc, es: seq<Env>, fs: seq<Env>)
    ensures var t := Solo(cfg, db, pc, es);
            Solo(cfg, db, pc, es + fs) == Solo(cfg, t.db, t.pc, fs)
  {
    if fs == [] {
      assert es + fs == es;
    } else {
      var init := fs[..|fs| - 1];
      SoloConcat(cfg, db, pc, es, init);
      assert (es + fs)[..|es + fs| - 1] == es + init;
    }
  }
}
