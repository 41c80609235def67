/** What every interleaving of any number of requests keeps: coherent enrollments, approvals
    that take effect at most once, and people rows left behind by failed approvals. */
module Coherence {
  import opened Wrappers
  import opened Database
  import opened Requests

  // ---- What is proved ------------------------------------------------------------------

  /** Decided, decided by someone and decided at some time are the same thing, an approved
      enrollment has its person, and enrollments are never deleted. */
  predicate CoherentRow(n: Enrollment) {
    && (n.state != Pending <==> n.decidedBy.Some?)
    && (n.state != Pending <==> n.decidedOn.Some?)
    && (n.state == Approved ==> n.person.Some?)
    && !n.deleted
  }

  ghost predicate Coherent(db: DB) {
    && (forall n | n in db.enrollments :: CoherentRow(db.enrollments[n]))
    && (forall n | n in db.enrollments && db.enrollments[n].person.Some? ::
          var p := db.enrollments[n].person.value;
          p in db.people && db.people[p].callsign == db.enrollments[n].callsign)
  }

  ghost predicate PersonsUnshared(db: DB) {
    forall n, m | n in db.enrollments && m in db.enrollments && n != m && db.enrollments[n].person.Some? ::
      db.enrollments[n].person != db.enrollments[m].person
  }

  /** What no step undoes. */
  ghost predicate Extends(db: DB, later: DB) {
    && (forall p | p in db.people :: p in later.people && PersonExtends(db.people[p], later.people[p]))
    && (forall n | n in db.enrollments :: n in later.enrollments && RowExtends(db.enrollments[n], later.enrollments[n]))
    && (forall p | p in db.pools :: p in later.pools && PoolExtends(db.pools[p], later.pools[p]))
  }

  predicate PersonExtends(p: Person, later: Person) {
    p.callsign == later.callsign && (p.deleted ==> later.deleted)
  }

  predicate RowExtends(n: Enrollment, later: Enrollment) {
    && later.callsign == n.callsign && later.pool == n.pool && later.csr == n.csr
    && (n.state != Pending ==> later.state != Pending)
    && (n.person.Some? ==> later.person == n.person)
  }

  predicate PoolExtends(p: Pool, later: Pool) {
    p.owner == later.owner && p.invitecode == later.invitecode && (p.deleted ==> later.deleted)
  }

  // ---- The invariant -------------------------------------------------------------------

  ghost predicate Unique(db: DB) {
    && (forall p, q | p in db.people && q in db.people && p != q :: db.people[p].callsign != db.people[q].callsign)
    && (forall n, m | n in db.enrollments && m in db.enrollments && n != m ::
          && db.enrollments[n].callsign != db.enrollments[m].callsign
          && db.enrollments[n].approvecode != db.enrollments[m].approvecode)
    && (forall p, q | p in db.pools && q in db.pools && p != q :: db.pools[p].invitecode != db.pools[q].invitecode)
  }

  ghost predicate DbInv(db: DB) {
    Unique(db) && Coherent(db)
  }

  /** The person row a request created and has not handed over yet. */
  function Owned(pc: Pc): Option<Pk> {
    match pc
    case CreateSign(p, _, _) => Some(p)
    case CreatePost(p, _, _) => Some(p)
    case ApproveCommit(p, _) => Some(p)
    case _ => None
  }

  predicate SeenOk(db: DB, n: Pk, seen: Enrollment) {
    n in db.enrollments && CoherentRow(seen) && RowExtends(seen, db.enrollments[n])
  }

  /** The row being approved was read earlier, and the callsign being created is its callsign. */
  predicate ApprovalOk(db: DB, a: Approval, callsign: string) {
    SeenOk(db, a.enrollment, a.seen) && a.seen.callsign == callsign
  }

  predicate CallerOk(db: DB, caller: Caller, callsign: string) {
    caller.ForEnrollment? ==> ApprovalOk(db, caller.a, callsign)
  }

  ghost predicate Unclaimed(db: DB, p: Pk, callsign: string) {
    && p in db.people && db.people[p].callsign == callsign
    && forall n | n in db.enrollments :: db.enrollments[n].person != Some(p)
  }

  ghost predicate PcInv(db: DB, pc: Pc) {
    match pc
    case AnonLoad(n, seen) => SeenOk(db, n, seen)
    case CreateGuard(callsign, _, caller) => CallerOk(db, caller, callsign)
    case CreateInsert(callsign, caller) => CallerOk(db, caller, callsign)
    case CreateSign(p, callsign, caller) => CallerOk(db, caller, callsign) && Unclaimed(db, p, callsign)
    case CreatePost(p, callsign, caller) => CallerOk(db, caller, callsign) && Unclaimed(db, p, callsign)
    case ApproveCommit(p, a) => ApprovalOk(db, a, a.seen.callsign) && Unclaimed(db, p, a.seen.callsign)
    case LockCommit(_, n, seen) => SeenOk(db, n, seen)
    case PoolCommit(p, seen, _) => p in db.pools && PoolExtends(seen, db.pools[p])
    case _ => true
  }

  ghost predicate Inv(s: Sys) {
    && DbInv(s.db)
    && (forall r | r in s.reqs :: PcInv(s.db, s.reqs[r]))
    && (forall r, q | r in s.reqs && q in s.reqs && r != q && Owned(s.reqs[r]).Some? ::
          Owned(s.reqs[r]) != Owned(s.reqs[q]))
    && GrantedOk(s)
  }

  ghost predicate GrantedOk(s: Sys) {
    && (forall i | 0 <= i < |s.granted| ::
          s.granted[i].0 in s.db.enrollments && s.db.enrollments[s.granted[i].0].person == Some(s.granted[i].1))
    && (forall i, j | 0 <= i < j < |s.granted| :: s.granted[i].0 != s.granted[j].0)
  }

  // ---- One step ------------------------------------------------------------------------

  /** Only the owner of a person row can make an enrollment refer to it. */
  ghost predicate ClaimsOnly(db: DB, later: DB, owned: Option<Pk>) {
    forall n | n in later.enrollments && later.enrollments[n].person.Some? ::
      (n in db.enrollments && db.enrollments[n].person == later.enrollments[n].person)
      || later.enrollments[n].person == owned
  }

  /** Callsigns are unique on both sides, so an enrollment's person is the one row so named. */
  lemma CallsignNamesPerson(db: DB, n: Pk, p: Pk)
    requires DbInv(db) && n in db.enrollments && p in db.people
    requires db.people[p].callsign == db.enrollments[n].callsign
    ensures db.enrollments[n].person.Some? ==> db.enrollments[n].person.value == p
  {
  }

  lemma ApprovalSeesNoPerson(db: DB, p: Pk, a: Approval)
    requires DbInv(db) && PcInv(db, ApproveCommit(p, a))
    ensures db.enrollments[a.enrollment].person.None? && a.seen.person.None? && a.seen.state != Approved
  {
    CallsignNamesPerson(db, a.enrollment, p);
  }

  lemma CommitKeepsUnique(db: DB, n: Pk, row: Enrollment)
    requires Unique(db) && n in db.enrollments && row.callsign == db.enrollments[n].callsign
    requires row.approvecode == db.enrollments[n].approvecode || ApprovecodeFits(db, row.approvecode)
    ensures Unique(WithEnrollment(db, n, row))
  {
  }

  lemma CommitKeeps(db: DB, n: Pk, row: Enrollment, owned: Option<Pk>)
    requires DbInv(db) && n in db.enrollments && CoherentRow(row) && RowExtends(db.enrollments[n], row)
    requires row.person == db.enrollments[n].person
             || (row.person == owned && owned.Some? && Unclaimed(db, owned.value, row.callsign))
    requires row.approvecode == db.enrollments[n].approvecode || ApprovecodeFits(db, row.approvecode)
    ensures var later := WithEnrollment(db, n, row);
            DbInv(later) && Extends(db, later) && ClaimsOnly(db, later, owned)
  {
    CommitKeepsUnique(db, n, row);
  }

  lemma InsertEnrollmentKeeps(db: DB, n: Pk, su: Signup, code: string)
    requires DbInv(db) && EnrollmentFits(db, n, su.callsign, code)
    ensures var later := WithEnrollment(db, n, NewEnrollment(su, code));
            DbInv(later) && Extends(db, later) && ClaimsOnly(db, later, None)
  {
  }

  lemma InsertPersonKeeps(db: DB, p: Pk, callsign: string)
    requires DbInv(db) && PersonFits(db, p, callsign)
    ensures var later := WithPerson(db, p, callsign);
            DbInv(later) && Extends(db, later) && ClaimsOnly(db, later, None) && Unclaimed(later, p, callsign)
  {
    var later := WithPerson(db, p, callsign);
    forall n | n in later.enrollments ensures later.enrollments[n].person != Some(p) {
      assert n in db.enrollments;
    }
  }

  lemma DeletePersonKeeps(db: DB, p: Pk)
    requires DbInv(db)
    ensures var later := WithDeletedPerson(db, p);
            DbInv(later) && Extends(db, later) && ClaimsOnly(db, later, None)
  {
  }

  lemma PoolKeeps(db: DB, p: Pk, row: Pool)
    requires DbInv(db)
    requires (p in db.pools && PoolExtends(db.pools[p], row)) || PoolFits(db, p, row.invitecode)
    ensures var later := WithPool(db, p, row);
            DbInv(later) && Extends(db, later) && ClaimsOnly(db, later, None)
  {
  }

  /** The tables' invariant holds after a step, nothing is undone, and the request itself is
      in order. */
  ghost predicate StepOk(db: DB, pc: Pc, t: Turn) {
    && DbInv(t.db) && Extends(db, t.db) && ClaimsOnly(db, t.db, Owned(pc))
    && PcInv(t.db, t.pc)
    && (Owned(t.pc).Some? ==> Owned(t.pc) == Owned(pc) || Owned(t.pc).value !in db.people)
  }

  predicate Writes(pc: Pc) {
    || pc.EnrollInsert? || pc.CreateInsert? || pc.CreateSign? || pc.ApproveCommit? || pc.RoleCommit?
    || pc.LockCommit? || pc.RevokeCommit? || pc.PoolCreate? || pc.PoolCommit? || pc.ResetCommit?
  }

  lemma SameDbOk(db: DB, pc: Pc, next: Pc)
    requires DbInv(db) && PcInv(db, next) && (Owned(next).Some? ==> Owned(next) == Owned(pc))
    ensures StepOk(db, pc, Turn(db, next))
  {
  }

  lemma QueryWritesNothing(cfg: Config, db: DB, pc: Pc, e: Env)
    requires !Writes(pc)
    ensures Step(cfg, db, pc, e).db == db
    ensures Owned(Step(cfg, db, pc, e).pc).Some? ==> Owned(Step(cfg, db, pc, e).pc) == Owned(pc)
  {
  }

  /** What a query read is in order because rows are. */
  lemma QueryPcInv(cfg: Config, db: DB, pc: Pc, e: Env)
    requires PcInv(db, pc) && !Writes(pc)
    requires forall n | n in db.enrollments :: CoherentRow(db.enrollments[n])
    ensures PcInv(db, Step(cfg, db, pc, e).pc)
  {
    if pc.AnonLoad? || pc.AcceptEnrollment? || pc.CreateGuard? || pc.CreatePost? {
      CreationPcInv(cfg, db, pc, e);
    }
  }

  lemma CreationPcInv(cfg: Config, db: DB, pc: Pc, e: Env)
    requires PcInv(db, pc) && (pc.AnonLoad? || pc.AcceptEnrollment? || pc.CreateGuard? || pc.CreatePost?)
    requires forall n | n in db.enrollments :: CoherentRow(db.enrollments[n])
    ensures PcInv(db, Step(cfg, db, pc, e).pc)
  {
  }

  lemma QueryKeeps(cfg: Config, db: DB, pc: Pc, e: Env)
    requires DbInv(db) && PcInv(db, pc) && !Writes(pc)
    ensures StepOk(db, pc, Step(cfg, db, pc, e))
  {
    QueryWritesNothing(cfg, db, pc, e);
    QueryPcInv(cfg, db, pc, e);
    SameDbOk(db, pc, Step(cfg, db, pc, e).pc);
  }

  lemma EnrollInsertKeeps(cfg: Config, db: DB, pc: Pc, e: Env)
    requires DbInv(db) && PcInv(db, pc) && pc.EnrollInsert?
    ensures StepOk(db, pc, Step(cfg, db, pc, e))
  {
    if Step(cfg, db, pc, e).db != db {
      InsertEnrollmentKeeps(db, e.pk, pc.su, e.code);
    }
  }

  lemma CreateInsertKeeps(cfg: Config, db: DB, pc: Pc, e: Env)
    requires DbInv(db) && PcInv(db, pc) && pc.CreateInsert?
    ensures StepOk(db, pc, Step(cfg, db, pc, e))
  {
    if Step(cfg, db, pc, e).db != db {
      InsertPersonKeeps(db, e.pk, pc.callsign);
    }
  }

  lemma ApproveStepKeeps(cfg: Config, db: DB, p: Pk, a: Approval, e: Env)
    requires DbInv(db) && PcInv(db, ApproveCommit(p, a))
    ensures var t := Step(cfg, db, ApproveCommit(p, a), e);
            && StepOk(db, ApproveCommit(p, a), t)
            && (Grants(db, ApproveCommit(p, a), e) ==>
                  Owned(t.pc).None? && t.db.enrollments[a.enrollment].person == Some(p))
  {
    ApprovalSeesNoPerson(db, p, a);
    if e.ok {
      CommitKeeps(db, a.enrollment, ApprovedRow(db.enrollments[a.enrollment], a.seen, a.approver, e.now, p), Some(p));
    } else {
      SameDbOk(db, ApproveCommit(p, a), Ended(Orphaned(p)));
    }
  }

  lemma LockStepKeeps(cfg: Config, db: DB, pc: Pc, e: Env)
    requires DbInv(db) && PcInv(db, pc) && pc.LockCommit?
    ensures StepOk(db, pc, Step(cfg, db, pc, e))
  {
    if e.ok {
      CommitKeeps(db, pc.enrollment, RejectedRow(db.enrollments[pc.enrollment], pc.seen, pc.decider, e.now), None);
    } else {
      SameDbOk(db, pc, Ended(Refused));
    }
  }

  lemma ResetStepKeeps(cfg: Config, db: DB, pc: Pc, e: Env)
    requires DbInv(db) && PcInv(db, pc) && pc.ResetCommit?
    ensures StepOk(db, pc, Step(cfg, db, pc, e))
  {
    var n := pc.enrollment;
    if e.ok && n in db.enrollments && ApprovecodeFits(db, e.code) {
      CommitKeeps(db, n, db.enrollments[n].(approvecode := e.code), None);
    } else {
      SameDbOk(db, pc, Ended(Refused));
    }
  }

  /** Roles and directories are no part of the invariant. */
  lemma SideTablesFree(db: DB, dirs: set<Pk>, roles: set<(Pk, string)>, pc: Pc)
    requires DbInv(db)
    ensures var later := db.(dirs := dirs, roles := roles);
            && DbInv(later) && Extends(db, later) && ClaimsOnly(db, later, None)
            && (PcInv(db, pc) ==> PcInv(later, pc))
  {
  }

  lemma CreateSignKeeps(cfg: Config, db: DB, pc: Pc, e: Env)
    requires DbInv(db) && PcInv(db, pc) && pc.CreateSign?
    ensures StepOk(db, pc, Step(cfg, db, pc, e))
  {
    if e.ok {
      SameDbOk(db, pc, CreatePost(pc.person, pc.callsign, pc.caller));
    } else {
      SideTablesFree(db, db.dirs - {pc.person}, db.roles, Ended(Refused));
    }
  }

  lemma RoleCommitKeeps(cfg: Config, db: DB, pc: Pc, e: Env)
    requires DbInv(db) && pc.RoleCommit?
    ensures StepOk(db, pc, Step(cfg, db, pc, e))
  {
    SideTablesFree(db, db.dirs, Step(cfg, db, pc, e).db.roles, AfterRole(pc.next));
  }

  lemma RevokeKeeps(cfg: Config, db: DB, pc: Pc, e: Env)
    requires DbInv(db) && pc.RevokeCommit?
    ensures StepOk(db, pc, Step(cfg, db, pc, e))
  {
    DeletePersonKeeps(db, pc.person);
  }

  lemma PoolStepKeeps(cfg: Config, db: DB, pc: Pc, e: Env)
    requires DbInv(db) && PcInv(db, pc) && (pc.PoolCreate? || pc.PoolCommit?)
    ensures StepOk(db, pc, Step(cfg, db, pc, e))
  {
    if pc.PoolCreate? && e.ok && PoolFits(db, e.pk, e.code) {
      PoolKeeps(db, e.pk, Pool(pc.owner, true, false, e.code));
    } else if pc.PoolCommit? && e.ok {
      PoolKeeps(db, pc.pool, PoolAfter(db.pools[pc.pool], pc.seenPool, pc.action));
    } else {
      SameDbOk(db, pc, Ended(Refused));
    }
  }

  lemma StepKeeps(cfg: Config, db: DB, pc: Pc, e: Env)
    requires DbInv(db) && PcInv(db, pc)
    ensures StepOk(db, pc, Step(cfg, db, pc, e))
    ensures Grants(db, pc, e) ==>
              && Owned(Step(cfg, db, pc, e).pc).None?
              && Step(cfg, db, pc, e).db.enrollments[pc.a.enrollment].person == Some(pc.person)
  {
    if !Writes(pc) {
      QueryKeeps(cfg, db, pc, e);
    } else if pc.EnrollInsert? {
      EnrollInsertKeeps(cfg, db, pc, e);
    } else if pc.CreateInsert? {
      CreateInsertKeeps(cfg, db, pc, e);
    } else if pc.ApproveCommit? {
      ApproveStepKeeps(cfg, db, pc.person, pc.a, e);
    } else if pc.LockCommit? {
      LockStepKeeps(cfg, db, pc, e);
    } else if pc.ResetCommit? {
      ResetStepKeeps(cfg, db, pc, e);
    } else if pc.PoolCreate? || pc.PoolCommit? {
      PoolStepKeeps(cfg, db, pc, e);
    } else if pc.CreateSign? {
      CreateSignKeeps(cfg, db, pc, e);
    } else if pc.RoleCommit? {
      RoleCommitKeeps(cfg, db, pc, e);
    } else {
      RevokeKeeps(cfg, db, pc, e);
    }
  }

  /** The other requests stay in order while one of them takes a step. */
  lemma OthersKeep(db: DB, later: DB, owned: Option<Pk>, other: Pc)
    requires PcInv(db, other) && Extends(db, later) && ClaimsOnly(db, later, owned)
    requires Owned(other).Some? ==> Owned(other) != owned
    ensures PcInv(later, other)
  {
  }

  lemma ActKeepsRequests(cfg: Config, s: Sys, id: nat, e: Env)
    requires Inv(s) && id in s.reqs
    requires StepOk(s.db, s.reqs[id], Step(cfg, s.db, s.reqs[id], e))
    ensures var later := Next(cfg, s, Act(id, e));
            && (forall r | r in later.reqs :: PcInv(later.db, later.reqs[r]))
            && (forall r, q | r in later.reqs && q in later.reqs && r != q && Owned(later.reqs[r]).Some? ::
                  Owned(later.reqs[r]) != Owned(later.reqs[q]))
  {
    var t := Step(cfg, s.db, s.reqs[id], e);
    forall r | r in s.reqs && r != id
      ensures PcInv(t.db, s.reqs[r])
      ensures Owned(t.pc).Some? ==> Owned(t.pc) != Owned(s.reqs[r])
    {
      OthersKeep(s.db, t.db, Owned(s.reqs[id]), s.reqs[r]);
    }
  }

  lemma ActKeepsGranted(cfg: Config, s: Sys, id: nat, e: Env)
    requires Inv(s) && id in s.reqs
    ensures GrantedOk(Next(cfg, s, Act(id, e)))
  {
    var pc := s.reqs[id];
    StepKeeps(cfg, s.db, pc, e);
    var t := Step(cfg, s.db, pc, e);
    if Grants(s.db, pc, e) {
      ApprovalSeesNoPerson(s.db, pc.person, pc.a);
      GrantKeepsGranted(s, t.db, pc.a.enrollment, pc.person);
    } else {
      GrantedStay(s, t.db);
    }
  }

  /** A set person is never replaced, so earlier grants stay as they are. */
  lemma GrantedStay(s: Sys, later: DB)
    requires GrantedOk(s) && Extends(s.db, later)
    ensures GrantedOk(Sys(later, s.reqs, s.granted))
  {
  }

  lemma GrantKeepsGranted(s: Sys, later: DB, n: Pk, p: Pk)
    requires GrantedOk(s) && Extends(s.db, later)
    requires n in s.db.enrollments && s.db.enrollments[n].person.None?
    requires n in later.enrollments && later.enrollments[n].person == Some(p)
    ensures GrantedOk(Sys(later, s.reqs, s.granted + [(n, p)]))
  {
    GrantedStay(s, later);
    var more := s.granted + [(n, p)];
    forall i | 0 <= i < |more|
      ensures more[i].0 in later.enrollments && later.enrollments[more[i].0].person == Some(more[i].1)
      ensures i < |s.granted| ==> more[i].0 != n
    {
      if i < |s.granted| {
        assert more[i] == s.granted[i];
      }
    }
  }

  lemma NextKeepsAct(cfg: Config, s: Sys, id: nat, e: Env)
    requires Inv(s) && id in s.reqs
    ensures Inv(Next(cfg, s, Act(id, e))) && Extends(s.db, Next(cfg, s, Act(id, e)).db)
  {
    StepKeeps(cfg, s.db, s.reqs[id], e);
    ActKeepsRequests(cfg, s, id, e);
    ActKeepsGranted(cfg, s, id, e);
  }

  lemma NextKeepsOther(cfg: Config, s: Sys, ev: Event)
    requires Inv(s) && !ev.Act?
    ensures Inv(Next(cfg, s, ev)) && Next(cfg, s, ev).db == s.db
  {
    if ev.Start? && ev.id !in s.reqs && Entry(ev.entry) {
      assert Owned(ev.entry).None? && PcInv(s.db, ev.entry);
    }
  }

  lemma NextKeeps(cfg: Config, s: Sys, ev: Event)
    requires Inv(s)
    ensures Inv(Next(cfg, s, ev)) && Extends(s.db, Next(cfg, s, ev).db)
  {
    if !ev.Act? {
      NextKeepsOther(cfg, s, ev);
    } else if ev.id in s.reqs {
      NextKeepsAct(cfg, s, ev.id, ev.e);
    }
  }

  lemma ExtendsTransitive(a: DB, b: DB, c: DB)
    requires Extends(a, b) && Extends(b, c)
    ensures Extends(a, c)
  {
  }

  lemma {:induction false} RunKeeps(cfg: Config, s: Sys, evs: seq<Event>)
    requires Inv(s)
    ensures Inv(Run(cfg, s, evs)) && Extends(s.db, Run(cfg, s, evs).db)
    decreases |evs|
  {
    if evs != [] {
      NextKeeps(cfg, s, evs[0]);
      RunKeeps(cfg, Next(cfg, s, evs[0]), evs[1..]);
      ExtendsTransitive(s.db, Next(cfg, s, evs[0]).db, Run(cfg, s, evs).db);
    }
  }

  // ---- Persons come from approvals -----------------------------------------------------

  /** Whoever an enrollment refers to was granted by an approval. */
  ghost predicate PersonsGranted(s: Sys) {
    forall n | n in s.db.enrollments && s.db.enrollments[n].person.Some? ::
      (n, s.db.enrollments[n].person.value) in s.granted
  }

  lemma OnlyGrantsSetPersons(cfg: Config, db: DB, pc: Pc, e: Env)
    requires Writes(pc)
    ensures var later := Step(cfg, db, pc, e).db;
            forall n | n in later.enrollments && later.enrollments[n].person.Some? ::
              || (n in db.enrollments && db.enrollments[n].person == later.enrollments[n].person)
              || (Grants(db, pc, e) && n == pc.a.enrollment && later.enrollments[n].person.value == pc.person)
  {
  }

  lemma NextKeepsPersonsGranted(cfg: Config, s: Sys, ev: Event)
    requires PersonsGranted(s)
    ensures PersonsGranted(Next(cfg, s, ev))
  {
    if ev.Act? && ev.id in s.reqs {
      if Writes(s.reqs[ev.id]) {
        OnlyGrantsSetPersons(cfg, s.db, s.reqs[ev.id], ev.e);
      } else {
        QueryWritesNothing(cfg, s.db, s.reqs[ev.id], ev.e);
      }
    }
  }

  lemma {:induction false} RunKeepsPersonsGranted(cfg: Config, s: Sys, evs: seq<Event>)
    requires PersonsGranted(s)
    ensures PersonsGranted(Run(cfg, s, evs))
    decreases |evs|
  {
    if evs != [] {
      NextKeepsPersonsGranted(cfg, s, evs[0]);
      RunKeepsPersonsGranted(cfg, Next(cfg, s, evs[0]), evs[1..]);
    }
  }

  // ---- Main results --------------------------------------------------------------------

  /** Enrollments are coherent in every reachable state, and no two share a person. */
  lemma CoherentAlways(cfg: Config, evs: seq<Event>)
    ensures var db := Run(cfg, IDLE, evs).db;
            Coherent(db) && PersonsUnshared(db) && Unique(db)
  {
    RunKeeps(cfg, IDLE, evs);
  }

  /** From any reachable state on: rows stay, callsigns and pools of rows never change, deletion
      is final, a decided enrollment is never pending again and a set person is never replaced. */
  lemma HistoryOnlyGrows(cfg: Config, evs: seq<Event>, more: seq<Event>)
    ensures var s := Run(cfg, IDLE, evs);
            Extends(s.db, Run(cfg, s, more).db)
  {
    RunKeeps(cfg, IDLE, evs);
    RunKeeps(cfg, Run(cfg, IDLE, evs), more);
  }

  /** However many approvers race, and whatever was rejected or revoked in between, at most one
      approval of an enrollment takes effect, and the enrollment refers to the person it returned
      and, without such an approval, to nobody. */
  lemma ApprovalTakesEffectOnce(cfg: Config, evs: seq<Event>)
    ensures var s := Run(cfg, IDLE, evs);
            && (forall i, j | 0 <= i < j < |s.granted| :: s.granted[i].0 != s.granted[j].0)
            && (forall i | 0 <= i < |s.granted| ::
                  s.granted[i].0 in s.db.enrollments && s.db.enrollments[s.granted[i].0].person == Some(s.granted[i].1))
            && (forall n | n in s.db.enrollments && s.db.enrollments[n].person.Some? ::
                  (n, s.db.enrollments[n].person.value) in s.granted)
  {
    RunKeeps(cfg, IDLE, evs);
    RunKeepsPersonsGranted(cfg, IDLE, evs);
  }
}
