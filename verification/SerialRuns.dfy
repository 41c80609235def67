/** Requests served one at a time: callsigns that differ only by case never name two people,
    a revoked callsign stays revoked, and pools that are closed gain no enrollments. */
module SerialRuns {
  import opened Wrappers
  import opened Database
  import opened Requests
  import opened Coherence

  /** A route of the API, used on anyone but anon_admin when it revokes. */
  predicate ApiJob(cfg: Config, job: Job) {
    && !job.entry.CreateGuard?
    && (job.entry.RevokeLookup? ==> !SameName(cfg, job.entry.target, ANON_ADMIN))
  }

  predicate ApiJobs(cfg: Config, jobs: seq<Job>) {
    forall i | 0 <= i < |jobs| :: ApiJob(cfg, jobs[i])
  }

  predicate PeopleFoldUnique(cfg: Config, db: DB) {
    forall p, q | p in db.people && q in db.people && p != q ::
      !SameName(cfg, db.people[p].callsign, db.people[q].callsign)
  }

  predicate EnrollmentsFoldUnique(cfg: Config, db: DB) {
    forall n, m | n in db.enrollments && m in db.enrollments && n != m ::
      !SameName(cfg, db.enrollments[n].callsign, db.enrollments[m].callsign)
  }

  /** Everyone but anon_admin has exactly the callsign of an enrollment. */
  predicate PeopleEnrolled(db: DB) {
    forall p | p in db.people && db.people[p].callsign != ANON_ADMIN ::
      exists n | n in db.enrollments :: db.enrollments[n].callsign == db.people[p].callsign
  }

  predicate AnonAdminLive(cfg: Config, db: DB) {
    forall p | p in db.people && SameName(cfg, db.people[p].callsign, ANON_ADMIN) :: !db.people[p].deleted
  }

  ghost predicate NamesInv(cfg: Config, db: DB) {
    && PeopleFoldUnique(cfg, db)
    && EnrollmentsFoldUnique(cfg, db)
    && PeopleEnrolled(db)
    && AnonAdminLive(cfg, db)
  }

  predicate PoolOpen(db: DB, pool: Option<Pk>) {
    pool.Some? ==> pool.value in db.pools && db.pools[pool.value].active && !db.pools[pool.value].deleted
  }

  predicate NoneNamed(cfg: Config, db: DB, callsign: string) {
    forall p | p in db.people :: !SameName(cfg, db.people[p].callsign, callsign)
  }

  predicate NoneLiveNamed(cfg: Config, db: DB, callsign: string) {
    forall p | p in db.people && SameName(cfg, db.people[p].callsign, callsign) :: db.people[p].deleted
  }

  predicate NoneEnrolled(cfg: Config, db: DB, callsign: string) {
    forall n | n in db.enrollments :: !SameName(cfg, db.enrollments[n].callsign, callsign)
  }

  predicate CallerClear(cfg: Config, db: DB, caller: Caller, callsign: string) {
    match caller
    case ForEnrollment(_) => true
    case ForAnonAdmin(su) => callsign == ANON_ADMIN && su.pool.None? && NoneNamed(cfg, db, ANON_ADMIN)
    case ForCli(_) => false
  }

  predicate LaterPoolFree(caller: Caller) {
    caller.ForAnonAdmin? ==> caller.su.pool.None?
  }

  /** What the one running request has checked still holds, since nobody else runs. */
  predicate SerialPc(cfg: Config, db: DB, pc: Pc) {
    match pc
    case AdminAdd(su) => su.pool.None?
    case EnrollLookup(su) => PoolOpen(db, su.pool)
    case InviteNameCheck(su) => PoolOpen(db, su.pool)
    case EnrollInsert(su) => PoolOpen(db, su.pool) && NoneEnrolled(cfg, db, su.callsign)
    case CreateGuard(callsign, _, caller) => CallerClear(cfg, db, caller, callsign)
    case CreateInsert(callsign, caller) => CallerClear(cfg, db, caller, callsign) && NoneLiveNamed(cfg, db, callsign)
    case CreateSign(_, _, caller) => LaterPoolFree(caller)
    case CreatePost(_, _, caller) => LaterPoolFree(caller)
    case RoleQuery(_, _, _, next) => next.Some? ==> next.value.pool.None?
    case RoleCommit(_, _, _, next) => next.Some? ==> next.value.pool.None?
    case RevokeLookup(target) => !SameName(cfg, target, ANON_ADMIN)
    case RevokeCommit(p) => p in db.people ==> !SameName(cfg, db.people[p].callsign, ANON_ADMIN)
    case _ => true
  }

  ghost predicate SerialInv(cfg: Config, db: DB, pc: Pc) {
    DbInv(db) && PcInv(db, pc) && NamesInv(cfg, db) && SerialPc(cfg, db, pc)
  }

  // ---- One step ------------------------------------------------------------------------

  /** The heart of name uniqueness: a deleted person of another spelling would have an enrollment
      of that spelling, and the enrollment being approved is the only one up to case. */
  lemma ApprovedNameIsNew(cfg: Config, db: DB, a: Approval, callsign: string, p: Pk)
    requires NamesInv(cfg, db) && NoneLiveNamed(cfg, db, callsign)
    requires a.enrollment in db.enrollments && db.enrollments[a.enrollment].callsign == callsign
    requires PersonFits(db, p, callsign)
    ensures NoneNamed(cfg, db, callsign)
  {
    forall q | q in db.people ensures !SameName(cfg, db.people[q].callsign, callsign) {
      if db.people[q].callsign != ANON_ADMIN {
        var n :| n in db.enrollments && db.enrollments[n].callsign == db.people[q].callsign;
      }
    }
  }

  lemma CreateInsertKeepsNames(cfg: Config, db: DB, pc: Pc, e: Env)
    requires SerialInv(cfg, db, pc) && pc.CreateInsert?
    ensures NamesInv(cfg, Step(cfg, db, pc, e).db)
  {
    var later := Step(cfg, db, pc, e).db;
    if later != db {
      if pc.caller.ForEnrollment? {
        ApprovedNameIsNew(cfg, db, pc.caller.a, pc.callsign, e.pk);
        assert db.enrollments[pc.caller.a.enrollment].callsign == pc.callsign;
      }
      assert NoneNamed(cfg, db, pc.callsign);
    }
  }

  lemma EnrollInsertKeepsNames(cfg: Config, db: DB, pc: Pc, e: Env)
    requires SerialInv(cfg, db, pc) && pc.EnrollInsert?
    ensures NamesInv(cfg, Step(cfg, db, pc, e).db)
  {
    var later := Step(cfg, db, pc, e).db;
    forall p | p in later.people && later.people[p].callsign != ANON_ADMIN
      ensures exists n | n in later.enrollments :: later.enrollments[n].callsign == later.people[p].callsign
    {
      var n :| n in db.enrollments && db.enrollments[n].callsign == db.people[p].callsign;
      assert later.enrollments[n].callsign == later.people[p].callsign;
    }
  }

  /** Rewriting rows without touching callsigns or deletion of people keeps the names in order. */
  lemma SameNamesKeep(cfg: Config, db: DB, later: DB)
    requires NamesInv(cfg, db)
    requires later.people == db.people && later.enrollments.Keys == db.enrollments.Keys
    requires forall n | n in db.enrollments :: later.enrollments[n].callsign == db.enrollments[n].callsign
    ensures NamesInv(cfg, later)
  {
    forall p | p in later.people && later.people[p].callsign != ANON_ADMIN
      ensures exists n | n in later.enrollments :: later.enrollments[n].callsign == later.people[p].callsign
    {
      var n :| n in db.enrollments && db.enrollments[n].callsign == db.people[p].callsign;
      assert later.enrollments[n].callsign == later.people[p].callsign;
    }
  }

  lemma RevokeKeepsNames(cfg: Config, db: DB, pc: Pc, e: Env)
    requires SerialInv(cfg, db, pc) && pc.RevokeCommit?
    ensures NamesInv(cfg, Step(cfg, db, pc, e).db)
  {
    var later := Step(cfg, db, pc, e).db;
    forall p | p in later.people && later.people[p].callsign != ANON_ADMIN
      ensures exists n | n in later.enrollments :: later.enrollments[n].callsign == later.people[p].callsign
    {
      assert p in db.people && later.people[p].callsign == db.people[p].callsign;
      var n :| n in db.enrollments && db.enrollments[n].callsign == db.people[p].callsign;
      assert later.enrollments[n].callsign == later.people[p].callsign;
    }
  }

  lemma StepKeepsNames(cfg: Config, db: DB, pc: Pc, e: Env)
    requires SerialInv(cfg, db, pc)
    ensures NamesInv(cfg, Step(cfg, db, pc, e).db)
  {
    if !Writes(pc) {
      QueryWritesNothing(cfg, db, pc, e);
    } else if pc.CreateInsert? {
      CreateInsertKeepsNames(cfg, db, pc, e);
    } else if pc.EnrollInsert? {
      EnrollInsertKeepsNames(cfg, db, pc, e);
    } else if pc.RevokeCommit? {
      RevokeKeepsNames(cfg, db, pc, e);
    } else {
      RewriteKeepsNames(cfg, db, pc, e);
    }
  }

  lemma RewriteKeepsNames(cfg: Config, db: DB, pc: Pc, e: Env)
    requires SerialInv(cfg, db, pc) && Writes(pc)
    requires !pc.CreateInsert? && !pc.EnrollInsert? && !pc.RevokeCommit?
    ensures NamesInv(cfg, Step(cfg, db, pc, e).db)
  {
    RewriteKeepsCallsigns(cfg, db, pc, e);
    SameNamesKeep(cfg, db, Step(cfg, db, pc, e).db);
  }

  lemma RewriteKeepsCallsigns(cfg: Config, db: DB, pc: Pc, e: Env)
    requires PcInv(db, pc) && Writes(pc) && !pc.CreateInsert? && !pc.EnrollInsert? && !pc.RevokeCommit?
    ensures var later := Step(cfg, db, pc, e).db;
            && later.people == db.people && later.enrollments.Keys == db.enrollments.Keys
            && forall n | n in db.enrollments :: later.enrollments[n].callsign == db.enrollments[n].callsign
  {
  }

  lemma StepKeepsSerialPc(cfg: Config, db: DB, pc: Pc, e: Env)
    requires SerialInv(cfg, db, pc)
    ensures SerialPc(cfg, Step(cfg, db, pc, e).db, Step(cfg, db, pc, e).pc)
  {
    if !Writes(pc) {
      QueryWritesNothing(cfg, db, pc, e);
      QueryKeepsSerialPc(cfg, db, pc, e);
    } else {
      CommitKeepsSerialPc(cfg, db, pc, e);
    }
  }

  lemma CommitKeepsSerialPc(cfg: Config, db: DB, pc: Pc, e: Env)
    requires SerialPc(cfg, db, pc) && Writes(pc)
    ensures SerialPc(cfg, Step(cfg, db, pc, e).db, Step(cfg, db, pc, e).pc)
  {
  }

  lemma QueryKeepsSerialPc(cfg: Config, db: DB, pc: Pc, e: Env)
    requires SerialPc(cfg, db, pc) && !Writes(pc) && PeopleFoldUnique(cfg, db)
    requires forall n | n in db.enrollments :: !db.enrollments[n].deleted
    ensures SerialPc(cfg, db, Step(cfg, db, pc, e).pc)
  {
    if pc.CreateGuard? || pc.RevokeLookup? || pc.EnrollLookup? {
      NameCheckKeepsSerialPc(cfg, db, pc, e);
    }
  }

  lemma NameCheckKeepsSerialPc(cfg: Config, db: DB, pc: Pc, e: Env)
    requires SerialPc(cfg, db, pc) && (pc.CreateGuard? || pc.RevokeLookup? || pc.EnrollLookup?)
    requires PeopleFoldUnique(cfg, db) && forall n | n in db.enrollments :: !db.enrollments[n].deleted
    ensures SerialPc(cfg, db, Step(cfg, db, pc, e).pc)
  {
  }

  lemma {:induction false} SoloKeeps(cfg: Config, db: DB, pc: Pc, es: seq<Env>)
    requires SerialInv(cfg, db, pc)
    ensures var t := Solo(cfg, db, pc, es);
            SerialInv(cfg, t.db, t.pc) && Extends(db, t.db)
  {
    if es != [] {
      var init := es[..|es| - 1];
      SoloKeeps(cfg, db, pc, init);
      var t := Solo(cfg, db, pc, init);
      var e := es[|es| - 1];
      StepKeeps(cfg, t.db, t.pc, e);
      StepKeepsNames(cfg, t.db, t.pc, e);
      StepKeepsSerialPc(cfg, t.db, t.pc, e);
      ExtendsTransitive(db, t.db, Step(cfg, t.db, t.pc, e).db);
    }
  }

  ghost predicate SerialDb(cfg: Config, db: DB) {
    DbInv(db) && NamesInv(cfg, db)
  }

  lemma {:induction false} SerialKeeps(cfg: Config, db: DB, jobs: seq<Job>)
    requires SerialDb(cfg, db) && ApiJobs(cfg, jobs)
    ensures SerialDb(cfg, Serial(cfg, db, jobs)) && Extends(db, Serial(cfg, db, jobs))
  {
    if jobs != [] {
      var init := jobs[..|jobs| - 1];
      var job := jobs[|jobs| - 1];
      SerialKeeps(cfg, db, init);
      var prev := Serial(cfg, db, init);
      if Entry(job.entry) {
        assert ApiJob(cfg, job);
        SoloKeeps(cfg, prev, job.entry, job.es);
        ExtendsTransitive(db, prev, Solo(cfg, prev, job.entry, job.es).db);
      }
    }
  }

  // ---- Main results: names -------------------------------------------------------------

  /** In every serial run of the API there is at most one person row, live or deleted, per callsign
      up to case, and every person but anon_admin has exactly the callsign of an enrollment. */
  lemma NamesNeverCollide(cfg: Config, jobs: seq<Job>)
    requires ApiJobs(cfg, jobs)
    ensures var db := Serial(cfg, EMPTY_DB, jobs);
            PeopleFoldUnique(cfg, db) && EnrollmentsFoldUnique(cfg, db) && PeopleEnrolled(db)
  {
    SerialKeeps(cfg, EMPTY_DB, jobs);
  }

  /** create_with_cert on its own keeps names unique exactly when no row at all, live or deleted,
      has the callsign up to case: what is_callsign_available would have answered. Its own guard
      only looks for live rows. */
  lemma CreateKeepsNamesIff(cfg: Config, db: DB, callsign: string, caller: Caller, e: Env)
    requires PeopleFoldUnique(cfg, db)
    requires Step(cfg, db, CreateInsert(callsign, caller), e).pc.CreateSign?
    ensures (PeopleFoldUnique(cfg, Step(cfg, db, CreateInsert(callsign, caller), e).db)
             <==> PersonAnswer(cfg, db, callsign, None))
  {
    var later := Step(cfg, db, CreateInsert(callsign, caller), e).db;
    assert later.people[e.pk].callsign == callsign;
    forall p | p in db.people && SameName(cfg, db.people[p].callsign, callsign)
      ensures !PeopleFoldUnique(cfg, later)
    {
      assert later.people[p].callsign == db.people[p].callsign;
    }
  }

  function Fold1(s: string): string {
    if s == "A" then "a" else s
  }

  const CASE_BLIND := Config(Fold1, {}, "rasenmaeher", (csr, callsign) => true)

  const MADE_OUTSIDE: seq<Job> := [
    Job(CreateGuard("A", None, ForCli(false)), [FRESH, FRESH, FRESH, FRESH]),
    Job(RevokeLookup("a"), [FOUND, FOUND, FOUND]),
    Job(CreateGuard("a", None, ForCli(false)), [FOUND, FOUND, FOUND, FOUND])]

  const FRESH := Env(true, None, 1, "", 0)
  const FOUND := Env(true, Some(1), 2, "", 0)

  /** Creating people outside the API breaks it: "A" made on the command line and revoked leaves
      "a" free to be made again, so a revoked name is live in another case. */
  lemma CommandLineReusesRevokedName()
    ensures var db := Serial(CASE_BLIND, EMPTY_DB, MADE_OUTSIDE);
            && 1 in db.people && db.people[1] == Person("A", true)
            && 2 in db.people && db.people[2] == Person("a", false)
            && !PeopleFoldUnique(CASE_BLIND, db)
  {
    var db1 := WithPerson(EMPTY_DB, 1, "A");
    var db2 := WithDeletedPerson(db1, 1);
    var db3 := WithPerson(db2, 2, "a");
    MadeOutsideStates(db1, db2, db3);
    SerialAdd(CASE_BLIND, EMPTY_DB, [], MADE_OUTSIDE[0]);
    SerialAdd(CASE_BLIND, EMPTY_DB, [MADE_OUTSIDE[0]], MADE_OUTSIDE[1]);
    SerialAdd(CASE_BLIND, EMPTY_DB, [MADE_OUTSIDE[0], MADE_OUTSIDE[1]], MADE_OUTSIDE[2]);
    assert [] + [MADE_OUTSIDE[0]] == [MADE_OUTSIDE[0]];
    assert [MADE_OUTSIDE[0]] + [MADE_OUTSIDE[1]] == [MADE_OUTSIDE[0], MADE_OUTSIDE[1]];
    assert [MADE_OUTSIDE[0], MADE_OUTSIDE[1]] + [MADE_OUTSIDE[2]] == MADE_OUTSIDE;
    assert SameName(CASE_BLIND, db3.people[1].callsign, db3.people[2].callsign);
  }

  lemma MadeOutsideStates(db1: DB, db2: DB, db3: DB)
    requires db1 == WithPerson(EMPTY_DB, 1, "A")
    requires db2 == WithDeletedPerson(db1, 1) && db3 == WithPerson(db2, 2, "a")
    ensures Solo(CASE_BLIND, EMPTY_DB, MADE_OUTSIDE[0].entry, MADE_OUTSIDE[0].es).db == db1
    ensures Solo(CASE_BLIND, db1, MADE_OUTSIDE[1].entry, MADE_OUTSIDE[1].es).db == db2
    ensures Solo(CASE_BLIND, db2, MADE_OUTSIDE[2].entry, MADE_OUTSIDE[2].es).db == db3
  {
    CommandLineCreate(CASE_BLIND, EMPTY_DB, "A", FRESH);
    assert SameName(CASE_BLIND, "A", "a");
    RevokeAlone(CASE_BLIND, db1, "a", FOUND, FOUND);
    CommandLineCreate(CASE_BLIND, db2, "a", FOUND);
  }

  lemma SerialAdd(cfg: Config, db: DB, jobs: seq<Job>, job: Job)
    requires Entry(job.entry)
    ensures Serial(cfg, db, jobs + [job]) == Solo(cfg, Serial(cfg, db, jobs), job.entry, job.es).db
  {
    assert (jobs + [job])[..|jobs|] == jobs;
  }

  lemma CommandLineCreate(cfg: Config, db: DB, callsign: string, e: Env)
    requires callsign !in cfg.productCns && callsign != cfg.serviceCn
    requires PersonAnswer(cfg, db, callsign, e.hit) && !LivePerson(db, e.hit)
    requires e.ok && PersonFits(db, e.pk, callsign) && e.pk !in db.dirs
    ensures Solo(cfg, db, CreateGuard(callsign, None, ForCli(false)), [e, e, e, e]).db == WithPerson(db, e.pk, callsign)
  {
    var pc := CreateGuard(callsign, None, ForCli(false));
    Solo2(cfg, db, pc, [], e, e);
    assert [] + [e, e] == [e, e];
    assert Solo(cfg, db, pc, [e, e]).db == WithPerson(db, e.pk, callsign);
    Solo2(cfg, db, pc, [e, e], e, e);
    assert [e, e] + [e, e] == [e, e, e, e];
  }

  /** A revocation on its own: the lookup, the commit, and the calls to the CA and Keycloak. */
  lemma RevokeAlone(cfg: Config, db: DB, target: string, e: Env, calls: Env)
    requires PersonAnswer(cfg, db, target, e.hit) && LivePerson(db, e.hit) && e.ok
    ensures Solo(cfg, db, RevokeLookup(target), [e, e, calls])
         == Turn(WithDeletedPerson(db, e.hit.value), Ended(if calls.ok then Finished else Refused))
  {
    var p := e.hit.value;
    RevokeSteps(cfg, db, target, e, calls);
    Solo3(cfg, db, RevokeLookup(target), e, e, calls, Turn(db, RevokeCommit(p)),
          Turn(WithDeletedPerson(db, p), RevokeCert(p)));
  }

  lemma RevokeSteps(cfg: Config, db: DB, target: string, e: Env, calls: Env)
    requires PersonAnswer(cfg, db, target, e.hit) && LivePerson(db, e.hit) && e.ok
    ensures var p := e.hit.value;
            && Step(cfg, db, RevokeLookup(target), e) == Turn(db, RevokeCommit(p))
            && Step(cfg, db, RevokeCommit(p), e) == Turn(WithDeletedPerson(db, p), RevokeCert(p))
            && Step(cfg, WithDeletedPerson(db, p), RevokeCert(p), calls)
               == Turn(WithDeletedPerson(db, p), Ended(if calls.ok then Finished else Refused))
  {
  }

  lemma Solo3(cfg: Config, db: DB, pc: Pc, a: Env, b: Env, c: Env, first: Turn, second: Turn)
    requires Step(cfg, db, pc, a) == first && Step(cfg, first.db, first.pc, b) == second
    ensures Solo(cfg, db, pc, [a, b, c]) == Step(cfg, second.db, second.pc, c)
  {
    SoloSnoc(cfg, db, pc, [], a);
    SoloSnoc(cfg, db, pc, [] + [a], b);
    SoloSnoc(cfg, db, pc, [] + [a] + [b], c);
    assert [] + [a] + [b] + [c] == [a, b, c];
  }

  lemma Solo2(cfg: Config, db: DB, pc: Pc, es: seq<Env>, a: Env, b: Env)
    ensures var t := Solo(cfg, db, pc, es);
            var t1 := Step(cfg, t.db, t.pc, a);
            Solo(cfg, db, pc, es + [a, b]) == Step(cfg, t1.db, t1.pc, b)
  {
    SoloSnoc(cfg, db, pc, es, a);
    SoloSnoc(cfg, db, pc, es + [a], b);
    assert es + [a] + [b] == es + [a, b];
  }

  // ---- Main results: pools -------------------------------------------------------------

  function Members(db: DB, pool: Pk): set<Pk> {
    set n | n in db.enrollments && db.enrollments[n].pool == Some(pool)
  }

  lemma {:induction false} SoloEnrollsOpenPools(cfg: Config, db: DB, pc: Pc, es: seq<Env>)
    requires SerialInv(cfg, db, pc)
    ensures var t := Solo(cfg, db, pc, es);
            && (t.db.pools == db.pools || t.pc.Ended?)
            && forall n | n in t.db.enrollments && n !in db.enrollments :: PoolOpen(db, t.db.enrollments[n].pool)
  {
    if es != [] {
      var init := es[..|es| - 1];
      SoloEnrollsOpenPools(cfg, db, pc, init);
      SoloKeeps(cfg, db, pc, init);
      var t := Solo(cfg, db, pc, init);
      StepEnrollsOpenPools(cfg, t.db, t.pc, es[|es| - 1]);
    }
  }

  lemma StepEnrollsOpenPools(cfg: Config, db: DB, pc: Pc, e: Env)
    requires SerialPc(cfg, db, pc)
    ensures var t := Step(cfg, db, pc, e);
            && (t.db.pools == db.pools || t.pc.Ended?)
            && (pc.Ended? ==> t == Turn(db, pc))
            && (forall n | n in t.db.enrollments && n in db.enrollments ::
                t.db.enrollments[n].pool == db.enrollments[n].pool)
            && (forall n | n in t.db.enrollments && n !in db.enrollments :: PoolOpen(db, t.db.enrollments[n].pool))
  {
    if !Writes(pc) {
      QueryWritesNothing(cfg, db, pc, e);
    }
  }

  lemma JobEnrollsOpenPools(cfg: Config, db: DB, job: Job, n: Pk)
    requires SerialDb(cfg, db) && ApiJob(cfg, job)
    requires n in Serial(cfg, db, [job]).enrollments && n !in db.enrollments
    ensures PoolOpen(db, Serial(cfg, db, [job]).enrollments[n].pool)
  {
    assert [job][..0] == [] && Serial(cfg, db, []) == db;
    if Entry(job.entry) {
      SoloEnrollsOpenPools(cfg, db, job.entry, job.es);
    }
  }

  lemma SerialSnoc(cfg: Config, db: DB, jobs: seq<Job>, k: nat)
    requires k < |jobs|
    ensures Serial(cfg, db, jobs[..k + 1]) == Serial(cfg, Serial(cfg, db, jobs[..k]), [jobs[k]])
  {
    assert jobs[..k + 1][..k] == jobs[..k];
    assert [jobs[k]][..0] == [];
  }

  /** A pool that is not open before any of the jobs gains no enrollment from them. */
  lemma {:induction false} ClosedPoolGainsNothing(cfg: Config, db: DB, jobs: seq<Job>, pool: Pk)
    requires SerialDb(cfg, db) && ApiJobs(cfg, jobs)
    requires forall k | 0 <= k < |jobs| :: !PoolOpen(Serial(cfg, db, jobs[..k]), Some(pool))
    ensures Members(Serial(cfg, db, jobs), pool) == Members(db, pool)
  {
    if jobs != [] {
      var k := |jobs| - 1;
      var init := jobs[..k];
      forall i | 0 <= i < |init| ensures !PoolOpen(Serial(cfg, db, init[..i]), Some(pool)) {
        assert init[..i] == jobs[..i];
      }
      ClosedPoolGainsNothing(cfg, db, init, pool);
      SerialKeeps(cfg, db, init);
      assert jobs[..k + 1] == jobs;
      SerialSnoc(cfg, db, jobs, k);
      var prev, end := Serial(cfg, db, init), Serial(cfg, db, jobs);
      SerialKeeps(cfg, prev, [jobs[k]]);
      forall n | n in Members(end, pool) ensures n in Members(prev, pool) {
        if n !in prev.enrollments {
          JobEnrollsOpenPools(cfg, prev, jobs[k], n);
        }
      }
    }
  }

  /** A deleted pool's enrollments are fixed for good. */
  lemma DeletedPoolIsFrozen(cfg: Config, before: seq<Job>, jobs: seq<Job>, pool: Pk)
    requires ApiJobs(cfg, before) && ApiJobs(cfg, jobs)
    requires var db := Serial(cfg, EMPTY_DB, before); pool in db.pools && db.pools[pool].deleted
    ensures var db := Serial(cfg, EMPTY_DB, before);
            Members(Serial(cfg, db, jobs), pool) == Members(db, pool)
  {
    SerialKeeps(cfg, EMPTY_DB, before);
    var db := Serial(cfg, EMPTY_DB, before);
    forall k | 0 <= k < |jobs| ensures !PoolOpen(Serial(cfg, db, jobs[..k]), Some(pool)) {
      SerialKeeps(cfg, db, jobs[..k]);
      assert PoolExtends(db.pools[pool], Serial(cfg, db, jobs[..k]).pools[pool]);
    }
    ClosedPoolGainsNothing(cfg, db, jobs, pool);
  }

  /** The k-th of the jobs enrolled n, in a pool that was open before it. */
  ghost predicate EnrolledBy(cfg: Config, jobs: seq<Job>, k: nat, n: Pk, pool: Option<Pk>)
    requires k < |jobs|
  {
    && n !in Serial(cfg, EMPTY_DB, jobs[..k]).enrollments
    && n in Serial(cfg, EMPTY_DB, jobs[..k + 1]).enrollments
    && PoolOpen(Serial(cfg, EMPTY_DB, jobs[..k]), pool)
  }

  lemma EnrolledByPrefix(cfg: Config, jobs: seq<Job>, m: nat, k: nat, n: Pk, pool: Option<Pk>)
    requires k < m <= |jobs| && EnrolledBy(cfg, jobs[..m], k, n, pool)
    ensures EnrolledBy(cfg, jobs, k, n, pool)
  {
    assert jobs[..m][..k] == jobs[..k] && jobs[..m][..k + 1] == jobs[..k + 1];
  }

  lemma LastJobEnrolls(cfg: Config, jobs: seq<Job>, n: Pk)
    requires ApiJobs(cfg, jobs) && jobs != [] && n in Serial(cfg, EMPTY_DB, jobs).enrollments
    ensures var k := |jobs| - 1;
            var prev := Serial(cfg, EMPTY_DB, jobs[..k]);
            if n in prev.enrollments then
              Serial(cfg, EMPTY_DB, jobs).enrollments[n].pool == prev.enrollments[n].pool
            else EnrolledBy(cfg, jobs, k, n, Serial(cfg, EMPTY_DB, jobs).enrollments[n].pool)
  {
    var k := |jobs| - 1;
    assert jobs[..k + 1] == jobs;
    SerialSnoc(cfg, EMPTY_DB, jobs, k);
    SerialKeeps(cfg, EMPTY_DB, jobs[..k]);
    var prev := Serial(cfg, EMPTY_DB, jobs[..k]);
    if n in prev.enrollments {
      SerialKeeps(cfg, prev, [jobs[k]]);
    } else {
      JobEnrollsOpenPools(cfg, prev, jobs[k], n);
    }
  }

  /** Every enrollment that carries a pool was created by a request before which that pool
      existed, was active and was not deleted. */
  lemma {:induction false} PoolWasOpenAtEnrollment(cfg: Config, jobs: seq<Job>, n: Pk)
    requires ApiJobs(cfg, jobs) && n in Serial(cfg, EMPTY_DB, jobs).enrollments
    ensures exists k | 0 <= k < |jobs| :: EnrolledBy(cfg, jobs, k, n, Serial(cfg, EMPTY_DB, jobs).enrollments[n].pool)
  {
    assert jobs != [];
    LastJobEnrolls(cfg, jobs, n);
    var m := |jobs| - 1;
    var prev := Serial(cfg, EMPTY_DB, jobs[..m]);
    if n in prev.enrollments {
      PoolWasOpenAtEnrollment(cfg, jobs[..m], n);
      var k :| 0 <= k < m && EnrolledBy(cfg, jobs[..m], k, n, prev.enrollments[n].pool);
      EnrolledByPrefix(cfg, jobs, m, k, n, prev.enrollments[n].pool);
    }
  }
}
