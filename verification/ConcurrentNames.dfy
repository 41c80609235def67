/** Callsigns when requests interleave: enrollments can then collide up to case, but people collide
    only where enrollments do, and a revoked callsign stays revoked wherever one enrollment has it. */
module ConcurrentNames {
  import opened Wrappers
  import opened Database
  import opened Requests
  import opened Coherence
  import opened SerialRuns
  import opened Admission

  /** Nobody creates people on the command line. Revoking anon_admin is allowed. */
  predicate ApiStarts(evs: seq<Event>) {
    forall i | 0 <= i < |evs| :: evs[i].Start? ==> !evs[i].entry.CreateGuard?
  }

  predicate ApiCaller(callsign: string, caller: Caller) {
    caller.ForEnrollment? || (caller.ForAnonAdmin? && callsign == ANON_ADMIN)
  }

  predicate ApiPc(pc: Pc) {
    match pc
    case CreateGuard(callsign, _, caller) => ApiCaller(callsign, caller)
    case CreateInsert(callsign, caller) => ApiCaller(callsign, caller)
    case _ => true
  }

  ghost predicate AllEnrolled(s: Sys) {
    PeopleEnrolled(s.db) && forall r | r in s.reqs :: ApiPc(s.reqs[r])
  }

  lemma StepKeepsApiPc(cfg: Config, db: DB, pc: Pc, e: Env)
    requires ApiPc(pc)
    ensures ApiPc(Step(cfg, db, pc, e).pc)
  {
  }

  lemma NewPersonHasThatCallsign(cfg: Config, db: DB, pc: Pc, e: Env, p: Pk)
    requires p in Step(cfg, db, pc, e).db.people && p !in db.people
    ensures pc.CreateInsert? && Step(cfg, db, pc, e).db.people[p].callsign == pc.callsign
  {
    if !Writes(pc) {
      QueryWritesNothing(cfg, db, pc, e);
    }
  }

  lemma StepKeepsEnrolled(cfg: Config, db: DB, pc: Pc, e: Env)
    requires DbInv(db) && PcInv(db, pc) && ApiPc(pc) && PeopleEnrolled(db)
    ensures PeopleEnrolled(Step(cfg, db, pc, e).db)
  {
    var later := Step(cfg, db, pc, e).db;
    StepKeeps(cfg, db, pc, e);
    forall p | p in later.people && later.people[p].callsign != ANON_ADMIN
      ensures exists n | n in later.enrollments :: later.enrollments[n].callsign == later.people[p].callsign
    {
      if p in db.people {
        var n :| n in db.enrollments && db.enrollments[n].callsign == db.people[p].callsign;
        assert later.enrollments[n].callsign == later.people[p].callsign;
      } else {
        NewPersonHasThatCallsign(cfg, db, pc, e, p);
        assert later.enrollments[pc.caller.a.enrollment].callsign == pc.callsign;
      }
    }
  }

  lemma NextKeepsEnrolled(cfg: Config, s: Sys, ev: Event)
    requires Inv(s) && AllEnrolled(s) && (ev.Start? ==> !ev.entry.CreateGuard?)
    ensures AllEnrolled(Next(cfg, s, ev))
  {
    if ev.Act? && ev.id in s.reqs {
      StepKeepsApiPc(cfg, s.db, s.reqs[ev.id], ev.e);
      StepKeepsEnrolled(cfg, s.db, s.reqs[ev.id], ev.e);
    }
  }

  lemma {:induction false} RunKeepsEnrolled(cfg: Config, s: Sys, evs: seq<Event>)
    requires Inv(s) && AllEnrolled(s) && ApiStarts(evs)
    ensures Inv(Run(cfg, s, evs)) && AllEnrolled(Run(cfg, s, evs))
    decreases |evs|
  {
    if evs != [] {
      NextKeeps(cfg, s, evs[0]);
      NextKeepsEnrolled(cfg, s, evs[0]);
      RunKeepsEnrolled(cfg, Next(cfg, s, evs[0]), evs[1..]);
    }
  }

  // ---- Main results --------------------------------------------------------------------

  /** In every interleaving of the API everyone but anon_admin has exactly the callsign of an
      enrollment. */
  lemma PeopleAreEnrolled(cfg: Config, evs: seq<Event>)
    requires ApiStarts(evs)
    ensures PeopleEnrolled(Run(cfg, IDLE, evs).db)
  {
    RunKeepsEnrolled(cfg, IDLE, evs);
  }

  predicate PersonNamed(cfg: Config, db: DB, p: Pk, name: string) {
    p in db.people && SameName(cfg, db.people[p].callsign, name)
  }

  predicate EnrollmentNamed(cfg: Config, db: DB, n: Pk, name: string) {
    n in db.enrollments && SameName(cfg, db.enrollments[n].callsign, name)
  }

  /** The person, live or deleted, made for the enrollment or under the same callsign. */
  predicate PersonOf(db: DB, p: Pk, n: Pk) {
    p in db.people && n in db.enrollments && db.people[p].callsign == db.enrollments[n].callsign
  }

  ghost predicate PeopleCollide(cfg: Config, db: DB, name: string) {
    exists p, q :: p != q && PersonNamed(cfg, db, p, name) && PersonNamed(cfg, db, q, name)
  }

  ghost predicate HasPerson(db: DB, n: Pk) {
    exists p :: PersonOf(db, p, n)
  }

  ghost predicate EnrolledPeopleCollide(cfg: Config, db: DB, name: string) {
    exists n, m :: n != m && EnrollmentNamed(cfg, db, n, name) && EnrollmentNamed(cfg, db, m, name)
                   && HasPerson(db, n) && HasPerson(db, m)
  }

  lemma EnrollmentOf(cfg: Config, db: DB, p: Pk, name: string) returns (n: Pk)
    requires PeopleEnrolled(db) && PersonNamed(cfg, db, p, name) && !SameName(cfg, name, ANON_ADMIN)
    ensures PersonOf(db, p, n) && EnrollmentNamed(cfg, db, n, name)
  {
    n :| n in db.enrollments && db.enrollments[n].callsign == db.people[p].callsign;
  }

  lemma CollidingPeopleAreEnrolled(cfg: Config, db: DB, name: string)
    requires PeopleEnrolled(db) && !SameName(cfg, name, ANON_ADMIN) && Unique(db) && PeopleCollide(cfg, db, name)
    ensures EnrolledPeopleCollide(cfg, db, name)
  {
    var p, q :| p != q && PersonNamed(cfg, db, p, name) && PersonNamed(cfg, db, q, name);
    var n := EnrollmentOf(cfg, db, p, name);
    var m := EnrollmentOf(cfg, db, q, name);
    assert HasPerson(db, n) && HasPerson(db, m) && n != m;
  }

  lemma EnrolledPeopleDiffer(cfg: Config, db: DB, name: string)
    requires Unique(db) && EnrolledPeopleCollide(cfg, db, name)
    ensures PeopleCollide(cfg, db, name)
  {
    var n, m :| n != m && EnrollmentNamed(cfg, db, n, name) && EnrollmentNamed(cfg, db, m, name)
                && HasPerson(db, n) && HasPerson(db, m);
    var p :| PersonOf(db, p, n);
    var q :| PersonOf(db, q, m);
    assert p != q && PersonNamed(cfg, db, p, name) && PersonNamed(cfg, db, q, name);
  }

  /** And so, anon_admin aside, two people share a callsign up to case exactly when two enrollments do
      that both have their person. */
  lemma PeopleCollideIff(cfg: Config, evs: seq<Event>, name: string)
    requires ApiStarts(evs) && !SameName(cfg, name, ANON_ADMIN)
    ensures var db := Run(cfg, IDLE, evs).db;
            PeopleCollide(cfg, db, name) <==> EnrolledPeopleCollide(cfg, db, name)
  {
    RunKeepsEnrolled(cfg, IDLE, evs);
    var db := Run(cfg, IDLE, evs).db;
    if PeopleCollide(cfg, db, name) {
      CollidingPeopleAreEnrolled(cfg, db, name);
    }
    if EnrolledPeopleCollide(cfg, db, name) {
      EnrolledPeopleDiffer(cfg, db, name);
    }
  }

  ghost predicate OneEnrollmentNamed(cfg: Config, db: DB, name: string) {
    forall n, m :: EnrollmentNamed(cfg, db, n, name) && EnrollmentNamed(cfg, db, m, name) ==> n == m
  }

  /** In particular they are the same row where at most one enrollment has the name. */
  lemma OnePersonPerName(cfg: Config, evs: seq<Event>, name: string, p: Pk, q: Pk)
    requires ApiStarts(evs) && !SameName(cfg, name, ANON_ADMIN)
    requires var db := Run(cfg, IDLE, evs).db;
             OneEnrollmentNamed(cfg, db, name) && PersonNamed(cfg, db, p, name) && PersonNamed(cfg, db, q, name)
    ensures p == q
  {
    PeopleCollideIff(cfg, evs, name);
  }

  /** Some answer of the lookup is a live row. */
  ghost predicate MayPass(cfg: Config, db: DB, name: string) {
    exists hit :: PersonAnswer(cfg, db, name, hit) && LivePerson(db, hit)
  }

  /** Another spelling of p's callsign has an enrollment with a live person. */
  ghost predicate OtherSpellingLive(cfg: Config, db: DB, p: Pk, name: string) {
    exists m, q :: EnrollmentNamed(cfg, db, m, name) && !PersonOf(db, p, m) && PersonOf(db, q, m)
      && !db.people[q].deleted
  }

  lemma DeletedPassesIff(cfg: Config, db: DB, p: Pk, name: string)
    requires PeopleEnrolled(db) && !SameName(cfg, name, ANON_ADMIN) && Unique(db)
    requires PersonNamed(cfg, db, p, name) && db.people[p].deleted
    ensures MayPass(cfg, db, name) <==> OtherSpellingLive(cfg, db, p, name)
  {
    if MayPass(cfg, db, name) {
      var hit :| PersonAnswer(cfg, db, name, hit) && LivePerson(db, hit);
      var m := EnrollmentOf(cfg, db, hit.value, name);
      assert PersonOf(db, hit.value, m) && !PersonOf(db, p, m);
    }
    if OtherSpellingLive(cfg, db, p, name) {
      var m, q :| EnrollmentNamed(cfg, db, m, name) && !PersonOf(db, p, m) && PersonOf(db, q, m)
        && !db.people[q].deleted;
      assert PersonAnswer(cfg, db, name, Some(q)) && LivePerson(db, Some(q));
    }
  }

  /** In every interleaved continuation a revoked callsign, in any spelling, can pass the deciders
      exactly when another spelling of it has an enrollment with a live person. */
  lemma RevokedNamePassesIff(cfg: Config, evs: seq<Event>, more: seq<Event>, p: Pk, name: string)
    requires ApiStarts(evs) && ApiStarts(more) && !SameName(cfg, name, ANON_ADMIN)
    requires var db := Run(cfg, IDLE, evs).db; PersonNamed(cfg, db, p, name) && db.people[p].deleted
    ensures var db := Run(cfg, Run(cfg, IDLE, evs), more).db;
            MayPass(cfg, db, name) <==> OtherSpellingLive(cfg, db, p, name)
  {
    RunKeepsEnrolled(cfg, IDLE, evs);
    RunKeepsEnrolled(cfg, Run(cfg, IDLE, evs), more);
    RunKeeps(cfg, Run(cfg, IDLE, evs), more);
    DeletedPassesIff(cfg, Run(cfg, Run(cfg, IDLE, evs), more).db, p, name);
  }

  lemma OneSpellingOnly(cfg: Config, db: DB, p: Pk, name: string)
    requires PeopleEnrolled(db) && !SameName(cfg, name, ANON_ADMIN)
    requires PersonNamed(cfg, db, p, name) && OneEnrollmentNamed(cfg, db, name)
    ensures !OtherSpellingLive(cfg, db, p, name)
  {
    var n := EnrollmentOf(cfg, db, p, name);
  }

  /** So revocation holds in every interleaving for every spelling of a callsign that one enrollment
      has, whoever is revoked besides. */
  lemma RevocationHolds(cfg: Config, evs: seq<Event>, more: seq<Event>, p: Pk, name: string, c: Credential,
                        required: set<string>, hit: Option<Pk>)
    requires ApiStarts(evs) && ApiStarts(more) && !SameName(cfg, name, ANON_ADMIN)
    requires var db := Run(cfg, IDLE, evs).db; PersonNamed(cfg, db, p, name) && db.people[p].deleted
    requires name != cfg.serviceCn && name !in cfg.productCns && UseridOf(c) == Some(name)
    requires var db := Run(cfg, Run(cfg, IDLE, evs), more).db;
             OneEnrollmentNamed(cfg, db, name) && PersonAnswer(cfg, db, name, hit)
    ensures var db := Run(cfg, Run(cfg, IDLE, evs), more).db;
            ValidUser(cfg, db, c, required, true, hit) == Forbidden && !IsValid(cfg, db, name, hit)
  {
    RunKeepsEnrolled(cfg, IDLE, evs);
    RunKeepsEnrolled(cfg, Run(cfg, IDLE, evs), more);
    RunKeeps(cfg, Run(cfg, IDLE, evs), more);
    RevokedNamePassesIff(cfg, evs, more, p, name);
    OneSpellingOnly(cfg, Run(cfg, Run(cfg, IDLE, evs), more).db, p, name);
    NobodyPasses(cfg, Run(cfg, Run(cfg, IDLE, evs), more).db, name, c, required, hit);
  }

  lemma NobodyPasses(cfg: Config, db: DB, name: string, c: Credential, required: set<string>, hit: Option<Pk>)
    requires !MayPass(cfg, db, name) && PersonAnswer(cfg, db, name, hit)
    requires name != cfg.serviceCn && name !in cfg.productCns && UseridOf(c) == Some(name)
    ensures ValidUser(cfg, db, c, required, true, hit) == Forbidden && !IsValid(cfg, db, name, hit)
  {
    assert !LivePerson(db, hit);
  }

  // ---- Enrollments can collide ---------------------------------------------------------

  /** Inserting an enrollment keeps enrollments apart up to case exactly when no row has the callsign
      up to case at that moment, which the lookup before it cannot promise. */
  lemma EnrollKeepsNamesIff(cfg: Config, db: DB, su: Signup, e: Env)
    requires EnrollmentsFoldUnique(cfg, db)
    requires e.ok && EnrollmentFits(db, e.pk, su.callsign, e.code)
    ensures (EnrollmentsFoldUnique(cfg, Step(cfg, db, EnrollInsert(su), e).db)
             <==> EnrollmentAnswer(cfg, db, su.callsign, None))
  {
    var later := Step(cfg, db, EnrollInsert(su), e).db;
    assert later.enrollments[e.pk].callsign == su.callsign;
    forall n | n in db.enrollments && SameName(cfg, db.enrollments[n].callsign, su.callsign)
      ensures !EnrollmentsFoldUnique(cfg, later)
    {
      assert later.enrollments[n].callsign == db.enrollments[n].callsign;
    }
  }

  function Named(callsign: string): Signup {
    Signup(callsign, None, None, false)
  }

  const LOOKS := Env(true, None, 0, "", 0)
  const FIRST := Env(true, None, 1, "X", 0)
  const SECOND := Env(true, None, 2, "Y", 0)

  const BOTH_LOOK: seq<Event> :=
    [Start(0, EnrollLookup(Named("A"))), Start(1, EnrollLookup(Named("a"))), Act(0, LOOKS), Act(1, LOOKS)]
  const BOTH_INSERT: seq<Event> := [Act(0, FIRST), Act(1, SECOND)]

  /** Two enrollments of "A" and "a" that both look before either inserts. */
  lemma EnrollmentsCanCollide()
    ensures ApiStarts(BOTH_LOOK + BOTH_INSERT)
    ensures !EnrollmentsFoldUnique(CASE_BLIND, Run(CASE_BLIND, Run(CASE_BLIND, IDLE, BOTH_LOOK), BOTH_INSERT).db)
  {
    BothHaveLooked();
    var looked := Sys(EMPTY_DB, map[0 := EnrollInsert(Named("A")), 1 := EnrollInsert(Named("a"))], []);
    var one := Next(CASE_BLIND, looked, Act(0, FIRST));
    assert BOTH_INSERT[1..] == [Act(1, SECOND)] && [Act(1, SECOND)][1..] == [];
    var two := Next(CASE_BLIND, one, Act(1, SECOND));
    assert Run(CASE_BLIND, looked, BOTH_INSERT) == Run(CASE_BLIND, one, [Act(1, SECOND)]) == Run(CASE_BLIND, two, []);
    assert one.db.enrollments == map[1 := NewEnrollment(Named("A"), "X")];
    assert two.db.enrollments == map[1 := NewEnrollment(Named("A"), "X"), 2 := NewEnrollment(Named("a"), "Y")];
    assert SameName(CASE_BLIND, two.db.enrollments[1].callsign, two.db.enrollments[2].callsign);
  }

  lemma BothHaveLooked()
    ensures Run(CASE_BLIND, IDLE, BOTH_LOOK)
         == Sys(EMPTY_DB, map[0 := EnrollInsert(Named("A")), 1 := EnrollInsert(Named("a"))], [])
  {
    var s1 := Sys(EMPTY_DB, map[0 := EnrollLookup(Named("A"))], []);
    var s2 := Sys(EMPTY_DB, map[0 := EnrollLookup(Named("A")), 1 := EnrollLookup(Named("a"))], []);
    var s3 := Sys(EMPTY_DB, map[0 := EnrollInsert(Named("A")), 1 := EnrollLookup(Named("a"))], []);
    var s4 := Sys(EMPTY_DB, map[0 := EnrollInsert(Named("A")), 1 := EnrollInsert(Named("a"))], []);
    assert Next(CASE_BLIND, IDLE, BOTH_LOOK[0]) == s1;
    assert Next(CASE_BLIND, s1, BOTH_LOOK[1]) == s2;
    assert Next(CASE_BLIND, s2, Act(0, LOOKS)) == s3;
    assert Next(CASE_BLIND, s3, Act(1, LOOKS)) == s4;
    assert BOTH_LOOK[1..][1..] == [Act(0, LOOKS), Act(1, LOOKS)]
           && [Act(0, LOOKS), Act(1, LOOKS)][1..] == [Act(1, LOOKS)];
    assert Run(CASE_BLIND, IDLE, BOTH_LOOK) == Run(CASE_BLIND, s1, BOTH_LOOK[1..])
           == Run(CASE_BLIND, s2, BOTH_LOOK[1..][1..]);
    assert Run(CASE_BLIND, s2, [Act(0, LOOKS), Act(1, LOOKS)]) == Run(CASE_BLIND, s3, [Act(1, LOOKS)]);
    assert [Act(1, LOOKS)][1..] == [];
    assert Run(CASE_BLIND, s3, [Act(1, LOOKS)]) == Run(CASE_BLIND, s4, []);
  }
}
