/** The methods of Person, Enrollment and EnrollmentPool and the routes built from them, working on
    the tables in place. Each one is proved to be a run, on its own, of the request programs of
    module Requests, so everything proved of serial runs holds of the tables these methods leave. */
module Registry {
  import opened Wrappers
  import opened Database
  import opened Requests
  import opened Coherence
  import opened SerialRuns
  import Claims
  import Codes
  import LoginCodes

  datatype Error =
    | NotFound | DeletedRow | CallsignReserved | PoolInactive | WrongCode | NoFreeCode
    | DirExists | CommitFailed | SignFailed | PostFailed

  /** How the parts of create_with_cert outside the tables go: the random key, and whether the
      commit, the signing and the Keycloak calls succeed. */
  datatype Creation = Creation(pk: Pk, commitOk: bool, signOk: bool, postOk: bool)

  function Io(ok: bool, pk: Pk, code: string, now: Time): Env {
    Env(ok, None, pk, code, now)
  }

  // ---- Why a method may fail -----------------------------------------------------------

  /** Some answer of the lookup of the person is no live row. */
  ghost predicate MayMissPerson(cfg: Config, db: DB, callsign: string) {
    exists hit :: PersonAnswer(cfg, db, callsign, hit) && !LivePerson(db, hit)
  }

  ghost predicate MayMissEnrollment(cfg: Config, db: DB, callsign: string) {
    exists hit :: EnrollmentAnswer(cfg, db, callsign, hit) && !LiveEnrollment(db, hit)
  }

  ghost predicate MayMissPool(db: DB, code: string) {
    exists hit :: PoolAnswer(db, code, hit) && !LivePool(db, hit)
  }

  ghost predicate HasLivePerson(cfg: Config, db: DB, callsign: string) {
    exists hit :: PersonAnswer(cfg, db, callsign, hit) && LivePerson(db, hit)
  }

  ghost predicate HasLiveEnrollment(cfg: Config, db: DB, callsign: string) {
    exists hit :: EnrollmentAnswer(cfg, db, callsign, hit) && LiveEnrollment(db, hit)
  }

  /** What each error of create_with_cert says. */
  ghost predicate CreateFailsWith(cfg: Config, db: DB, callsign: string, csr: Option<string>, c: Creation,
                                  error: Error) {
    match error
    case CallsignReserved => !NameAllowed(cfg, callsign, csr) || HasLivePerson(cfg, db, callsign)
    case DirExists => c.pk in db.dirs
    case CommitFailed => !c.commitOk || !PersonFits(db, c.pk, callsign)
    case SignFailed => !c.signOk
    case PostFailed => !c.postOk
    case _ => false
  }

  /** And each of reset_approvecode. */
  ghost predicate ResetFailsWith(cfg: Config, db: DB, target: string, draw: nat -> string, commitOk: bool,
                                 error: Error) {
    match error
    case NotFound => MayMissEnrollment(cfg, db, target)
    case NoFreeCode => forall k | 0 <= k <= 100 :: HasApproveCode(db, draw(k))
    case CommitFailed =>
      !commitOk || exists n :: n in db.enrollments && db.enrollments[n].deleted
    case _ => false
  }

  lemma SamePeopleFail(cfg: Config, db: DB, other: DB, callsign: string, csr: Option<string>, c: Creation, error: Error)
    requires db.people == other.people && db.dirs == other.dirs
    ensures CreateFailsWith(cfg, db, callsign, csr, c, error) ==> CreateFailsWith(cfg, other, callsign, csr, c, error)
  {
    if HasLivePerson(cfg, db, callsign) {
      var hit :| PersonAnswer(cfg, db, callsign, hit) && LivePerson(db, hit);
      assert PersonAnswer(cfg, other, callsign, hit) && LivePerson(other, hit);
    }
  }

  function LiveApproveCodes(db: DB): set<string> {
    set n | n in db.enrollments && !db.enrollments[n].deleted :: db.enrollments[n].approvecode
  }

  /** And each of create_for_callsign. */
  ghost predicate EnrollFailsWith(cfg: Config, db: DB, su: Signup, draw: nat -> string, pk: Pk, commitOk: bool,
                                  error: Error) {
    match error
    case CallsignReserved =>
      su.callsign in cfg.productCns || !CsrFits(cfg, su.csr, su.callsign) || HasLiveEnrollment(cfg, db, su.callsign)
    case NoFreeCode => forall k | 0 <= k <= Codes.CODE_MAX_ATTEMPTS :: draw(k) in LiveApproveCodes(db)
    case CommitFailed =>
      || !commitOk
      || exists k | 0 <= k <= Codes.CODE_MAX_ATTEMPTS ::
           draw(k) !in LiveApproveCodes(db) && !EnrollmentFits(db, pk, su.callsign, draw(k))
    case _ => false
  }

  /** The callsign is allowed and nobody's, keys are new, an unused code is drawn in time, and
      signing and Keycloak work. */
  ghost predicate CallsignClear(cfg: Config, db: DB, su: Signup, draw: nat -> string, enrollment: Pk, c: Creation) {
    && NameAllowed(cfg, su.callsign, su.csr)
    && !HasLivePerson(cfg, db, su.callsign) && !HasLiveEnrollment(cfg, db, su.callsign)
    && PersonFits(db, c.pk, su.callsign) && c.pk !in db.dirs && (c.pk, "admin") !in db.roles
    && c.commitOk && c.signOk && c.postOk
    && (forall k | 0 <= k <= Codes.CODE_MAX_ATTEMPTS :: draw(k) !in LiveApproveCodes(db) ==>
          EnrollmentFits(db, enrollment, su.callsign, draw(k)))
    && (exists k | 0 <= k <= Codes.CODE_MAX_ATTEMPTS :: draw(k) !in LiveApproveCodes(db))
  }

  /** And a live anon_admin is there. */
  ghost predicate NothingInTheWay(cfg: Config, db: DB, su: Signup, draw: nat -> string, enrollment: Pk, c: Creation) {
    !MayMissPerson(cfg, db, ANON_ADMIN) && CallsignClear(cfg, db, su, draw, enrollment, c)
  }

  /** No row has anon_admin's name, and it can be made: the route's very first use. */
  ghost predicate AnonAdminCanBeMade(cfg: Config, db: DB, anon: Creation) {
    && PersonAnswer(cfg, db, ANON_ADMIN, None) && NameAllowed(cfg, ANON_ADMIN, None)
    && anon.pk !in db.people && anon.pk !in db.dirs
    && anon.commitOk && anon.signOk && anon.postOk
  }

  function WithAnonAdmin(db: DB, anon: Pk): DB {
    db.(people := db.people[anon := Person("anon_admin", false)], dirs := db.dirs + {anon},
        roles := db.roles + {(anon, "anon_admin")})
  }

  lemma AnonAdminIsMade(cfg: Config, db: DB, anon: Creation, error: Error)
    requires AnonAdminCanBeMade(cfg, db, anon)
    ensures !CreateFailsWith(cfg, db, ANON_ADMIN, None, anon, error)
  {
  }

  lemma ClearOnceAnonAdminIsMade(cfg: Config, db: DB, anon: Creation, su: Signup, draw: nat -> string, enrollment: Pk,
                                 c: Creation)
    requires AnonAdminCanBeMade(cfg, db, anon) && CallsignClear(cfg, db, su, draw, enrollment, c)
    requires anon.pk != c.pk && !SameName(cfg, su.callsign, ANON_ADMIN)
    ensures NothingInTheWay(cfg, WithAnonAdmin(db, anon.pk), su, draw, enrollment, c)
  {
    var after := WithAnonAdmin(db, anon.pk);
    assert after.people[anon.pk].callsign == ANON_ADMIN;
    forall hit | PersonAnswer(cfg, after, ANON_ADMIN, hit) ensures LivePerson(after, hit) {
      assert hit == Some(anon.pk);
    }
    forall hit | PersonAnswer(cfg, after, su.callsign, hit) ensures !LivePerson(after, hit) {
      if hit.Some? {
        assert hit.value in db.people;
        assert PersonAnswer(cfg, db, su.callsign, hit);
      }
    }
    assert LiveApproveCodes(after) == LiveApproveCodes(db);
    SameEnrollmentsClear(cfg, db, after, su, draw, enrollment);
  }

  /** As it is on a new installation. */
  lemma NewInstallationIsClear(cfg: Config, anon: Creation, su: Signup, draw: nat -> string, enrollment: Pk,
                               c: Creation)
    requires NameAllowed(cfg, ANON_ADMIN, None) && anon.commitOk && anon.signOk && anon.postOk
    requires NameAllowed(cfg, su.callsign, su.csr) && c.commitOk && c.signOk && c.postOk
    ensures AnonAdminCanBeMade(cfg, EMPTY_DB, anon) && CallsignClear(cfg, EMPTY_DB, su, draw, enrollment, c)
  {
    assert draw(0) !in LiveApproveCodes(EMPTY_DB);
  }

  lemma SameEnrollmentsClear(cfg: Config, db: DB, other: DB, su: Signup, draw: nat -> string, enrollment: Pk)
    requires db.enrollments == other.enrollments
    ensures HasLiveEnrollment(cfg, other, su.callsign) ==> HasLiveEnrollment(cfg, db, su.callsign)
    ensures LiveApproveCodes(other) == LiveApproveCodes(db)
    ensures forall k :: EnrollmentFits(db, enrollment, su.callsign, draw(k)) ==>
            EnrollmentFits(other, enrollment, su.callsign, draw(k))
  {
    if HasLiveEnrollment(cfg, other, su.callsign) {
      var hit :| EnrollmentAnswer(cfg, other, su.callsign, hit) && LiveEnrollment(other, hit);
      assert EnrollmentAnswer(cfg, db, su.callsign, hit) && LiveEnrollment(db, hit);
    }
  }

  ghost predicate AddFailsWith(cfg: Config, db: DB, su: Signup, draw: nat -> string, enrollment: Pk, enrollOk: bool,
                               c: Creation, approveOk: bool, error: Error)
  {
    || EnrollFailsWith(cfg, db, su, draw, enrollment, enrollOk, error)
    || MayMissPerson(cfg, db, ANON_ADMIN)
    || CreateFailsWith(cfg, db, su.callsign, su.csr, c, error)
    || !approveOk
  }

  lemma NothingFails(cfg: Config, db: DB, su: Signup, draw: nat -> string, enrollment: Pk, c: Creation)
    requires NothingInTheWay(cfg, db, su, draw, enrollment, c)
    ensures !PersonAnswer(cfg, db, ANON_ADMIN, None)
    ensures forall error :: !AddFailsWith(cfg, db, su, draw, enrollment, true, c, true, error)
  {
    assert !LivePerson(db, None);
  }

  /** Either that, or it is the route's first use and anon_admin can be made. */
  ghost predicate WayIsClear(cfg: Config, db: DB, su: Signup, draw: nat -> string, anon: Creation, anonRoleOk: bool,
                             enrollment: Pk, c: Creation)
  {
    || NothingInTheWay(cfg, db, su, draw, enrollment, c)
    || (anonRoleOk && AnonAdminCanBeMade(cfg, db, anon) && anon.pk != c.pk && !SameName(cfg, su.callsign, ANON_ADMIN)
        && CallsignClear(cfg, db, su, draw, enrollment, c))
  }

  /** The new admin is enrolled, approved and has the role. */
  predicate AdminAdded(db: DB, p: Pk, callsign: string, enrollment: Pk) {
    && p in db.people && db.people[p] == Person(callsign, false) && (p, "admin") in db.roles
    && enrollment in db.enrollments && db.enrollments[enrollment].state == Approved
    && db.enrollments[enrollment].person == Some(p) && db.enrollments[enrollment].callsign == callsign
  }

  /** One of the first draws is new, and login codes are never deleted. */
  ghost predicate LoginCodeFree(rows: LoginCodes.Table, draw: nat -> string) {
    && (forall code | code in rows :: !rows[code].deleted)
    && exists k | 0 <= k <= Codes.CODE_MAX_ATTEMPTS :: draw(k) !in rows
  }

  function LiveInviteCodes(db: DB): set<string> {
    set p | p in db.pools && !db.pools[p].deleted :: db.pools[p].invitecode
  }

  ghost predicate HasApproveCode(db: DB, code: string) {
    exists n | n in db.enrollments :: !db.enrollments[n].deleted && db.enrollments[n].approvecode == code
  }

  ghost predicate HasInviteCode(db: DB, code: string) {
    exists p | p in db.pools :: !db.pools[p].deleted && db.pools[p].invitecode == code
  }

  lemma LiveCodesAreHeld(db: DB)
    ensures forall code :: code in LiveApproveCodes(db) <==> HasApproveCode(db, code)
    ensures forall code :: code in LiveInviteCodes(db) <==> HasInviteCode(db, code)
  {
  }

  lemma RoleStays(roles: set<(Pk, string)>, p: Pk, role: string, add: bool)
    requires ((p, role) in roles) == add
    ensures WithRole(roles, p, role, add) == roles
  {
  }

  /** A call of a route with what the environment contributes to it. */
  datatype Call =
    | NewAdmin(session: bool, callsign: string, csr: Option<string>, draw: nat -> string, anon: Creation,
               anonRoleOk: bool, enrollment: Pk, enrollOk: bool, c: Creation, approveOk: bool, now: Time,
               roleOk: bool, drawLogin: nat -> string, loginOk: bool)
    | Init(callsign: string, csr: Option<string>, draw: nat -> string, pk: Pk, commitOk: bool)
    | Enroll(code: string, callsign: string, csr: Option<string>, draw: nat -> string, pk: Pk, commitOk: bool)
    | Accept(actor: string, target: string, code: string, c: Creation, commitOk: bool, now: Time)
    | Lock(actor: string, target: string, commitOk: bool, now: Time)
    | Reset(target: string, draw: nat -> string, commitOk: bool)
    | Role(target: string, add: bool, commitOk: bool)
    | Remove(target: string, commitOk: bool, caOk: bool)
    | NewCode(owner: Pk, draw: nat -> string, pk: Pk, commitOk: bool)
    | ChangeCode(code: string, action: PoolAction, commitOk: bool)

  /** anon_admin is not to be revoked. */
  predicate Allowed(cfg: Config, call: Call) {
    call.Remove? ==> !SameName(cfg, call.target, ANON_ADMIN)
  }

  class Registry {
    const cfg: Config
    const loginCodes: LoginCodes.LoginCodes
    var people: map<Pk, Person>
    var dirs: set<Pk>
    var roles: set<(Pk, string)>
    var enrollments: map<Pk, Enrollment>
    var pools: map<Pk, Pool>

    function Tables(): DB
      reads this
    {
      DB(people, dirs, roles, enrollments, pools)
    }

    constructor (cfg: Config, loginCodes: LoginCodes.LoginCodes)
      ensures this.cfg == cfg && this.loginCodes == loginCodes && Tables() == EMPTY_DB
    {
      this.cfg, this.loginCodes := cfg, loginCodes;
      people, dirs, roles, enrollments, pools := map[], {}, {}, map[], map[];
    }

    // ---- Lookups -----------------------------------------------------------------------

    /** Person.by_callsign */
    method PersonByCallsign(callsign: string) returns (r: Result<Pk, Error>, ghost e: Env)
      ensures r.Ok? ==>
              && r.value in people && !people[r.value].deleted
              && cfg.fold(people[r.value].callsign) == cfg.fold(callsign)
      ensures r == Err(NotFound) <==> forall p | p in people :: cfg.fold(people[p].callsign) != cfg.fold(callsign)
      ensures r.Err? && !r.error.NotFound? ==>
              exists p :: p in people && people[p].deleted && cfg.fold(people[p].callsign) == cfg.fold(callsign)
      ensures e.ok && PersonAnswer(cfg, Tables(), callsign, e.hit)
      ensures r.Ok? <==> LivePerson(Tables(), e.hit)
      ensures r.Ok? ==> e.hit == Some(r.value)
      ensures r.Err? ==> r.error == if e.hit.None? then NotFound else DeletedRow
    {
      var hit := FirstPerson(cfg, Tables(), callsign);
      e := Env(true, hit, 0, "", 0);
      if hit.None? {
        r := Err(NotFound);
      } else if people[hit.value].deleted {
        r := Err(DeletedRow);
      } else {
        r := Ok(hit.value);
      }
    }

    /** Enrollment.by_callsign */
    method EnrollmentByCallsign(callsign: string) returns (r: Result<Pk, Error>, ghost e: Env)
      ensures r.Ok? ==>
              && r.value in enrollments && !enrollments[r.value].deleted
              && cfg.fold(enrollments[r.value].callsign) == cfg.fold(callsign)
      ensures (r == Err(NotFound)
               <==> forall n | n in enrollments :: cfg.fold(enrollments[n].callsign) != cfg.fold(callsign))
      ensures r.Err? && !r.error.NotFound? ==>
              exists n :: n in enrollments && enrollments[n].deleted
                          && cfg.fold(enrollments[n].callsign) == cfg.fold(callsign)
      ensures e.ok && EnrollmentAnswer(cfg, Tables(), callsign, e.hit)
      ensures r.Ok? <==> LiveEnrollment(Tables(), e.hit)
      ensures r.Ok? ==> e.hit == Some(r.value)
      ensures r.Err? ==> r.error == if e.hit.None? then NotFound else DeletedRow
    {
      var matches := set n | n in enrollments && SameName(cfg, enrollments[n].callsign, callsign);
      e := Env(true, None, 0, "", 0);
      if matches == {} {
        forall n | n in enrollments ensures !SameName(cfg, enrollments[n].callsign, callsign) {
          assert n !in matches;
        }
        return Err(NotFound), e;
      }
      var n :| n in matches;
      e := e.(hit := Some(n));
      r := if enrollments[n].deleted then Err(DeletedRow) else Ok(n);
    }

    /** EnrollmentPool.by_invitecode */
    method PoolByInvitecode(code: string) returns (r: Result<Pk, Error>, ghost e: Env)
      ensures r.Ok? ==> r.value in pools && !pools[r.value].deleted && pools[r.value].invitecode == code
      ensures r == Err(NotFound) <==> forall p | p in pools :: pools[p].invitecode != code
      ensures r.Err? && !r.error.NotFound? ==> exists p :: p in pools && pools[p].deleted && pools[p].invitecode == code
      ensures e.ok && PoolAnswer(Tables(), code, e.hit)
      ensures r.Ok? <==> LivePool(Tables(), e.hit)
      ensures r.Ok? ==> e.hit == Some(r.value)
    {
      var matches := set p | p in pools && pools[p].invitecode == code;
      e := Env(true, None, 0, "", 0);
      if matches == {} {
        forall p | p in pools ensures pools[p].invitecode != code {
          assert p !in matches;
        }
        return Err(NotFound), e;
      }
      var p :| p in matches;
      e := e.(hit := Some(p));
      r := if pools[p].deleted then Err(DeletedRow) else Ok(p);
    }

    // ---- People ------------------------------------------------------------------------

    /** The directory and the row, which is committed. */
    method CommitPerson(callsign: string, c: Creation, ghost caller: Caller)
      returns (r: Result<(), Error>, ghost e: Env)
      modifies this`people, this`dirs
      ensures r.Ok? <==> && c.commitOk && c.pk !in old(dirs) && c.pk !in old(people)
                         && forall p | p in old(people) :: old(people)[p].callsign != callsign
      ensures r.Ok? ==> people == old(people)[c.pk := Person(callsign, false)] && dirs == old(dirs) + {c.pk}
      ensures r.Err? ==> Tables() == old(Tables()) && (r.error.DirExists? || r.error.CommitFailed?)
      ensures r == Err(DirExists) <==> c.pk in old(dirs)
      ensures Step(cfg, old(Tables()), CreateInsert(callsign, caller), e)
              == Turn(Tables(), if r.Ok? then CreateSign(c.pk, callsign, caller) else Ended(Refused))
    {
      e := Io(c.commitOk, c.pk, "", 0);
      if c.pk in dirs {
        return Err(DirExists), e;
      }
      dirs := dirs + {c.pk};
      if !c.commitOk || !PersonFits(Tables(), c.pk, callsign) {
        dirs := dirs - {c.pk};
        return Err(CommitFailed), e;
      }
      people := people[c.pk := Person(callsign, false)];
      r := Ok(());
    }

    /** Signing the certificate, with the cleanup when it fails, and the Keycloak calls. */
    method Certify(callsign: string, c: Creation, ghost caller: Caller)
      returns (r: Result<Pk, Error>, ghost es: seq<Env>)
      modifies this`dirs
      ensures r == if !c.signOk then Err(SignFailed) else if !c.postOk then Err(PostFailed) else Ok(c.pk)
      ensures dirs == if c.signOk then old(dirs) else old(dirs) - {c.pk}
      ensures Solo(cfg, old(Tables()), CreateSign(c.pk, callsign, caller), es)
              == Turn(Tables(), if r.Ok? then AfterCreate(c.pk, caller) else Ended(Orphaned(c.pk)))
    {
      ghost var start, pc, signed := Tables(), CreateSign(c.pk, callsign, caller), Io(c.signOk, 0, "", 0);
      if !c.signOk {
        dirs := dirs - {c.pk};
        Advance(cfg, start, pc, [], Turn(start, pc), signed, Turn(Tables(), Ended(Orphaned(c.pk))));
        return Err(SignFailed), [] + [signed];
      }
      ghost var at := Turn(start, CreatePost(c.pk, callsign, caller));
      Advance(cfg, start, pc, [], Turn(start, pc), signed, at);
      ghost var end := if c.postOk then AfterCreate(c.pk, caller) else Ended(Orphaned(c.pk));
      Advance(cfg, start, pc, [] + [signed], at, Io(c.postOk, 0, "", 0), Turn(start, end));
      es := [] + [signed] + [Io(c.postOk, 0, "", 0)];
      r := if c.postOk then Ok(c.pk) else Err(PostFailed);
    }

    /** The checks create_with_cert starts with. */
    method CheckName(callsign: string, csr: Option<string>, ghost caller: Caller)
      returns (r: Result<(), Error>, ghost e: Env)
      ensures r.Ok? ==> csr.None? || csr.value == "" || cfg.csrNames(csr.value, callsign)
      ensures r.Ok? ==> callsign !in cfg.productCns && callsign != cfg.serviceCn
      ensures r.Ok? ==> NameAllowed(cfg, callsign, csr) && MayMissPerson(cfg, Tables(), callsign)
      ensures r.Err? ==> !NameAllowed(cfg, callsign, csr) || HasLivePerson(cfg, Tables(), callsign)
      ensures Step(cfg, Tables(), CreateGuard(callsign, csr, caller), e)
              == Turn(Tables(), if r.Ok? then CreateInsert(callsign, caller) else Ended(Refused))
    {
      if csr.Some? && csr.value != "" && !cfg.csrNames(csr.value, callsign) {
        return Err(CallsignReserved), Io(true, 0, "", 0);
      }
      if callsign in cfg.productCns || callsign == cfg.serviceCn {
        return Err(CallsignReserved), Io(true, 0, "", 0);
      }
      var found;
      found, e := PersonByCallsign(callsign);
      r := if found.Ok? then Err(CallsignReserved) else Ok(());
    }

    /** Person.create_with_cert. The row is committed before the certificate is signed, so the
        rollback after a failed signing undoes only the directory. */
    method CreateWithCert(callsign: string, csr: Option<string>, c: Creation, ghost caller: Caller)
      returns (r: Result<Pk, Error>, ghost es: seq<Env>)
      modifies this`people, this`dirs
      ensures r.Ok? ==> r.value == c.pk && c.pk !in old(people) && c.commitOk && c.signOk && c.postOk
      ensures r.Ok? ==> csr.None? || csr.value == "" || cfg.csrNames(csr.value, callsign)
      ensures r.Ok? ==> callsign !in cfg.productCns && callsign != cfg.serviceCn
      ensures r == Err(CallsignReserved) ==>
              || (csr.Some? && csr.value != "" && !cfg.csrNames(csr.value, callsign))
              || callsign in cfg.productCns || callsign == cfg.serviceCn
              || exists p :: p in old(people) && !old(people)[p].deleted
                             && cfg.fold(old(people)[p].callsign) == cfg.fold(callsign)
      ensures (|| (csr.Some? && csr.value != "" && !cfg.csrNames(csr.value, callsign))
               || callsign in cfg.productCns || callsign == cfg.serviceCn) ==> r == Err(CallsignReserved)
      ensures r.Ok? ==> MayMissPerson(cfg, old(Tables()), callsign)
      ensures r.Ok? ==> forall p | p in old(people) :: old(people)[p].callsign != callsign
      ensures r.Err? ==> CreateFailsWith(cfg, old(Tables()), callsign, csr, c, r.error)
      ensures people == if r.Ok? || r.error.SignFailed? || r.error.PostFailed?
                        then old(people)[c.pk := Person(callsign, false)] else old(people)
      ensures dirs == if r.Ok? || r.error.PostFailed? then old(dirs) + {c.pk} else old(dirs)
      ensures Solo(cfg, old(Tables()), CreateGuard(callsign, csr, caller), es)
              == Turn(Tables(), if r.Ok? then AfterCreate(c.pk, caller)
                                else Ended(if r.error.SignFailed? || r.error.PostFailed? then Orphaned(c.pk)
                                           else Refused))
    {
      ghost var start, pc := Tables(), CreateGuard(callsign, csr, caller);
      var free, e := CheckName(callsign, csr, caller);
      SoloSnoc(cfg, start, pc, [], e);
      es := [] + [e];
      if free.Err? {
        return Err(CallsignReserved), es;
      }
      var committed;
      committed, e := CommitPerson(callsign, c, caller);
      SoloSnoc(cfg, start, pc, es, e);
      es := es + [e];
      if committed.Err? {
        return Err(committed.error), es;
      }
      ghost var more;
      r, more := Certify(callsign, c, caller);
      SoloConcat(cfg, start, pc, es, more);
      es := es + more;
      assert old(dirs) + {c.pk} - {c.pk} == old(dirs);
    }

    /** Person.revoke, and Person.delete which ends in it or in the plain soft delete: the commit
        comes first, so a CA or Keycloak failure afterwards leaves the person deleted. */
    method Revoke(p: Pk, commitOk: bool, caOk: bool) returns (r: Result<bool, Error>, ghost es: seq<Env>)
      requires p in people
      modifies this`people
      ensures people == if commitOk then old(people)[p := old(people)[p].(deleted := true)] else old(people)
      ensures r == if !commitOk then Err(CommitFailed) else if !caOk then Err(PostFailed) else Ok(true)
      ensures Solo(cfg, old(Tables()), RevokeCommit(p), es)
              == Turn(Tables(), Ended(if r.Ok? then Finished else Refused))
    {
      ghost var start, pc, e, calls := Tables(), RevokeCommit(p), Io(commitOk, 0, "", 0), Io(caOk, 0, "", 0);
      es := [] + [e];
      if !commitOk {
        Advance(cfg, start, pc, [], Turn(start, pc), e, Turn(start, Ended(Refused)));
        return Err(CommitFailed), es;
      }
      people := people[p := people[p].(deleted := true)];
      Advance(cfg, start, pc, [], Turn(start, pc), e, Turn(Tables(), RevokeCert(p)));
      Advance(cfg, start, pc, es, Turn(Tables(), RevokeCert(p)), calls,
              Turn(Tables(), Ended(if caOk then Finished else Refused)));
      es := es + [calls];
      r := if caOk then Ok(true) else Err(PostFailed);
    }

    /** The insert or delete of the role row. */
    method CommitRole(p: Pk, role: string, add: bool, commitOk: bool, ghost next: Option<Signup>)
      returns (r: Result<bool, Error>, ghost e: Env)
      requires ((p, role) in roles) != add
      modifies this`roles
      ensures r == if commitOk then Ok(true) else Err(CommitFailed)
      ensures roles == if commitOk then WithRole(old(roles), p, role, add) else old(roles)
      ensures Step(cfg, old(Tables()), RoleCommit(p, role, add, next), e)
              == Turn(Tables(), if commitOk then AfterRole(next) else Ended(Refused))
    {
      e := Io(commitOk, 0, "", 0);
      if !commitOk {
        return Err(CommitFailed), e;
      }
      if add {
        roles := roles + {(p, role)};
      } else {
        roles := roles - {(p, role)};
      }
      r := Ok(true);
    }

    /** Person.assign_role and Person.remove_role: true iff the role row changed. */
    method SetRole(p: Pk, role: string, add: bool, commitOk: bool, ghost next: Option<Signup>)
      returns (r: Result<bool, Error>, ghost es: seq<Env>)
      modifies this`roles
      ensures r == if ((p, role) in old(roles)) == add then Ok(false) else if commitOk then Ok(true)
              else Err(CommitFailed)
      ensures r.Ok? ==> ((p, role) in roles <==> add)
      ensures forall held | held != (p, role) :: held in roles <==> held in old(roles)
      ensures r.Err? ==> roles == old(roles)
      ensures roles == if r.Ok? then WithRole(old(roles), p, role, add) else old(roles)
      ensures Solo(cfg, old(Tables()), RoleQuery(p, role, add, next), es)
              == Turn(Tables(), if r.Ok? then AfterRole(next) else Ended(Refused))
    {
      ghost var start, pc, query := Tables(), RoleQuery(p, role, add, next), Io(true, 0, "", 0);
      es := [] + [query];
      if ((p, role) in roles) == add {
        Advance(cfg, start, pc, [], Turn(start, pc), query, Turn(start, AfterRole(next)));
        RoleStays(roles, p, role, add);
        return Ok(false), es;
      }
      Advance(cfg, start, pc, [], Turn(start, pc), query, Turn(start, RoleCommit(p, role, add, next)));
      ghost var e;
      r, e := CommitRole(p, role, add, commitOk, next);
      SoloSnoc(cfg, start, pc, es, e);
      es := es + [e];
    }

    // ---- Enrollments -------------------------------------------------------------------

    /** Enrollment.create_for_callsign */
    method CreateForCallsign(su: Signup, draw: nat -> string, pk: Pk, commitOk: bool)
      returns (r: Result<Enrollment, Error>, ghost es: seq<Env>)
      modifies this`enrollments
      ensures r.Ok? ==>
                && r.value == Enrollment(r.value.approvecode, su.callsign, Pending, None, None, None, su.pool, su.csr,
                                         false)
                && pk !in old(enrollments) && enrollments == old(enrollments)[pk := r.value]
                && forall n | n in old(enrollments) ::
                     && old(enrollments)[n].callsign != su.callsign
                     && old(enrollments)[n].approvecode != r.value.approvecode
      ensures r.Ok? ==> su.csr.None? || su.csr.value == "" || cfg.csrNames(su.csr.value, su.callsign)
      ensures r.Ok? ==> su.callsign !in cfg.productCns
      ensures r == Err(CallsignReserved) ==>
              || (su.csr.Some? && su.csr.value != "" && !cfg.csrNames(su.csr.value, su.callsign))
              || su.callsign in cfg.productCns
              || exists n :: n in old(enrollments) && !old(enrollments)[n].deleted
                             && cfg.fold(old(enrollments)[n].callsign) == cfg.fold(su.callsign)
      ensures (|| (su.csr.Some? && su.csr.value != "" && !cfg.csrNames(su.csr.value, su.callsign))
               || su.callsign in cfg.productCns) ==> r == Err(CallsignReserved)
      ensures r == Err(NoFreeCode) ==> forall k | 0 <= k <= 100 :: HasApproveCode(old(Tables()), draw(k))
      ensures r.Ok? ==> commitOk && MayMissEnrollment(cfg, old(Tables()), su.callsign)
      ensures r.Err? ==>
              && enrollments == old(enrollments)
              && EnrollFailsWith(cfg, old(Tables()), su, draw, pk, commitOk, r.error)
      ensures r == Err(CommitFailed) ==>
              || !commitOk || pk in old(enrollments) || exists n :: n in old(enrollments) && old(enrollments)[n].deleted
      ensures Solo(cfg, old(Tables()), EnrollLookup(su), es)
              == Turn(Tables(), if r.Err? then Ended(Refused)
                                else if su.firstAdmin then AnonLoad(pk, r.value) else Ended(Finished))
    {
      ghost var start, pc := Tables(), EnrollLookup(su);
      var free, e := CheckEnrollName(su);
      SoloSnoc(cfg, start, pc, [], e);
      es := [] + [e];
      if free.Err? {
        return Err(CallsignReserved), es;
      }
      r, e := InsertEnrollment(su, draw, pk, commitOk);
      SoloSnoc(cfg, start, pc, es, e);
      es := es + [e];
    }

    /** Its checks of the name. */
    method CheckEnrollName(su: Signup) returns (r: Result<(), Error>, ghost e: Env)
      ensures r.Ok? ==> su.csr.None? || su.csr.value == "" || cfg.csrNames(su.csr.value, su.callsign)
      ensures r.Ok? ==> su.callsign !in cfg.productCns && MayMissEnrollment(cfg, Tables(), su.callsign)
      ensures r.Err? ==>
              || (su.csr.Some? && su.csr.value != "" && !cfg.csrNames(su.csr.value, su.callsign))
              || su.callsign in cfg.productCns || HasLiveEnrollment(cfg, Tables(), su.callsign)
      ensures Step(cfg, Tables(), EnrollLookup(su), e)
              == Turn(Tables(), if r.Ok? then EnrollInsert(su) else Ended(Refused))
    {
      if su.callsign in cfg.productCns
         || (su.csr.Some? && su.csr.value != "" && !cfg.csrNames(su.csr.value, su.callsign))
      {
        return Err(CallsignReserved), Io(true, 0, "", 0);
      }
      var found;
      found, e := EnrollmentByCallsign(su.callsign);
      r := if found.Ok? then Err(CallsignReserved) else Ok(());
    }

    /** Its second half: an unused code, and the row with it. */
    method InsertEnrollment(su: Signup, draw: nat -> string, pk: Pk, commitOk: bool)
      returns (r: Result<Enrollment, Error>, ghost e: Env)
      modifies this`enrollments
      ensures r.Ok? ==>
                && commitOk
                && r.value == Enrollment(r.value.approvecode, su.callsign, Pending, None, None, None, su.pool, su.csr,
                                         false)
                && pk !in old(enrollments) && enrollments == old(enrollments)[pk := r.value]
                && forall n | n in old(enrollments) ::
                     && old(enrollments)[n].callsign != su.callsign
                     && old(enrollments)[n].approvecode != r.value.approvecode
      ensures r.Err? ==> enrollments == old(enrollments) && (r.error.NoFreeCode? || r.error.CommitFailed?)
      ensures r.Err? ==> EnrollFailsWith(cfg, old(Tables()), su, draw, pk, commitOk, r.error)
      ensures r == Err(NoFreeCode) ==> forall k | 0 <= k <= 100 :: HasApproveCode(old(Tables()), draw(k))
      ensures r == Err(CommitFailed) ==>
              || !commitOk || pk in old(enrollments)
              || exists n :: n in old(enrollments)
                             && (old(enrollments)[n].callsign == su.callsign || old(enrollments)[n].deleted)
      ensures Step(cfg, old(Tables()), EnrollInsert(su), e)
              == Turn(Tables(), if r.Err? then Ended(Refused)
                                else if su.firstAdmin then AnonLoad(pk, r.value) else Ended(Finished))
    {
      LiveCodesAreHeld(Tables());
      var code := Codes.GenerateUnusedCode(draw, LiveApproveCodes(Tables()));
      if code.Err? {
        return Err(NoFreeCode), Io(false, 0, "", 0);
      }
      e := Io(commitOk, pk, code.value, 0);
      if !commitOk || !EnrollmentFits(Tables(), pk, su.callsign, code.value) {
        return Err(CommitFailed), e;
      }
      var row := Enrollment(code.value, su.callsign, Pending, None, None, None, su.pool, su.csr, false);
      enrollments := enrollments[pk := row];
      r := Ok(row);
    }

    /** Enrollment.approve on the row read earlier as `seen`. */
    method Approve(n: Pk, seen: Enrollment, approver: Pk, c: Creation, commitOk: bool, now: Time,
                   ghost firstAdmin: bool)
      returns (r: Result<Pk, Error>, ghost es: seq<Env>)
      requires n in enrollments
      modifies this`people, this`dirs, this`enrollments
      ensures r.Ok? ==>
                var was := old(enrollments)[n];
                && r.value == c.pk && c.pk !in old(people)
                && people == old(people)[c.pk := Person(seen.callsign, false)]
                && enrollments == old(enrollments)[n := was.(
                     state := if seen.state == Approved then was.state else Approved,
                     decidedBy := if seen.decidedBy == Some(approver) then was.decidedBy else Some(approver),
                     decidedOn := if seen.decidedOn == Some(now) then was.decidedOn else Some(now),
                     person := if seen.person == Some(c.pk) then was.person else Some(c.pk))]
      ensures r.Err? ==> enrollments == old(enrollments)
      ensures r.Err? ==> || CreateFailsWith(cfg, old(Tables()), seen.callsign, seen.csr, c, r.error)
                         || (r.error.CommitFailed? && !commitOk)
      ensures Solo(cfg, old(Tables()),
                   CreateGuard(seen.callsign, seen.csr, ForEnrollment(Approval(n, seen, approver, firstAdmin))), es).db
              == Tables()
      ensures r.Ok? ==>
                Solo(cfg, old(Tables()),
                     CreateGuard(seen.callsign, seen.csr, ForEnrollment(Approval(n, seen, approver, firstAdmin))),
                       es).pc
                == if firstAdmin then RoleQuery(c.pk, "admin", true, None) else Ended(Finished)
    {
      ghost var start, a := Tables(), Approval(n, seen, approver, firstAdmin);
      r, es := CreateWithCert(seen.callsign, seen.csr, c, ForEnrollment(a));
      if r.Err? {
        return;
      }
      ghost var pc, e := CreateGuard(seen.callsign, seen.csr, ForEnrollment(a)), Io(commitOk, 0, "", now);
      ghost var at := Turn(Tables(), ApproveCommit(c.pk, a));
      if !commitOk {
        Advance(cfg, start, pc, es, at, e, Turn(Tables(), Ended(Orphaned(c.pk))));
        return Err(CommitFailed), es + [e];
      }
      enrollments := enrollments[n := ApprovedRow(enrollments[n], seen, approver, now, c.pk)];
      Advance(cfg, start, pc, es, at, e,
              Turn(Tables(), if firstAdmin then RoleQuery(c.pk, "admin", true, None) else Ended(Finished)));
      es := es + [e];
    }

    /** Enrollment.reject on the row read earlier as `seen`. */
    method Reject(n: Pk, seen: Enrollment, decider: Pk, commitOk: bool, now: Time)
      returns (r: Result<(), Error>, ghost es: seq<Env>)
      requires n in enrollments
      modifies this`enrollments
      ensures r == if commitOk then Ok(()) else Err(CommitFailed)
      ensures var was := old(enrollments)[n];
              enrollments == if commitOk then
                               old(enrollments)[n := was.(
                                 state := if seen.state == Rejected then was.state else Rejected,
                                 decidedBy := if seen.decidedBy == Some(decider) then was.decidedBy else Some(decider),
                                 decidedOn := if seen.decidedOn == Some(now) then was.decidedOn else Some(now))]
                             else
                               old(enrollments)
      ensures Solo(cfg, old(Tables()), LockCommit(decider, n, seen), es).db == Tables()
    {
      ghost var start, pc, e := Tables(), LockCommit(decider, n, seen), Io(commitOk, 0, "", now);
      es := [] + [e];
      if !commitOk {
        Advance(cfg, start, pc, [], Turn(start, pc), e, Turn(start, Ended(Refused)));
        return Err(CommitFailed), es;
      }
      enrollments := enrollments[n := RejectedRow(enrollments[n], seen, decider, now)];
      Advance(cfg, start, pc, [], Turn(start, pc), e, Turn(Tables(), Ended(Finished)));
      r := Ok(());
    }

    /** Enrollment.reset_approvecode */
    method ResetCode(n: Pk, draw: nat -> string, commitOk: bool) returns (r: Result<string, Error>, ghost e: Env)
      requires n in enrollments
      modifies this`enrollments
      ensures r.Ok? ==>
              && commitOk && (forall m | m in old(enrollments) :: old(enrollments)[m].approvecode != r.value)
              && enrollments == old(enrollments)[n := old(enrollments)[n].(approvecode := r.value)]
      ensures r.Err? ==> enrollments == old(enrollments) && (r.error.NoFreeCode? || r.error.CommitFailed?)
      ensures r == Err(NoFreeCode) <==> forall k | 0 <= k <= 100 :: HasApproveCode(old(Tables()), draw(k))
      ensures r == Err(CommitFailed) ==> !commitOk || exists m :: m in old(enrollments) && old(enrollments)[m].deleted
      ensures Step(cfg, old(Tables()), ResetCommit(n), e)
              == Turn(Tables(), Ended(if r.Ok? then Finished else Refused))
    {
      LiveCodesAreHeld(Tables());
      var code := Codes.GenerateUnusedCode(draw, LiveApproveCodes(Tables()));
      e := Io(code.Ok? && commitOk, 0, if code.Ok? then code.value else "", 0);
      if code.Err? || !commitOk || !ApprovecodeFits(Tables(), code.value) {
        return Err(if code.Err? then NoFreeCode else CommitFailed), e;
      }
      enrollments := enrollments[n := enrollments[n].(approvecode := code.value)];
      r := Ok(code.value);
    }

    /** reset_approvecode4callsign, which the generate-verification-code route calls. */
    method ResetApprovecode(target: string, draw: nat -> string, commitOk: bool)
      returns (r: Result<string, Error>, ghost es: seq<Env>)
      modifies this`enrollments
      ensures r.Ok? ==> forall n | n in old(enrollments) :: old(enrollments)[n].approvecode != r.value
      ensures r.Ok? ==> exists n :: n in old(enrollments) && cfg.fold(old(enrollments)[n].callsign) == cfg.fold(target)
                                    && !old(enrollments)[n].deleted
                                    && enrollments ==
                                       old(enrollments)[n := old(enrollments)[n].(approvecode := r.value)]
      ensures r.Err? ==> enrollments == old(enrollments)
      ensures r.Err? ==> ResetFailsWith(cfg, old(Tables()), target, draw, commitOk, r.error)
      ensures Solo(cfg, old(Tables()), ResetLookup(target), es).db == Tables()
    {
      ghost var start, pc := Tables(), ResetLookup(target);
      var found, e := EnrollmentByCallsign(target);
      es := [] + [e];
      if found.Err? {
        Advance(cfg, start, pc, [], Turn(start, pc), e, Turn(start, Ended(Refused)));
        return Err(NotFound), es;
      }
      Advance(cfg, start, pc, [], Turn(start, pc), e, Turn(start, ResetCommit(found.value)));
      r, e := ResetCode(found.value, draw, commitOk);
      SoloSnoc(cfg, start, pc, es, e);
      es := es + [e];
    }

    // ---- Pools -------------------------------------------------------------------------

    /** EnrollmentPool.create_for_owner. The code search treats a deleted pool's code as free, the
        unique column does not: on a working database that is the only way the commit can fail. */
    method CreatePool(owner: Pk, draw: nat -> string, pk: Pk, commitOk: bool)
      returns (r: Result<string, Error>, ghost es: seq<Env>)
      modifies this`pools
      ensures r.Ok? ==>
              && pk !in old(pools) && (forall p | p in old(pools) :: old(pools)[p].invitecode != r.value)
              && pools == old(pools)[pk := Pool(owner, true, false, r.value)]
      ensures r.Err? ==> pools == old(pools) && (r.error.NoFreeCode? || r.error.CommitFailed?)
      ensures r == Err(NoFreeCode) <==>
              forall k | 0 <= k <= 100 :: HasInviteCode(old(Tables()), draw(k))
      ensures r.Err? && r.error.CommitFailed? && commitOk && pk !in old(pools) ==>
                exists p, k | p in old(pools) && 0 <= k <= Codes.CODE_MAX_ATTEMPTS ::
                  old(pools)[p].deleted && old(pools)[p].invitecode == draw(k)
      ensures Solo(cfg, old(Tables()), PoolCreate(owner), es).db == Tables()
    {
      LiveCodesAreHeld(Tables());
      var code := Codes.GenerateUnusedCode(draw, LiveInviteCodes(Tables()));
      ghost var e := Io(code.Ok? && commitOk, pk, if code.Ok? then code.value else "", 0);
      ghost var start, pc := Tables(), PoolCreate(owner);
      es := [] + [e];
      if code.Err? {
        Advance(cfg, start, pc, [], Turn(start, pc), e, Turn(start, Ended(Refused)));
        return Err(NoFreeCode), es;
      }
      if !commitOk || !PoolFits(Tables(), pk, code.value) {
        if commitOk && pk !in pools {
          var p :| p in pools && pools[p].invitecode == code.value;
          assert pools[p].deleted;
        }
        Advance(cfg, start, pc, [], Turn(start, pc), e, Turn(start, Ended(Refused)));
        return Err(CommitFailed), es;
      }
      pools := pools[pk := Pool(owner, true, false, code.value)];
      Advance(cfg, start, pc, [], Turn(start, pc), e, Turn(Tables(), Ended(Finished)));
      r := Ok(code.value);
    }

    /** set_active and delete on the pool read earlier as `seen`. */
    method ChangePool(p: Pk, seen: Pool, action: PoolAction, commitOk: bool)
      returns (r: Result<(), Error>, ghost es: seq<Env>)
      requires p in pools
      modifies this`pools
      ensures r == if commitOk then Ok(()) else Err(CommitFailed)
      ensures var was := old(pools)[p];
              pools == if !commitOk then old(pools)
                       else
                         old(pools)[p := match action
                                         case Activate => was.(active := if seen.active then was.active else true)
                                         case Deactivate => was.(active := if seen.active then false else was.active)
                                         case Delete => was.(deleted := true)]
      ensures Solo(cfg, old(Tables()), PoolCommit(p, seen, action), es).db == Tables()
    {
      ghost var start, pc, e := Tables(), PoolCommit(p, seen, action), Io(commitOk, 0, "", 0);
      es := [] + [e];
      if !commitOk {
        Advance(cfg, start, pc, [], Turn(start, pc), e, Turn(start, Ended(Refused)));
        return Err(CommitFailed), es;
      }
      pools := pools[p := PoolAfter(pools[p], seen, action)];
      Advance(cfg, start, pc, [], Turn(start, pc), e, Turn(Tables(), Ended(Finished)));
      r := Ok(());
    }

    // ---- Routes ------------------------------------------------------------------------

    /** post_enroll_invite_code, down to EnrollmentPool.create_enrollment. */
    method PostEnrollInviteCode(code: string, callsign: string, csr: Option<string>, draw: nat -> string, pk: Pk,
                                commitOk: bool)
      returns (r: Result<Enrollment, Error>, ghost es: seq<Env>)
      modifies this`enrollments
      ensures r.Ok? ==> exists p ::
                && p in pools && pools[p].active && !pools[p].deleted && pools[p].invitecode == code
                && r.value == Enrollment(r.value.approvecode, callsign, Pending, None, None, None, Some(p), csr, false)
                && enrollments == old(enrollments)[pk := r.value]
      ensures r.Err? ==> enrollments == old(enrollments)
      ensures r == Err(NotFound) ==> MayMissPool(old(Tables()), code)
      ensures r == Err(PoolInactive) ==> exists p :: p in pools && pools[p].invitecode == code && !pools[p].active
      ensures r.Err? && !r.error.NotFound? && !r.error.PoolInactive? ==>
                exists p :: p in pools && EnrollFailsWith(cfg, old(Tables()), Signup(callsign, Some(p), csr, false),
                                                          draw, pk, commitOk, r.error)
      ensures Solo(cfg, old(Tables()), InviteLookup(code, Signup(callsign, None, csr, false)), es).db == Tables()
    {
      ghost var start, pc := Tables(), InviteLookup(code, Signup(callsign, None, csr, false));
      var pool, e := PoolByInvitecode(code);
      es := [] + [e];
      if pool.Err? || !pools[pool.value].active {
        Advance(cfg, start, pc, [], Turn(start, pc), e, Turn(start, Ended(Refused)));
        return Err(if pool.Err? then NotFound else PoolInactive), es;
      }
      ghost var at := Turn(start, InviteNameCheck(Signup(callsign, Some(pool.value), csr, false)));
      Advance(cfg, start, pc, [], Turn(start, pc), e, at);
      var taken, f := EnrollmentByCallsign(callsign);
      if taken.Ok? {
        Advance(cfg, start, pc, es, at, f, Turn(start, Ended(Refused)));
        return Err(CallsignReserved), es + [f];
      }
      Advance(cfg, start, pc, es, at, f, Turn(start, EnrollLookup(Signup(callsign, Some(pool.value), csr, false))));
      es := es + [f];
      ghost var more;
      r, more := CreateForCallsign(Signup(callsign, Some(pool.value), csr, false), draw, pk, commitOk);
      SoloConcat(cfg, start, pc, es, more);
      es := es + more;
    }

    /** post_enrollment_accept */
    method PostEnrollmentAccept(actor: string, target: string, code: string, c: Creation, commitOk: bool, now: Time)
      returns (r: Result<Pk, Error>, ghost es: seq<Env>)
      modifies this`people, this`dirs, this`enrollments
      ensures r.Ok? ==> exists n, approver ::
                && n in old(enrollments) && old(enrollments)[n].approvecode == code && !old(enrollments)[n].deleted
                && cfg.fold(old(enrollments)[n].callsign) == cfg.fold(target)
                && approver in old(people) && !old(people)[approver].deleted
                && cfg.fold(old(people)[approver].callsign) == cfg.fold(actor)
                && r.value !in old(people)
                && people == old(people)[r.value := Person(old(enrollments)[n].callsign, false)]
                && enrollments == old(enrollments)[n := old(enrollments)[n].(
                     state := Approved, decidedBy := Some(approver), decidedOn := Some(now), person := Some(r.value))]
      ensures r == Err(NotFound) ==>
              MayMissPerson(cfg, old(Tables()), actor) || MayMissEnrollment(cfg, old(Tables()), target)
      ensures r == Err(WrongCode) ==>
              exists n :: n in old(enrollments) && SameName(cfg, old(enrollments)[n].callsign, target)
                                                 && old(enrollments)[n].approvecode != code
      ensures r.Err? && !r.error.NotFound? && !r.error.WrongCode? ==>
                || (r.error.CommitFailed? && !commitOk)
                || exists n :: n in old(enrollments) && SameName(cfg, old(enrollments)[n].callsign, target)
                     && CreateFailsWith(cfg, old(Tables()), old(enrollments)[n].callsign, old(enrollments)[n].csr, c,
                                        r.error)
      ensures Solo(cfg, old(Tables()), AcceptActor(actor, target, code), es).db == Tables()
    {
      ghost var start := Tables();
      var found;
      found, es := FindEnrollment(actor, target, code);
      if found.Err? {
        return Err(found.error), es;
      }
      var n, approver := found.value.0, found.value.1;
      ghost var more;
      r, more := Approve(n, enrollments[n], approver, c, commitOk, now, false);
      SoloConcat(cfg, start, AcceptActor(actor, target, code), es, more);
      es := es + more;
    }

    /** Its lookups, and the check of the approve code: the enrollment and the approver. */
    method FindEnrollment(actor: string, target: string, code: string)
      returns (r: Result<(Pk, Pk), Error>, ghost es: seq<Env>)
      ensures r.Ok? ==>
                && r.value.0 in enrollments && enrollments[r.value.0].approvecode == code
                && !enrollments[r.value.0].deleted
                && SameName(cfg, enrollments[r.value.0].callsign, target)
                && r.value.1 in people && !people[r.value.1].deleted && SameName(cfg, people[r.value.1].callsign, actor)
      ensures r.Err? ==> r.error.NotFound? || r.error.WrongCode?
      ensures r == Err(NotFound) ==> MayMissPerson(cfg, Tables(), actor) || MayMissEnrollment(cfg, Tables(), target)
      ensures r == Err(WrongCode) ==> exists n :: n in enrollments && SameName(cfg, enrollments[n].callsign, target)
                                                 && enrollments[n].approvecode != code
      ensures Solo(cfg, Tables(), AcceptActor(actor, target, code), es)
              == Turn(Tables(), if r.Err? then Ended(Refused)
                                else
                                  var row := enrollments[r.value.0];
                                  CreateGuard(row.callsign, row.csr,
                                              ForEnrollment(Approval(r.value.0, row, r.value.1, false))))
    {
      ghost var start, pc := Tables(), AcceptActor(actor, target, code);
      var admin, e := PersonByCallsign(actor);
      es := [] + [e];
      if admin.Err? {
        Advance(cfg, start, pc, [], Turn(start, pc), e, Turn(start, Ended(Refused)));
        return Err(NotFound), es;
      }
      ghost var at := Turn(start, AcceptEnrollment(admin.value, target, code));
      Advance(cfg, start, pc, [], Turn(start, pc), e, at);
      var pending, f := EnrollmentByCallsign(target);
      if pending.Err? {
        Advance(cfg, start, pc, es, at, f, Turn(start, Ended(Refused)));
        return Err(NotFound), es + [f];
      }
      var row := enrollments[pending.value];
      if row.approvecode != code {
        Advance(cfg, start, pc, es, at, f, Turn(start, Ended(Refused)));
        return Err(WrongCode), es + [f];
      }
      Advance(cfg, start, pc, es, at, f,
              Turn(start, CreateGuard(row.callsign, row.csr,
                                      ForEnrollment(Approval(pending.value, row, admin.value, false)))));
      es := es + [f];
      r := Ok((pending.value, admin.value));
    }

    /** request_enrollment_promote and request_enrollment_demote */
    method SetAdmin(target: string, add: bool, commitOk: bool) returns (r: Result<bool, Error>, ghost es: seq<Env>)
      modifies this`roles
      ensures r.Ok? ==> exists p :: p in people && !people[p].deleted
                                    && cfg.fold(people[p].callsign) == cfg.fold(target)
                                    && ((p, "admin") in roles <==> add)
                                    && (forall held | held != (p, "admin") :: held in roles <==> held in old(roles))
                                    && (r.value <==> ((p, "admin") in old(roles)) != add)
      ensures r.Err? ==> roles == old(roles)
      ensures r.Err? ==> || (r.error.CommitFailed? && !commitOk)
                         || (r.error.NotFound? && MayMissPerson(cfg, Tables(), target))
      ensures Solo(cfg, old(Tables()), RoleLookup(target, add), es).db == Tables()
    {
      ghost var start, pc := Tables(), RoleLookup(target, add);
      var found, e := PersonByCallsign(target);
      es := [] + [e];
      if found.Err? {
        Advance(cfg, start, pc, [], Turn(start, pc), e, Turn(start, Ended(Refused)));
        return Err(NotFound), es;
      }
      Advance(cfg, start, pc, [], Turn(start, pc), e, Turn(start, RoleQuery(found.value, "admin", add, None)));
      ghost var more;
      r, more := SetRole(found.value, "admin", add, commitOk, None);
      SoloConcat(cfg, start, pc, es, more);
      es := es + more;
    }

    /** The route that deletes a person, which revokes the certificate. */
    method DeletePerson(target: string, commitOk: bool, caOk: bool) returns (r: Result<bool, Error>, ghost es: seq<Env>)
      modifies this`people
      ensures r.Ok? || r == Err(PostFailed) ==>
                exists p :: p in old(people) && !old(people)[p].deleted
                  && cfg.fold(old(people)[p].callsign) == cfg.fold(target)
                  && people == old(people)[p := old(people)[p].(deleted := true)]
      ensures r.Err? && !r.error.PostFailed? ==> people == old(people)
      ensures r.Err? ==> || (r.error.CommitFailed? && !commitOk) || (r.error.PostFailed? && !caOk)
                         || (r.error.NotFound? && MayMissPerson(cfg, old(Tables()), target))
      ensures Solo(cfg, old(Tables()), RevokeLookup(target), es).db == Tables()
    {
      ghost var start, pc := Tables(), RevokeLookup(target);
      var found, e := PersonByCallsign(target);
      es := [] + [e];
      if found.Err? {
        Advance(cfg, start, pc, [], Turn(start, pc), e, Turn(start, Ended(Refused)));
        return Err(NotFound), es;
      }
      Advance(cfg, start, pc, [], Turn(start, pc), e, Turn(start, RevokeCommit(found.value)));
      ghost var more;
      r, more := Revoke(found.value, commitOk, caOk);
      SoloConcat(cfg, start, pc, es, more);
      es := es + more;
    }

    /** put_activate_invite_code, put_deactivate_invite_code and delete_invite_code */
    method ChangeInviteCode(code: string, action: PoolAction, commitOk: bool)
      returns (r: Result<(), Error>, ghost es: seq<Env>)
      modifies this`pools
      ensures r.Ok? ==> exists p :: p in old(pools) && !old(pools)[p].deleted && old(pools)[p].invitecode == code
                                    && pools == old(pools)[p := match action
                                                                case Activate => old(pools)[p].(active := true)
                                                                case Deactivate => old(pools)[p].(active := false)
                                                                case Delete => old(pools)[p].(deleted := true)]
      ensures r.Err? ==> pools == old(pools)
      ensures r.Err? ==> || (r.error.CommitFailed? && !commitOk)
                         || (r.error.NotFound? && MayMissPool(Tables(), code))
      ensures Solo(cfg, old(Tables()), PoolLookup(code, action), es).db == Tables()
    {
      ghost var start, pc := Tables(), PoolLookup(code, action);
      var found, e := PoolByInvitecode(code);
      es := [] + [e];
      if found.Err? {
        Advance(cfg, start, pc, [], Turn(start, pc), e, Turn(start, Ended(Refused)));
        return Err(NotFound), es;
      }
      Advance(cfg, start, pc, [], Turn(start, pc), e, Turn(start, PoolCommit(found.value, pools[found.value], action)));
      ghost var more;
      r, more := ChangePool(found.value, pools[found.value], action, commitOk);
      SoloConcat(cfg, start, pc, es, more);
      es := es + more;
    }

    /** request_enrollment_lock */
    method RequestEnrollmentLock(actor: string, target: string, commitOk: bool, now: Time)
      returns (r: Result<(), Error>, ghost es: seq<Env>)
      modifies this`enrollments
      ensures r.Ok? ==> exists n, decider ::
                && n in old(enrollments) && cfg.fold(old(enrollments)[n].callsign) == cfg.fold(target)
                && !old(enrollments)[n].deleted
                && decider in people && !people[decider].deleted
                && cfg.fold(people[decider].callsign) == cfg.fold(actor)
                && enrollments == old(enrollments)[n := old(enrollments)[n].(
                     state := Rejected, decidedBy := Some(decider), decidedOn := Some(now))]
      ensures r.Err? ==> enrollments == old(enrollments)
      ensures r.Err? ==> || (r.error.CommitFailed? && !commitOk)
                         || (r.error.NotFound?
                             && (MayMissPerson(cfg, Tables(), actor) || MayMissEnrollment(cfg, Tables(), target)))
      ensures Solo(cfg, old(Tables()), LockActor(actor, target), es).db == Tables()
    {
      var found;
      found, es := FindForLock(actor, target);
      if found.Err? {
        return Err(NotFound), es;
      }
      var n, decider := found.value.0, found.value.1;
      ghost var more;
      ghost var start, pc := Tables(), LockActor(actor, target);
      r, more := Reject(n, enrollments[n], decider, commitOk, now);
      SoloConcat(cfg, start, pc, es, more);
      es := es + more;
    }

    /** Its lookups: the enrollment and who rejects it. */
    method FindForLock(actor: string, target: string) returns (r: Result<(Pk, Pk), Error>, ghost es: seq<Env>)
      ensures r.Ok? ==>
                && r.value.0 in enrollments && !enrollments[r.value.0].deleted
                && cfg.fold(enrollments[r.value.0].callsign) == cfg.fold(target)
                && r.value.1 in people && !people[r.value.1].deleted
                && cfg.fold(people[r.value.1].callsign) == cfg.fold(actor)
      ensures r.Err? ==> MayMissPerson(cfg, Tables(), actor) || MayMissEnrollment(cfg, Tables(), target)
      ensures Solo(cfg, Tables(), LockActor(actor, target), es)
              == Turn(Tables(), if r.Err? then Ended(Refused)
                                else LockCommit(r.value.1, r.value.0, enrollments[r.value.0]))
    {
      ghost var start, pc := Tables(), LockActor(actor, target);
      var admin, e := PersonByCallsign(actor);
      es := [] + [e];
      if admin.Err? {
        Advance(cfg, start, pc, [], Turn(start, pc), e, Turn(start, Ended(Refused)));
        return Err(NotFound), es;
      }
      ghost var at := Turn(start, LockEnrollment(admin.value, target));
      Advance(cfg, start, pc, [], Turn(start, pc), e, at);
      var found, f := EnrollmentByCallsign(target);
      if found.Err? {
        Advance(cfg, start, pc, es, at, f, Turn(start, Ended(Refused)));
        return Err(NotFound), es + [f];
      }
      Advance(cfg, start, pc, es, at, f, Turn(start, LockCommit(admin.value, found.value, enrollments[found.value])));
      es := es + [f];
      r := Ok((found.value, admin.value));
    }

    /** The first part of post_admin_add: anon_admin is made unless some row has the name. */
    method EnsureAnonAdmin(su: Signup, anon: Creation, roleOk: bool)
      returns (r: Result<(), Error>, ghost es: seq<Env>)
      modifies this`people, this`dirs, this`roles
      ensures !PersonAnswer(cfg, old(Tables()), ANON_ADMIN, None) ==> r.Ok? && Tables() == old(Tables())
      ensures PersonAnswer(cfg, old(Tables()), ANON_ADMIN, None) && r.Ok? ==>
                Tables() == WithAnonAdmin(old(Tables()), anon.pk)
      ensures r.Err? ==> || CreateFailsWith(cfg, old(Tables()), ANON_ADMIN, None, anon, r.error)
                         || (r.error.CommitFailed? && !roleOk)
      ensures Solo(cfg, old(Tables()), AdminAdd(su), es).db == Tables()
      ensures r.Ok? ==> Solo(cfg, old(Tables()), AdminAdd(su), es).pc == EnrollLookup(su)
    {
      ghost var start, pc := Tables(), AdminAdd(su);
      var hit := FirstPerson(cfg, Tables(), ANON_ADMIN);
      ghost var e := Env(true, hit, 0, "", 0);
      es := [] + [e];
      if hit.Some? {
        Advance(cfg, start, pc, [], Turn(start, pc), e, Turn(start, EnrollLookup(su)));
        return Ok(()), es;
      }
      Advance(cfg, start, pc, [], Turn(start, pc), e, Turn(start, CreateGuard(ANON_ADMIN, None, ForAnonAdmin(su))));
      var made;
      ghost var more;
      made, more := CreateWithCert(ANON_ADMIN, None, anon, ForAnonAdmin(su));
      SoloConcat(cfg, start, pc, es, more);
      es := es + more;
      if made.Err? {
        return Err(made.error), es;
      }
      var anonRole;
      anonRole, more := SetRole(anon.pk, ANON_ADMIN, true, roleOk, Some(su));
      SoloConcat(cfg, start, pc, es, more);
      es := es + more;
      r := if anonRole.Ok? then Ok(()) else Err(anonRole.error);
    }

    /** The rest of it: the new enrollment is approved in anon_admin's name. */
    method EnrollAndApprove(su: Signup, draw: nat -> string, enrollment: Pk, enrollOk: bool, c: Creation,
                            approveOk: bool, now: Time)
      returns (r: Result<Pk, Error>, ghost es: seq<Env>)
      requires su.firstAdmin
      modifies this`people, this`dirs, this`enrollments
      ensures r.Ok? ==>
                && r.value == c.pk && c.pk !in old(people)
                && people == old(people)[c.pk := Person(su.callsign, false)]
                && (exists p | p in old(people) ::
                      && cfg.fold(old(people)[p].callsign) == cfg.fold("anon_admin") && !old(people)[p].deleted
                      && enrollment in enrollments && enrollment !in old(enrollments)
                      && enrollments == old(enrollments)[
                           enrollment := Enrollment(enrollments[enrollment].approvecode, su.callsign, Approved, Some(p),
                                                    Some(now), Some(c.pk), su.pool, su.csr, false)])
      ensures r.Err? ==> AddFailsWith(cfg, old(Tables()), su, draw, enrollment, enrollOk, c, approveOk, r.error)
      ensures Solo(cfg, old(Tables()), EnrollLookup(su), es).db == Tables()
      ensures r.Ok? ==> Solo(cfg, old(Tables()), EnrollLookup(su), es).pc == RoleQuery(c.pk, "admin", true, None)
    {
      ghost var start := Tables();
      var made;
      made, es := EnrollForAnonAdmin(su, draw, enrollment, enrollOk);
      if made.Err? {
        return Err(made.error), es;
      }
      ghost var before := Tables();
      ghost var more;
      r, more := Approve(enrollment, made.value.0, made.value.1, c, approveOk, now, true);
      SoloConcat(cfg, start, EnrollLookup(su), es, more);
      es := es + more;
      if r.Err? {
        SamePeopleFail(cfg, before, start, su.callsign, su.csr, c, r.error);
      }
    }

    /** The new enrollment, and anon_admin who is going to approve it. */
    method EnrollForAnonAdmin(su: Signup, draw: nat -> string, enrollment: Pk, enrollOk: bool)
      returns (r: Result<(Enrollment, Pk), Error>, ghost es: seq<Env>)
      requires su.firstAdmin
      modifies this`enrollments
      ensures r.Ok? ==>
                && r.value.0 == NewEnrollment(su, r.value.0.approvecode)
                && enrollment !in old(enrollments) && enrollments == old(enrollments)[enrollment := r.value.0]
                && r.value.1 in people && !people[r.value.1].deleted
                   && SameName(cfg, people[r.value.1].callsign, ANON_ADMIN)
      ensures r.Err? ==> || EnrollFailsWith(cfg, old(Tables()), su, draw, enrollment, enrollOk, r.error)
                         || MayMissPerson(cfg, old(Tables()), ANON_ADMIN)
      ensures Solo(cfg, old(Tables()), EnrollLookup(su), es)
              == Turn(Tables(), if r.Err? then Ended(Refused)
                                else CreateGuard(su.callsign, su.csr,
                                                 ForEnrollment(Approval(enrollment, r.value.0, r.value.1, true))))
    {
      ghost var start, pc := Tables(), EnrollLookup(su);
      var made;
      made, es := CreateForCallsign(su, draw, enrollment, enrollOk);
      if made.Err? {
        return Err(made.error), es;
      }
      ghost var enrolled := Turn(Tables(), AnonLoad(enrollment, made.value));
      var approver, f := PersonByCallsign(ANON_ADMIN);
      if approver.Err? {
        assert PersonAnswer(cfg, start, ANON_ADMIN, f.hit) && !LivePerson(start, f.hit);
        Advance(cfg, start, pc, es, enrolled, f, Turn(Tables(), Ended(Refused)));
        return Err(approver.error), es + [f];
      }
      ghost var create := CreateGuard(su.callsign, su.csr,
                                      ForEnrollment(Approval(enrollment, made.value, approver.value, true)));
      Advance(cfg, start, pc, es, enrolled, f, Turn(Tables(), create));
      es := es + [f];
      r := Ok((made.value, approver.value));
    }

    /** And the new person becomes an admin. */
    method EnrollAndPromote(su: Signup, draw: nat -> string, enrollment: Pk, enrollOk: bool, c: Creation,
                            approveOk: bool, now: Time, roleOk: bool)
      returns (r: Result<Pk, Error>, ghost es: seq<Env>)
      requires su.firstAdmin
      modifies this
      ensures r.Ok? ==>
                r.value == c.pk && AdminAdded(Tables(), c.pk, su.callsign, enrollment)
      ensures enrollOk && approveOk && roleOk && NothingInTheWay(cfg, old(Tables()), su, draw, enrollment, c) ==> r.Ok?
      ensures Solo(cfg, old(Tables()), EnrollLookup(su), es).db == Tables()
    {
      ghost var start := Tables();
      r, es := EnrollAndApprove(su, draw, enrollment, enrollOk, c, approveOk, now);
      if r.Err? {
        if NothingInTheWay(cfg, start, su, draw, enrollment, c) {
          NothingFails(cfg, start, su, draw, enrollment, c);
        }
        return;
      }
      var promoted;
      ghost var more;
      promoted, more := SetRole(c.pk, "admin", true, roleOk, None);
      SoloConcat(cfg, start, EnrollLookup(su), es, more);
      es := es + more;
      if promoted.Err? || !promoted.value {
        return Err(CommitFailed), es;
      }
      r := Ok(c.pk);
    }

    /** post_admin_add without the login code: make anon_admin if no row has that name, enroll the
        callsign, approve it in anon_admin's name and make the new person an admin. */
    method AddAdmin(callsign: string, csr: Option<string>, draw: nat -> string,
                    anon: Creation, anonRoleOk: bool, enrollment: Pk, enrollOk: bool,
                    c: Creation, approveOk: bool, now: Time, roleOk: bool)
      returns (r: Result<Pk, Error>, ghost es: seq<Env>)
      modifies this
      ensures r.Ok? ==> r.value == c.pk && AdminAdded(Tables(), c.pk, callsign, enrollment)
      ensures (enrollOk && approveOk && roleOk
               && WayIsClear(cfg, old(Tables()), Signup(callsign, None, csr, true), draw, anon, anonRoleOk,
                             enrollment, c)) ==> r.Ok?
      ensures Solo(cfg, old(Tables()), AdminAdd(Signup(callsign, None, csr, true)), es).db == Tables()
    {
      var su := Signup(callsign, None, csr, true);
      ghost var start := Tables();
      if NothingInTheWay(cfg, start, su, draw, enrollment, c) {
        NothingFails(cfg, start, su, draw, enrollment, c);
      }
      if AnonAdminCanBeMade(cfg, start, anon) && anon.pk != c.pk && !SameName(cfg, callsign, ANON_ADMIN)
         && CallsignClear(cfg, start, su, draw, enrollment, c) {
        ClearOnceAnonAdminIsMade(cfg, start, anon, su, draw, enrollment, c);
      }
      var ready;
      ready, es := EnsureAnonAdmin(su, anon, anonRoleOk);
      if ready.Err? {
        if AnonAdminCanBeMade(cfg, start, anon) {
          AnonAdminIsMade(cfg, start, anon, ready.error);
        }
        return Err(ready.error), es;
      }
      ghost var more;
      r, more := EnrollAndPromote(su, draw, enrollment, enrollOk, c, approveOk, now, roleOk);
      SoloConcat(cfg, start, AdminAdd(su), es, more);
      es := es + more;
    }

    /** post_admin_add, down to the login code the new admin is given. */
    method PostAdminAdd(anonSession: bool, callsign: string, csr: Option<string>, draw: nat -> string,
                        anon: Creation, anonRoleOk: bool, enrollment: Pk, enrollOk: bool,
                        c: Creation, approveOk: bool, now: Time, roleOk: bool, drawLogin: nat -> string, loginOk: bool)
      returns (r: Result<string, Error>, ghost es: seq<Env>)
      modifies this, loginCodes
      ensures !anonSession ==> r.Err? && Tables() == old(Tables())
      ensures r.Ok? ==>
                && AdminAdded(Tables(), c.pk, callsign, enrollment)
                && r.value !in old(loginCodes.rows)
                && loginCodes.rows == old(loginCodes.rows)[
                     r.value := LoginCodes.Row(map["sub" := Claims.Str(callsign)], None, false)]
      ensures r.Err? ==> loginCodes.rows == old(loginCodes.rows)
      ensures (anonSession && enrollOk && approveOk && roleOk && loginOk
               && LoginCodeFree(old(loginCodes.rows), drawLogin)
               && WayIsClear(cfg, old(Tables()), Signup(callsign, None, csr, true), draw, anon, anonRoleOk,
                             enrollment, c)) ==> r.Ok?
      ensures Solo(cfg, old(Tables()), AdminAdd(Signup(callsign, None, csr, true)), es).db == Tables()
    {
      if !anonSession {
        return Err(WrongCode), [];
      }
      var added;
      added, es := AddAdmin(callsign, csr, draw, anon, anonRoleOk, enrollment, enrollOk, c, approveOk, now, roleOk);
      if added.Err? {
        return Err(added.error), es;
      }
      var code := loginCodes.CreateForClaims(map["sub" := Claims.Str(callsign)], drawLogin, loginOk);
      r := if code.Ok? then Ok(code.value) else if code.error.NoFreeCode? then Err(NoFreeCode) else Err(CommitFailed);
    }

    // ---- The command line --------------------------------------------------------------

    /** get_pfx: makes the person if no live one is found, and an admin of it if asked to. */
    method GetPfx(callsign: string, admin: bool, c: Creation, roleOk: bool)
      returns (r: Result<Pk, Error>, ghost es: seq<Env>)
      modifies this`people, this`dirs, this`roles
      ensures r.Ok? ==> r.value in people && !people[r.value].deleted
                        && cfg.fold(people[r.value].callsign) == cfg.fold(callsign)
      ensures r.Ok? && r.value in old(people) ==> Tables() == old(Tables())
      ensures r.Ok? && r.value !in old(people) ==>
                && r.value == c.pk && people == old(people)[c.pk := Person(callsign, false)]
                && roles == if admin then old(roles) + {(c.pk, "admin")} else old(roles)
      ensures r.Err? ==> || CreateFailsWith(cfg, old(Tables()), callsign, None, c, r.error)
                         || (r.error.CommitFailed? && admin && !roleOk)
      ensures Tables() == if es == [] then old(Tables())
                          else Solo(cfg, old(Tables()), CreateGuard(callsign, None, ForCli(admin)), es).db
    {
      var found, _ := PersonByCallsign(callsign);
      if found.Ok? {
        return found, [];
      }
      ghost var start, pc := Tables(), CreateGuard(callsign, None, ForCli(admin));
      r, es := CreateWithCert(callsign, None, c, ForCli(admin));
      if r.Ok? && admin {
        var promoted;
        ghost var more;
        promoted, more := SetRole(c.pk, "admin", true, roleOk, None);
        SoloConcat(cfg, start, pc, es, more);
        es := es + more;
        r := if promoted.Ok? then r else Err(promoted.error);
      }
    }

    // ---- Any series of calls -----------------------------------------------------------

    /** One call of a route is one request of a serial run. */
    method Serve(call: Call) returns (ghost job: Job)
      requires Allowed(cfg, call)
      modifies this, loginCodes
      ensures ApiJob(cfg, job) && Entry(job.entry) && Tables() == Solo(cfg, old(Tables()), job.entry, job.es).db
    {
      if call.NewAdmin? || call.Init? || call.Enroll? {
        job := ServeEnrollment(call);
      } else if call.Accept? || call.Lock? || call.Reset? {
        job := ServeDecision(call);
      } else {
        job := ServeChange(call);
      }
    }

    method ServeEnrollment(call: Call) returns (ghost job: Job)
      requires call.NewAdmin? || call.Init? || call.Enroll?
      modifies this, loginCodes
      ensures ApiJob(cfg, job) && Entry(job.entry) && Tables() == Solo(cfg, old(Tables()), job.entry, job.es).db
    {
      match call
      case NewAdmin(session, callsign, csr, draw, anon, anonRoleOk, enrollment, enrollOk, c, approveOk, now, roleOk,
                    drawLogin, loginOk) =>
        var r, es := PostAdminAdd(session, callsign, csr, draw, anon, anonRoleOk, enrollment, enrollOk, c, approveOk,
                                  now, roleOk, drawLogin, loginOk);
        job := Job(AdminAdd(Signup(callsign, None, csr, true)), es);
      case Init(callsign, csr, draw, pk, commitOk) =>
        var r, es := CreateForCallsign(Signup(callsign, None, csr, false), draw, pk, commitOk);
        job := Job(EnrollLookup(Signup(callsign, None, csr, false)), es);
      case Enroll(code, callsign, csr, draw, pk, commitOk) =>
        var r, es := PostEnrollInviteCode(code, callsign, csr, draw, pk, commitOk);
        job := Job(InviteLookup(code, Signup(callsign, None, csr, false)), es);
    }

    method ServeDecision(call: Call) returns (ghost job: Job)
      requires call.Accept? || call.Lock? || call.Reset?
      modifies this
      ensures ApiJob(cfg, job) && Entry(job.entry) && Tables() == Solo(cfg, old(Tables()), job.entry, job.es).db
    {
      match call
      case Accept(actor, target, code, c, commitOk, now) =>
        var r, es := PostEnrollmentAccept(actor, target, code, c, commitOk, now);
        job := Job(AcceptActor(actor, target, code), es);
      case Lock(actor, target, commitOk, now) =>
        var r, es := RequestEnrollmentLock(actor, target, commitOk, now);
        job := Job(LockActor(actor, target), es);
      case Reset(target, draw, commitOk) =>
        var r, es := ResetApprovecode(target, draw, commitOk);
        job := Job(ResetLookup(target), es);
    }

    method ServeChange(call: Call) returns (ghost job: Job)
      requires Allowed(cfg, call) && (call.Role? || call.Remove? || call.NewCode? || call.ChangeCode?)
      modifies this
      ensures ApiJob(cfg, job) && Entry(job.entry) && Tables() == Solo(cfg, old(Tables()), job.entry, job.es).db
    {
      match call
      case Role(target, add, commitOk) =>
        var r, es := SetAdmin(target, add, commitOk);
        job := Job(RoleLookup(target, add), es);
      case Remove(target, commitOk, caOk) =>
        var r, es := DeletePerson(target, commitOk, caOk);
        job := Job(RevokeLookup(target), es);
      case NewCode(owner, draw, pk, commitOk) =>
        var r, es := CreatePool(owner, draw, pk, commitOk);
        job := Job(PoolCreate(owner), es);
      case ChangeCode(code, action, commitOk) =>
        var r, es := ChangeInviteCode(code, action, commitOk);
        job := Job(PoolLookup(code, action), es);
    }

    /** Whatever is called in whatever order, the tables are those of a serial run of the API, so
        everything proved of serial runs holds of them. */
    method ServeAll(calls: seq<Call>) returns (ghost jobs: seq<Job>)
      requires forall i | 0 <= i < |calls| :: Allowed(cfg, calls[i])
      modifies this, loginCodes
      ensures ApiJobs(cfg, jobs) && Tables() == Serial(cfg, old(Tables()), jobs)
      ensures SerialDb(cfg, old(Tables())) ==> SerialDb(cfg, Tables()) && Extends(old(Tables()), Tables())
    {
      ghost var start := Tables();
      jobs := [];
      for i := 0 to |calls|
        invariant ApiJobs(cfg, jobs) && Tables() == Serial(cfg, start, jobs)
      {
        ghost var job := Serve(calls[i]);
        SerialAdd(cfg, start, jobs, job);
        jobs := jobs + [job];
      }
      if SerialDb(cfg, start) {
        SerialKeeps(cfg, start, jobs);
      }
    }
  }
}
