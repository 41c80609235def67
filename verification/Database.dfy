/** The tables the identity code works on (people, roles, enrollments, pools) and the
    directories it creates for people, with the answers a query may give.

    A query that takes the first of several matching rows has no ORDER BY, so its answer is
    any matching row: `hit` is the answer and the `...Answer` predicates say which answers
    are possible. */
module Database {
  import opened Wrappers

  type Pk = nat
  type Time = nat

  /** Settings. `fold` is the database's case folding, whatever it is; `csrNames` says whether
      a CSR's subject names a callsign. */
  datatype Config = Config(
    fold: string -> string,
    productCns: set<string>,
    serviceCn: string,
    csrNames: (string, string) -> bool)

  const ANON_ADMIN := "anon_admin"

  datatype Person = Person(callsign: string, deleted: bool)

  datatype State = Pending | Approved | Rejected

  datatype Enrollment = Enrollment(
    approvecode: string,
    callsign: string,
    state: State,
    decidedBy: Option<Pk>,
    decidedOn: Option<Time>,
    person: Option<Pk>,
    pool: Option<Pk>,
    csr: Option<string>,
    deleted: bool)

  datatype Pool = Pool(owner: Pk, active: bool, deleted: bool, invitecode: string)

  datatype DB = DB(
    people: map<Pk, Person>,
    dirs: set<Pk>,
    roles: set<(Pk, string)>,
    enrollments: map<Pk, Enrollment>,
    pools: map<Pk, Pool>)

  const EMPTY_DB := DB(map[], {}, {}, map[], map[])

  predicate SameName(cfg: Config, a: string, b: string) {
    cfg.fold(a) == cfg.fold(b)
  }

  predicate CsrFits(cfg: Config, csr: Option<string>, callsign: string) {
    csr.None? || csr.value == "" || cfg.csrNames(csr.value, callsign)
  }

  predicate NameAllowed(cfg: Config, callsign: string, csr: Option<string>) {
    CsrFits(cfg, csr, callsign) && callsign !in cfg.productCns && callsign != cfg.serviceCn
  }

  // ---- Queries -------------------------------------------------------------------------

  /** The possible answers of a case-insensitive lookup of a person, deleted rows included. */
  predicate PersonAnswer(cfg: Config, db: DB, callsign: string, hit: Option<Pk>) {
    match hit
    case Some(p) => p in db.people && SameName(cfg, db.people[p].callsign, callsign)
    case None => forall p | p in db.people :: !SameName(cfg, db.people[p].callsign, callsign)
  }

  /** The lookup itself: the first of the matching rows, whichever that is. */
  method FirstPerson(cfg: Config, db: DB, callsign: string) returns (hit: Option<Pk>)
    ensures PersonAnswer(cfg, db, callsign, hit)
  {
    var matches := set p | p in db.people && SameName(cfg, db.people[p].callsign, callsign);
    if matches == {} {
      forall p | p in db.people ensures !SameName(cfg, db.people[p].callsign, callsign) {
        assert p !in matches;
      }
      hit := None;
    } else {
      var p :| p in matches;
      hit := Some(p);
    }
  }

  predicate EnrollmentAnswer(cfg: Config, db: DB, callsign: string, hit: Option<Pk>) {
    match hit
    case Some(n) => n in db.enrollments && SameName(cfg, db.enrollments[n].callsign, callsign)
    case None => forall n | n in db.enrollments :: !SameName(cfg, db.enrollments[n].callsign, callsign)
  }

  predicate PoolAnswer(db: DB, code: string, hit: Option<Pk>) {
    match hit
    case Some(p) => p in db.pools && db.pools[p].invitecode == code
    case None => forall p | p in db.pools :: db.pools[p].invitecode != code
  }

  predicate LivePerson(db: DB, hit: Option<Pk>) {
    hit.Some? && hit.value in db.people && !db.people[hit.value].deleted
  }

  predicate LiveEnrollment(db: DB, hit: Option<Pk>) {
    hit.Some? && hit.value in db.enrollments && !db.enrollments[hit.value].deleted
  }

  predicate LivePool(db: DB, hit: Option<Pk>) {
    hit.Some? && hit.value in db.pools && !db.pools[hit.value].deleted
  }

  // ---- Commits: unique constraints are on the exact strings ----------------------------

  predicate PersonFits(db: DB, pk: Pk, callsign: string) {
    pk !in db.people && forall p | p in db.people :: db.people[p].callsign != callsign
  }

  predicate EnrollmentFits(db: DB, pk: Pk, callsign: string, code: string) {
    && pk !in db.enrollments
    && forall n | n in db.enrollments ::
         db.enrollments[n].callsign != callsign && db.enrollments[n].approvecode != code
  }

  predicate ApprovecodeFits(db: DB, code: string) {
    forall n | n in db.enrollments :: db.enrollments[n].approvecode != code
  }

  predicate PoolFits(db: DB, pk: Pk, code: string) {
    pk !in db.pools && forall p | p in db.pools :: db.pools[p].invitecode != code
  }

  function WithPerson(db: DB, pk: Pk, callsign: string): DB {
    db.(people := db.people[pk := Person(callsign, false)], dirs := db.dirs + {pk})
  }

  function WithDeletedPerson(db: DB, pk: Pk): DB {
    if pk in db.people then db.(people := db.people[pk := db.people[pk].(deleted := true)]) else db
  }

  function WithRole(roles: set<(Pk, string)>, p: Pk, role: string, add: bool): set<(Pk, string)> {
    if add then roles + {(p, role)} else roles - {(p, role)}
  }

  /** A commit writes the attributes whose value differs from the one read earlier; the others
      keep whatever the row holds by now. */
  function Dirty<T(==)>(seen: T, wanted: T, now: T): T {
    if seen == wanted then now else wanted
  }

  function ApprovedRow(row: Enrollment, seen: Enrollment, approver: Pk, now: Time, person: Pk): Enrollment {
    row.(
      state := Dirty(seen.state, Approved, row.state),
      decidedBy := Dirty(seen.decidedBy, Some(approver), row.decidedBy),
      decidedOn := Dirty(seen.decidedOn, Some(now), row.decidedOn),
      person := Dirty(seen.person, Some(person), row.person))
  }

  function RejectedRow(row: Enrollment, seen: Enrollment, decider: Pk, now: Time): Enrollment {
    row.(
      state := Dirty(seen.state, Rejected, row.state),
      decidedBy := Dirty(seen.decidedBy, Some(decider), row.decidedBy),
      decidedOn := Dirty(seen.decidedOn, Some(now), row.decidedOn))
  }

  function WithEnrollment(db: DB, pk: Pk, row: Enrollment): DB {
    db.(enrollments := db.enrollments[pk := row])
  }

  function WithPool(db: DB, pk: Pk, row: Pool): DB {
    db.(pools := db.pools[pk := row])
  }

  // ---- Something new can always be drawn -----------------------------------------------

  ghost function Longest(taken: set<string>): (s: string)
    ensures forall r | r in taken :: |r| <= |s|
  {
    if taken == {} then ""
    else
      var r :| r in taken;
      var rest := Longest(taken - {r});
      assert forall q | q in taken :: q == r || q in taken - {r};
      if |r| <= |rest| then rest else r
  }

  lemma FreshString(taken: set<string>) returns (s: string)
    ensures s !in taken
  {
    s := Longest(taken) + "x";
  }

  ghost function Largest(taken: set<nat>): (n: nat)
    ensures forall m | m in taken :: m <= n
  {
    if taken == {} then 0
    else
      var m :| m in taken;
      var rest := Largest(taken - {m});
      assert forall q | q in taken :: q == m || q in taken - {m};
      if m <= rest then rest else m
  }

  lemma FreshNat(taken: set<nat>) returns (n: nat)
    ensures n !in taken
  {
    n := Largest(taken) + 1;
  }
}
