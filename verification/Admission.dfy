/** The two admission decisions: the ValidUser dependency of the routes and the callsign validity
    check of the reverse proxy. */
module Admission {
  import opened Wrappers
  import opened Database
  import opened Requests
  import opened Coherence
  import opened SerialRuns

  /** What a request carries: the CN of a client certificate's DN, the sub of a verified JWT. */
  datatype Credential = Credential(mtls: Option<Option<string>>, jwt: Option<Option<string>>)

  datatype Verdict = Forbidden | Returned(person: Option<Pk>)

  const TILAUSPALVELU_SESSION := "tpadminsession"

  function RolesOf(db: DB, p: Pk): set<string> {
    set r | r in db.roles && r.0 == p :: r.1
  }

  function Denied(autoError: bool): Verdict {
    if autoError then Forbidden else Returned(None)
  }

  function Decide(cfg: Config, db: DB, userid: Option<string>, viaMtls: bool, required: set<string>, autoError: bool,
                  hit: Option<Pk>): Verdict
  {
    if userid.None? || userid.value == "" then Denied(autoError)
    else if viaMtls && userid.value in cfg.productCns then Returned(None)
    else if !LivePerson(db, hit) then Denied(autoError)
    else if autoError && !(required <= RolesOf(db, hit.value)) then Forbidden
    else Returned(Some(hit.value))
  }

  function UseridOf(c: Credential): Option<string> {
    if c.mtls.Some? then c.mtls.value else if c.jwt.Some? then c.jwt.value else None
  }

  /** ValidUser, with `hit` the answer of the lookup of the person. */
  function ValidUser(cfg: Config, db: DB, c: Credential, required: set<string>, autoError: bool,
                     hit: Option<Pk>): Verdict {
    if c.mtls.None? && c.jwt == Some(Some(TILAUSPALVELU_SESSION)) then Forbidden
    else Decide(cfg, db, UseridOf(c), c.mtls.Some?, required, autoError, hit)
  }

  function IsValid(cfg: Config, db: DB, callsign: string, hit: Option<Pk>): bool {
    callsign == cfg.serviceCn || callsign in cfg.productCns || LivePerson(db, hit)
  }

  /** The decision needs the person: the name is not empty, not refused and not a product's. */
  predicate LooksUp(cfg: Config, c: Credential) {
    && UseridOf(c).Some? && UseridOf(c).value != ""
    && (c.mtls.None? ==> c.jwt != Some(Some(TILAUSPALVELU_SESSION)))
    && (c.mtls.Some? ==> UseridOf(c).value !in cfg.productCns)
  }

  /** The dependency as the request runs it: the person is assigned along the way. */
  method CallValidUser(cfg: Config, db: DB, c: Credential, required: set<string>, autoError: bool)
    returns (v: Verdict, hit: Option<Pk>)
    ensures LooksUp(cfg, c) ==> PersonAnswer(cfg, db, UseridOf(c).value, hit)
    ensures v == ValidUser(cfg, db, c, required, autoError, hit)
    ensures v.Returned? && v.person.Some? ==> v.person == hit
    ensures (v.Returned? && v.person.Some?
             <==> && LooksUp(cfg, c) && hit.Some? && hit.value in db.people && !db.people[hit.value].deleted
                  && (autoError ==> forall role | role in required :: (hit.value, role) in db.roles))
    ensures (v == Returned(None)
             <==> || (c.mtls.Some? && UseridOf(c).Some? && UseridOf(c).value != ""
                      && UseridOf(c).value in cfg.productCns)
                  || (!autoError && !(c.mtls.None? && c.jwt == Some(Some("tpadminsession")))
                      && (LooksUp(cfg, c) ==> hit.None? || db.people[hit.value].deleted)))
  {
    var person: Option<Pk> := None;
    hit := None;
    if c.mtls.None? && c.jwt.None? {
      return Denied(autoError), None;
    }
    if c.mtls.None? && c.jwt.value == Some(TILAUSPALVELU_SESSION) {
      return Forbidden, None;
    }
    var userid := if c.mtls.Some? then c.mtls.value else c.jwt.value;
    if userid.None? || userid.value == "" {
      return Denied(autoError), None;
    }
    if c.mtls.Some? && userid.value in cfg.productCns {
      return Returned(person), None;
    }
    hit := FirstPerson(cfg, db, userid.value);
    if LivePerson(db, hit) {
      person := hit;
    } else if autoError {
      return Forbidden, hit;
    }
    if person.None? {
      return Returned(person), hit;
    }
    var roles := RolesOf(db, person.value);
    if !(required <= roles) && autoError {
      return Forbidden, hit;
    }
    return Returned(person), hit;
  }

  // ---- Agreement -----------------------------------------------------------------------

  function Mtls(cn: string): Credential {
    Credential(Some(Some(cn)), None)
  }

  /** Whatever rows the two lookups happen to return, the decisions are the same. */
  ghost predicate Agree(cfg: Config, db: DB, cn: string) {
    forall h, i | PersonAnswer(cfg, db, cn, h) && PersonAnswer(cfg, db, cn, i) ::
      ValidUser(cfg, db, Mtls(cn), {}, true, h).Returned? <==> IsValid(cfg, db, cn, i)
  }

  /** A live and a deleted row share the name. */
  ghost predicate Mixed(cfg: Config, db: DB, cn: string) {
    exists p, q ::
      && p in db.people && SameName(cfg, db.people[p].callsign, cn) && !db.people[p].deleted
      && q in db.people && SameName(cfg, db.people[q].callsign, cn) && db.people[q].deleted
  }

  /** On any tables at all, the two decisions agree exactly when the name is a product's or no
      revoked person shares it with a live one. */
  lemma AgreeIffNotMixed(cfg: Config, db: DB, cn: string)
    requires cn != "" && cn != cfg.serviceCn
    ensures Agree(cfg, db, cn) <==> cn in cfg.productCns || !Mixed(cfg, db, cn)
  {
    if cn !in cfg.productCns && Mixed(cfg, db, cn) {
      var p, q :|
        && p in db.people && SameName(cfg, db.people[p].callsign, cn) && !db.people[p].deleted
        && q in db.people && SameName(cfg, db.people[q].callsign, cn) && db.people[q].deleted;
      assert PersonAnswer(cfg, db, cn, Some(p)) && PersonAnswer(cfg, db, cn, Some(q));
      assert !ValidUser(cfg, db, Mtls(cn), {}, true, Some(q)).Returned? && IsValid(cfg, db, cn, Some(p));
    } else {
      forall h, i | PersonAnswer(cfg, db, cn, h) && PersonAnswer(cfg, db, cn, i)
        ensures ValidUser(cfg, db, Mtls(cn), {}, true, h).Returned? <==> IsValid(cfg, db, cn, i)
      {
        if cn !in cfg.productCns {
          SameAnswer(cfg, db, cn, h, i);
        }
      }
    }
  }

  lemma SameAnswer(cfg: Config, db: DB, cn: string, h: Option<Pk>, i: Option<Pk>)
    requires PersonAnswer(cfg, db, cn, h) && PersonAnswer(cfg, db, cn, i)
    requires !Mixed(cfg, db, cn)
    ensures LivePerson(db, h) <==> LivePerson(db, i)
  {
    if h.Some? && i.Some? {
      assert SameName(cfg, db.people[h.value].callsign, cn) && SameName(cfg, db.people[i.value].callsign, cn);
    }
  }

  /** After any serial run of the API the two decisions agree on every name but the service's own. */
  lemma DecidersAgree(cfg: Config, jobs: seq<Job>, cn: string)
    requires ApiJobs(cfg, jobs) && cn != "" && cn != cfg.serviceCn
    ensures Agree(cfg, Serial(cfg, EMPTY_DB, jobs), cn)
  {
    var db := Serial(cfg, EMPTY_DB, jobs);
    NamesNeverCollide(cfg, jobs);
    AgreeIffNotMixed(cfg, db, cn);
    forall p, q | p in db.people && SameName(cfg, db.people[p].callsign, cn)
                  && q in db.people && SameName(cfg, db.people[q].callsign, cn)
      ensures p == q
    {
    }
  }

  /** On the service's own name they agree exactly when ValidUser finds another reason to admit it:
      the proxy's check always lets it through. */
  lemma ServiceNameAgreesIff(cfg: Config, db: DB, hit: Option<Pk>)
    requires cfg.serviceCn != ""
    ensures IsValid(cfg, db, cfg.serviceCn, hit)
    ensures (ValidUser(cfg, db, Mtls(cfg.serviceCn), {}, true, hit).Returned?
             <==> cfg.serviceCn in cfg.productCns || LivePerson(db, hit))
  {
  }

  /** With roles required, exactly product certificates and live persons holding all of them pass. */
  lemma RolesAreRequired(cfg: Config, db: DB, c: Credential, required: set<string>, hit: Option<Pk>)
    requires UseridOf(c).Some? && UseridOf(c).value != ""
             && (c.mtls.None? ==> UseridOf(c).value != TILAUSPALVELU_SESSION)
    requires PersonAnswer(cfg, db, UseridOf(c).value, hit)
    ensures (ValidUser(cfg, db, c, required, true, hit).Returned?
             <==> || (c.mtls.Some? && UseridOf(c).value in cfg.productCns)
                  || (LivePerson(db, hit) && forall role | role in required :: (hit.value, role) in db.roles))
  {
    if LivePerson(db, hit) {
      forall role ensures role in RolesOf(db, hit.value) <==> (hit.value, role) in db.roles {
        if (hit.value, role) in db.roles {
          assert (hit.value, role).1 in RolesOf(db, hit.value);
        }
      }
    }
  }

  /** Without auto_error the required roles change nothing: a live person is returned either way. */
  lemma LenientIgnoresRoles(cfg: Config, db: DB, c: Credential, required: set<string>, hit: Option<Pk>)
    ensures ValidUser(cfg, db, c, required, false, hit) == ValidUser(cfg, db, c, {}, false, hit)
    ensures (forall more: set<string> ::
               ValidUser(cfg, db, c, more, true, hit) == ValidUser(cfg, db, c, {}, true, hit))
            <==> !ValidUser(cfg, db, c, {}, true, hit).Returned? || ValidUser(cfg, db, c, {}, true, hit).person.None?
  {
    var plain := ValidUser(cfg, db, c, {}, true, hit);
    if plain.Returned? && plain.person.Some? {
      var unheld := FreshString(RolesOf(db, hit.value));
      assert ValidUser(cfg, db, c, {unheld}, true, hit) == Forbidden;
    }
  }

  // ---- Revocation ----------------------------------------------------------------------

  /** Once a person's row is deleted, no later serial run of the API makes any spelling of the
      callsign pass either decision, with a certificate or a token, with or without roles. */
  lemma RevocationIsPermanent(cfg: Config, before: seq<Job>, later: seq<Job>, p: Pk, name: string, c: Credential,
                              required: set<string>, hit: Option<Pk>)
    requires ApiJobs(cfg, before) && ApiJobs(cfg, later)
    requires var db := Serial(cfg, EMPTY_DB, before);
             p in db.people && db.people[p].deleted && SameName(cfg, db.people[p].callsign, name)
    requires name != cfg.serviceCn && name !in cfg.productCns && UseridOf(c) == Some(name)
    requires PersonAnswer(cfg, Serial(cfg, Serial(cfg, EMPTY_DB, before), later), name, hit)
    ensures var end := Serial(cfg, Serial(cfg, EMPTY_DB, before), later);
            && ValidUser(cfg, end, c, required, true, hit) == Forbidden
            && !IsValid(cfg, end, name, hit)
  {
    SerialKeeps(cfg, EMPTY_DB, before);
    var db := Serial(cfg, EMPTY_DB, before);
    SerialKeeps(cfg, db, later);
    var end := Serial(cfg, db, later);
    assert PersonExtends(db.people[p], end.people[p]);
    assert hit == Some(p);
  }

  /** The commit inside revoke is what counts: the row is deleted, and no decider's lookup finds it
      live, also when a call to the CA or Keycloak fails after it. */
  lemma RevokeCommitDeletes(cfg: Config, db: DB, target: string, e: Env, calls: Env)
    requires PersonAnswer(cfg, db, target, e.hit) && LivePerson(db, e.hit) && e.ok
    ensures var end := Solo(cfg, db, RevokeLookup(target), [e, e, calls]);
            && end.db == WithDeletedPerson(db, e.hit.value) && !LivePerson(end.db, e.hit)
            && (end.pc == Ended(Finished) <==> calls.ok)
  {
    RevokeAlone(cfg, db, target, e, calls);
  }
}
