/** Deleted pools when requests interleave: which of them can still gain an enrollment. */
module ConcurrentPools {
  import opened Wrappers
  import opened Database
  import opened Requests
  import opened Coherence
  import opened SerialRuns

  /** The request came through the pool and may still enroll in it. */
  predicate Carries(pc: Pc, pool: Pk) {
    match pc
    case InviteNameCheck(su) => su.pool == Some(pool)
    case EnrollLookup(su) => su.pool == Some(pool)
    case EnrollInsert(su) => su.pool == Some(pool)
    case _ => false
  }

  predicate NobodyEnrolledAs(db: DB, callsign: string) {
    forall n | n in db.enrollments :: db.enrollments[n].callsign != callsign
  }

  /** Nothing that is there already stops the request. */
  predicate CanEnroll(cfg: Config, db: DB, pc: Pc) {
    match pc
    case InviteNameCheck(su) =>
      su.callsign !in cfg.productCns && CsrFits(cfg, su.csr, su.callsign) && NoneEnrolled(cfg, db, su.callsign)
    case EnrollLookup(su) =>
      su.callsign !in cfg.productCns && CsrFits(cfg, su.csr, su.callsign) && NoneEnrolled(cfg, db, su.callsign)
    case EnrollInsert(su) => NobodyEnrolledAs(db, su.callsign)
    case _ => false
  }

  predicate SomeCanEnroll(cfg: Config, s: Sys, pool: Pk) {
    exists r | r in s.reqs :: Carries(s.reqs[r], pool) && CanEnroll(cfg, s.db, s.reqs[r])
  }

  predicate Deleted(db: DB, pool: Pk) {
    pool in db.pools && db.pools[pool].deleted
  }

  ghost predicate Gains(cfg: Config, s: Sys, evs: seq<Event>, pool: Pk) {
    Members(Run(cfg, s, evs).db, pool) != Members(s.db, pool)
  }

  // ---- Pools come from the invite route ------------------------------------------------

  predicate PoolFree(pc: Pc) {
    match pc
    case AdminAdd(su) => su.pool.None?
    case InviteLookup(_, su) => su.pool.None?
    case CreateGuard(_, _, caller) => LaterPoolFree(caller)
    case CreateInsert(_, caller) => LaterPoolFree(caller)
    case CreateSign(_, _, caller) => LaterPoolFree(caller)
    case CreatePost(_, _, caller) => LaterPoolFree(caller)
    case RoleQuery(_, _, _, next) => next.Some? ==> next.value.pool.None?
    case RoleCommit(_, _, _, next) => next.Some? ==> next.value.pool.None?
    case _ => true
  }

  ghost predicate AllPoolFree(s: Sys) {
    Inv(s) && forall r | r in s.reqs :: PoolFree(s.reqs[r])
  }

  lemma StepKeepsPoolFree(cfg: Config, db: DB, pc: Pc, e: Env)
    requires PoolFree(pc)
    ensures PoolFree(Step(cfg, db, pc, e).pc)
  {
  }

  lemma EntryIsPoolFree(pc: Pc)
    requires Entry(pc)
    ensures PoolFree(pc)
  {
  }

  lemma NextKeepsPoolFree(cfg: Config, s: Sys, ev: Event)
    requires AllPoolFree(s)
    ensures AllPoolFree(Next(cfg, s, ev)) && Extends(s.db, Next(cfg, s, ev).db)
  {
    NextKeeps(cfg, s, ev);
    if ev.Act? && ev.id in s.reqs {
      StepKeepsPoolFree(cfg, s.db, s.reqs[ev.id], ev.e);
    } else if ev.Start? && Entry(ev.entry) {
      EntryIsPoolFree(ev.entry);
    }
  }

  lemma {:induction false} RunKeepsPoolFree(cfg: Config, s: Sys, evs: seq<Event>)
    requires AllPoolFree(s)
    ensures AllPoolFree(Run(cfg, s, evs))
    decreases |evs|
  {
    if evs != [] {
      NextKeepsPoolFree(cfg, s, evs[0]);
      RunKeepsPoolFree(cfg, Next(cfg, s, evs[0]), evs[1..]);
    }
  }

  // ---- Nobody who can enroll: frozen ---------------------------------------------------

  lemma CanEnrollBefore(cfg: Config, db: DB, later: DB, pc: Pc)
    requires Extends(db, later) && CanEnroll(cfg, later, pc)
    ensures CanEnroll(cfg, db, pc)
  {
    assert forall n | n in db.enrollments :: later.enrollments[n].callsign == db.enrollments[n].callsign;
  }

  lemma CarriesOn(cfg: Config, db: DB, pc: Pc, e: Env, pool: Pk)
    requires PoolFree(pc) && Deleted(db, pool) && Carries(Step(cfg, db, pc, e).pc, pool)
    ensures pc.InviteNameCheck? || pc.EnrollLookup? || pc.EnrollInsert?
  {
  }

  /** Only who can enroll gets on, and only the invite route brings a pool in. */
  lemma StepFromCanEnroll(cfg: Config, db: DB, pc: Pc, e: Env, pool: Pk)
    requires DbInv(db) && PoolFree(pc) && Deleted(db, pool)
    requires var t := Step(cfg, db, pc, e); Carries(t.pc, pool) && CanEnroll(cfg, t.db, t.pc)
    ensures Carries(pc, pool) && CanEnroll(cfg, db, pc)
  {
    CarriesOn(cfg, db, pc, e, pool);
  }

  lemma StepEnrolls(cfg: Config, db: DB, pc: Pc, e: Env, n: Pk)
    requires n in Step(cfg, db, pc, e).db.enrollments && n !in db.enrollments
    ensures pc.EnrollInsert? && NobodyEnrolledAs(db, pc.su.callsign)
    ensures Step(cfg, db, pc, e).db.enrollments[n].pool == pc.su.pool
  {
    if !Writes(pc) {
      QueryWritesNothing(cfg, db, pc, e);
    }
  }

  lemma FrozenNext(cfg: Config, s: Sys, ev: Event, pool: Pk)
    requires AllPoolFree(s) && Deleted(s.db, pool) && !SomeCanEnroll(cfg, s, pool)
    ensures var t := Next(cfg, s, ev);
            Deleted(t.db, pool) && !SomeCanEnroll(cfg, t, pool) && Members(t.db, pool) == Members(s.db, pool)
  {
    NextKeepsPoolFree(cfg, s, ev);
    var t := Next(cfg, s, ev);
    forall r | r in t.reqs && Carries(t.reqs[r], pool) ensures !CanEnroll(cfg, t.db, t.reqs[r]) {
      if CanEnroll(cfg, t.db, t.reqs[r]) {
        if ev.Act? && r == ev.id {
          StepFromCanEnroll(cfg, s.db, s.reqs[r], ev.e, pool);
        } else {
          CanEnrollBefore(cfg, s.db, t.db, t.reqs[r]);
        }
      }
    }
    forall n | n in Members(t.db, pool) ensures n in Members(s.db, pool) {
      if n !in s.db.enrollments {
        StepEnrolls(cfg, s.db, s.reqs[ev.id], ev.e, n);
      }
    }
  }

  lemma {:induction false} FrozenForGood(cfg: Config, s: Sys, evs: seq<Event>, pool: Pk)
    requires AllPoolFree(s) && Deleted(s.db, pool) && !SomeCanEnroll(cfg, s, pool)
    ensures Members(Run(cfg, s, evs).db, pool) == Members(s.db, pool)
    decreases |evs|
  {
    if evs != [] {
      NextKeepsPoolFree(cfg, s, evs[0]);
      FrozenNext(cfg, s, evs[0], pool);
      FrozenForGood(cfg, Next(cfg, s, evs[0]), evs[1..], pool);
    }
  }

  // ---- Somebody who can enroll does ----------------------------------------------------

  lemma InsertGains(cfg: Config, s: Sys, r: nat, pool: Pk) returns (evs: seq<Event>, n: Pk)
    requires r in s.reqs && s.reqs[r].EnrollInsert? && Carries(s.reqs[r], pool) && CanEnroll(cfg, s.db, s.reqs[r])
    ensures n !in s.db.enrollments && n in Members(Run(cfg, s, evs).db, pool)
  {
    var codes := set m | m in s.db.enrollments :: s.db.enrollments[m].approvecode;
    var code := FreshString(codes);
    n := FreshNat(s.db.enrollments.Keys);
    assert forall m | m in s.db.enrollments :: s.db.enrollments[m].approvecode in codes;
    var act := Act(r, Env(true, None, n, code, 0));
    evs := [act];
    assert evs[1..] == [];
    assert Run(cfg, s, evs) == Next(cfg, s, act);
  }

  lemma {:induction false} CarrierGains(cfg: Config, s: Sys, r: nat, pool: Pk) returns (evs: seq<Event>, n: Pk)
    requires r in s.reqs && Carries(s.reqs[r], pool) && CanEnroll(cfg, s.db, s.reqs[r])
    ensures n !in s.db.enrollments && n in Members(Run(cfg, s, evs).db, pool)
    decreases if s.reqs[r].InviteNameCheck? then 2 else if s.reqs[r].EnrollLookup? then 1 else 0
  {
    if s.reqs[r].EnrollInsert? {
      evs, n := InsertGains(cfg, s, r, pool);
    } else {
      var act := Act(r, Env(true, None, 0, "", 0));
      var rest;
      rest, n := CarrierGains(cfg, Next(cfg, s, act), r, pool);
      evs := [act] + rest;
      assert evs[1..] == rest;
    }
  }

  /** In any reachable state of any interleaving, some continuation adds an enrollment to a deleted
      pool exactly when a request has come through the pool before that and nothing that is there
      already stops it. */
  lemma DeletedPoolGainsIff(cfg: Config, evs: seq<Event>, pool: Pk)
    requires Deleted(Run(cfg, IDLE, evs).db, pool)
    ensures var s := Run(cfg, IDLE, evs);
            (exists more :: Gains(cfg, s, more, pool)) <==> SomeCanEnroll(cfg, s, pool)
  {
    RunKeepsPoolFree(cfg, IDLE, evs);
    var s := Run(cfg, IDLE, evs);
    if SomeCanEnroll(cfg, s, pool) {
      var r :| r in s.reqs && Carries(s.reqs[r], pool) && CanEnroll(cfg, s.db, s.reqs[r]);
      var more, n := CarrierGains(cfg, s, r, pool);
      assert n !in Members(s.db, pool);
      assert Gains(cfg, s, more, pool);
    } else {
      forall more ensures !Gains(cfg, s, more, pool) {
        FrozenForGood(cfg, s, more, pool);
      }
    }
  }
}
