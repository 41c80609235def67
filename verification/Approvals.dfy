/** Which enrollments can still be approved: exactly when, in every reachable state of any
    interleaving, some continuation approves an enrollment. */
module Approvals {
  import opened Wrappers
  import opened Database
  import opened Requests
  import opened Coherence

  /** The request is past the commit of the person row for an enrollment. */
  predicate PastInsert(pc: Pc) {
    match pc
    case CreateSign(_, _, caller) => caller.ForEnrollment?
    case CreatePost(_, _, caller) => caller.ForEnrollment?
    case ApproveCommit(_, _) => true
    case _ => false
  }

  function ApprovalOf(pc: Pc): Approval
    requires PastInsert(pc)
  {
    match pc
    case CreateSign(_, _, caller) => caller.a
    case CreatePost(_, _, caller) => caller.a
    case ApproveCommit(_, a) => a
  }

  /** The request has made the person of enrollment n and is going to hand it over. */
  predicate Handing(pc: Pc, n: Pk) {
    PastInsert(pc) && ApprovalOf(pc).enrollment == n
  }

  predicate Waiting(db: DB, n: Pk) {
    n in db.enrollments && db.enrollments[n].state != Approved
  }

  /** create_with_cert can still make the enrollment's person. */
  ghost predicate Free(cfg: Config, db: DB, n: Pk)
    requires n in db.enrollments
  {
    var row := db.enrollments[n];
    NameAllowed(cfg, row.callsign, row.csr) && forall p | p in db.people :: db.people[p].callsign != row.callsign
  }

  ghost predicate Approvable(cfg: Config, s: Sys, n: Pk)
    requires n in s.db.enrollments
  {
    Free(cfg, s.db, n) || exists r :: r in s.reqs && Handing(s.reqs[r], n)
  }

  ghost predicate Approves(cfg: Config, s: Sys, evs: seq<Event>, n: Pk) {
    var t := Run(cfg, s, evs);
    n in t.db.enrollments && t.db.enrollments[n].state == Approved
  }

  // ---- What is not approvable never is -------------------------------------------------

  /** The names of a request that is creating an enrollment's person have been checked. */
  predicate Checked(cfg: Config, pc: Pc) {
    match pc
    case CreateGuard(_, csr, caller) => caller.ForEnrollment? ==> csr == caller.a.seen.csr
    case CreateInsert(callsign, caller) => caller.ForEnrollment? ==> NameAllowed(cfg, callsign, caller.a.seen.csr)
    case _ => true
  }

  ghost predicate AllChecked(cfg: Config, s: Sys) {
    Inv(s) && forall r | r in s.reqs :: Checked(cfg, s.reqs[r])
  }

  lemma StepKeepsChecked(cfg: Config, db: DB, pc: Pc, e: Env)
    requires Checked(cfg, pc)
    ensures Checked(cfg, Step(cfg, db, pc, e).pc)
  {
  }

  lemma NextKeepsChecked(cfg: Config, s: Sys, ev: Event)
    requires AllChecked(cfg, s)
    ensures AllChecked(cfg, Next(cfg, s, ev)) && Extends(s.db, Next(cfg, s, ev).db)
  {
    NextKeeps(cfg, s, ev);
    if ev.Act? && ev.id in s.reqs {
      StepKeepsChecked(cfg, s.db, s.reqs[ev.id], ev.e);
    }
  }

  lemma {:induction false} RunKeepsChecked(cfg: Config, s: Sys, evs: seq<Event>)
    requires AllChecked(cfg, s)
    ensures AllChecked(cfg, Run(cfg, s, evs))
    decreases |evs|
  {
    if evs != [] {
      NextKeepsChecked(cfg, s, evs[0]);
      RunKeepsChecked(cfg, Next(cfg, s, evs[0]), evs[1..]);
    }
  }

  lemma OnlyApproveCommitApproves(cfg: Config, db: DB, pc: Pc, e: Env, n: Pk)
    requires Waiting(db, n)
    ensures var t := Step(cfg, db, pc, e);
            n in t.db.enrollments
              && (t.db.enrollments[n].state == Approved ==> pc.ApproveCommit? && pc.a.enrollment == n)
  {
    if !Writes(pc) {
      QueryWritesNothing(cfg, db, pc, e);
    }
  }

  lemma HandsFromInsert(cfg: Config, db: DB, pc: Pc, e: Env, n: Pk)
    requires !Handing(pc, n) && Handing(Step(cfg, db, pc, e).pc, n)
    ensures pc.CreateInsert? && pc.caller.ForEnrollment? && pc.caller.a.enrollment == n
    ensures PersonFits(db, e.pk, pc.callsign)
  {
  }

  lemma OnlyInsertHands(cfg: Config, db: DB, pc: Pc, e: Env, n: Pk)
    requires DbInv(db) && PcInv(db, pc) && Checked(cfg, pc) && n in db.enrollments
    requires !Handing(pc, n) && Handing(Step(cfg, db, pc, e).pc, n)
    ensures Free(cfg, db, n)
  {
    HandsFromInsert(cfg, db, pc, e, n);
  }

  lemma FreeOnlyBefore(cfg: Config, db: DB, later: DB, n: Pk)
    requires n in db.enrollments && Extends(db, later) && Free(cfg, later, n)
    ensures Free(cfg, db, n)
  {
    forall p | p in db.people ensures db.people[p].callsign != db.enrollments[n].callsign {
      assert later.people[p].callsign == db.people[p].callsign;
    }
  }

  lemma NobodyStartsHanding(cfg: Config, s: Sys, ev: Event, n: Pk)
    requires AllChecked(cfg, s) && n in s.db.enrollments && !Approvable(cfg, s, n)
    ensures forall r | r in Next(cfg, s, ev).reqs :: !Handing(Next(cfg, s, ev).reqs[r], n)
  {
    var t := Next(cfg, s, ev);
    forall r | r in t.reqs ensures !Handing(t.reqs[r], n) {
      if ev.Act? && r == ev.id && Handing(t.reqs[r], n) {
        OnlyInsertHands(cfg, s.db, s.reqs[r], ev.e, n);
      }
    }
  }

  lemma WaitingNext(cfg: Config, s: Sys, ev: Event, n: Pk)
    requires Waiting(s.db, n) && forall r | r in s.reqs :: !Handing(s.reqs[r], n)
    ensures Waiting(Next(cfg, s, ev).db, n)
  {
    if ev.Act? && ev.id in s.reqs {
      OnlyApproveCommitApproves(cfg, s.db, s.reqs[ev.id], ev.e, n);
    }
  }

  lemma BarredNext(cfg: Config, s: Sys, ev: Event, n: Pk)
    requires AllChecked(cfg, s) && Waiting(s.db, n) && !Approvable(cfg, s, n)
    ensures var t := Next(cfg, s, ev); Waiting(t.db, n) && !Approvable(cfg, t, n)
  {
    NextKeepsChecked(cfg, s, ev);
    WaitingNext(cfg, s, ev, n);
    NobodyStartsHanding(cfg, s, ev, n);
    if Free(cfg, Next(cfg, s, ev).db, n) {
      FreeOnlyBefore(cfg, s.db, Next(cfg, s, ev).db, n);
    }
  }

  lemma {:induction false} BarredForGood(cfg: Config, s: Sys, evs: seq<Event>, n: Pk)
    requires AllChecked(cfg, s) && Waiting(s.db, n) && !Approvable(cfg, s, n)
    ensures !Approves(cfg, s, evs, n) && n in Run(cfg, s, evs).db.enrollments
    decreases |evs|
  {
    if evs != [] {
      NextKeepsChecked(cfg, s, evs[0]);
      BarredNext(cfg, s, evs[0], n);
      BarredForGood(cfg, Next(cfg, s, evs[0]), evs[1..], n);
    }
  }

  // ---- What is approvable can be approved ----------------------------------------------

  lemma StartsWith(cfg: Config, s: Sys, ev: Event, evs: seq<Event>, n: Pk)
    requires Approves(cfg, Next(cfg, s, ev), evs, n)
    ensures Approves(cfg, s, [ev] + evs, n)
  {
    assert ([ev] + evs)[1..] == evs;
  }

  function After3(cfg: Config, s: Sys, a: Event, b: Event, c: Event): Sys {
    Next(cfg, Next(cfg, Next(cfg, s, a), b), c)
  }

  lemma After3Keeps(cfg: Config, s: Sys, a: Event, b: Event, c: Event)
    requires Inv(s)
    ensures Inv(After3(cfg, s, a, b, c))
  {
    NextKeeps(cfg, s, a);
    NextKeeps(cfg, Next(cfg, s, a), b);
    NextKeeps(cfg, Next(cfg, Next(cfg, s, a), b), c);
  }

  lemma StartsWith3(cfg: Config, s: Sys, a: Event, b: Event, c: Event, evs: seq<Event>, n: Pk)
    requires Approves(cfg, After3(cfg, s, a, b, c), evs, n)
    ensures Approves(cfg, s, [a] + ([b] + ([c] + evs)), n)
  {
    StartsWith(cfg, Next(cfg, Next(cfg, s, a), b), c, evs, n);
    StartsWith(cfg, Next(cfg, s, a), b, [c] + evs, n);
    StartsWith(cfg, s, a, [b] + ([c] + evs), n);
  }

  function Going(hit: Option<Pk>, pk: Pk): Env {
    Env(true, hit, pk, "", 0)
  }

  lemma CommitApproves(cfg: Config, s: Sys, r: nat, n: Pk)
    requires Inv(s) && r in s.reqs && s.reqs[r].ApproveCommit? && s.reqs[r].a.enrollment == n
    ensures Approves(cfg, s, [Act(r, Going(None, 0))], n)
  {
    var pc, act := s.reqs[r], Act(r, Going(None, 0));
    ApprovalSeesNoPerson(s.db, pc.person, pc.a);
    assert Next(cfg, s, act).db.enrollments[n].state == Approved;
    assert [act][1..] == [];
    assert Run(cfg, s, [act]) == Next(cfg, s, act);
  }

  lemma {:induction false} HandingApproves(cfg: Config, s: Sys, r: nat, n: Pk) returns (evs: seq<Event>)
    requires Inv(s) && r in s.reqs && Handing(s.reqs[r], n)
    ensures Approves(cfg, s, evs, n)
    decreases if s.reqs[r].CreateSign? then 2 else if s.reqs[r].CreatePost? then 1 else 0
  {
    var act := Act(r, Going(None, 0));
    if s.reqs[r].ApproveCommit? {
      CommitApproves(cfg, s, r, n);
      evs := [act];
    } else {
      NextKeeps(cfg, s, act);
      var rest := HandingApproves(cfg, Next(cfg, s, act), r, n);
      StartsWith(cfg, s, act, rest, n);
      evs := [act] + rest;
    }
  }

  /** Request r is going to make the person of the enrollment, at the insert or at the checks before. */
  predicate Making(pc: Pc, row: Enrollment, n: Pk) {
    match pc
    case CreateInsert(callsign, caller) =>
      callsign == row.callsign && caller.ForEnrollment? && caller.a.enrollment == n
    case CreateGuard(callsign, csr, caller) =>
      callsign == row.callsign && csr == row.csr && caller.ForEnrollment? && caller.a.enrollment == n
    case _ => false
  }

  lemma InsertApproves(cfg: Config, s: Sys, r: nat, n: Pk) returns (evs: seq<Event>)
    requires Inv(s) && r in s.reqs && n in s.db.enrollments && Free(cfg, s.db, n)
    requires s.reqs[r].CreateInsert? && Making(s.reqs[r], s.db.enrollments[n], n)
    ensures Approves(cfg, s, evs, n)
  {
    var pk := FreshNat(s.db.people.Keys + s.db.dirs);
    var act := Act(r, Going(None, pk));
    NextKeeps(cfg, s, act);
    assert PersonFits(s.db, pk, s.reqs[r].callsign);
    var rest := HandingApproves(cfg, Next(cfg, s, act), r, n);
    StartsWith(cfg, s, act, rest, n);
    evs := [act] + rest;
  }

  lemma GuardApproves(cfg: Config, s: Sys, r: nat, n: Pk, hit: Option<Pk>) returns (evs: seq<Event>)
    requires Inv(s) && r in s.reqs && n in s.db.enrollments && Free(cfg, s.db, n)
    requires s.reqs[r].CreateGuard? && Making(s.reqs[r], s.db.enrollments[n], n)
    requires PersonAnswer(cfg, s.db, s.db.enrollments[n].callsign, hit) && !LivePerson(s.db, hit)
    ensures Approves(cfg, s, evs, n)
  {
    var act := Act(r, Going(hit, 0));
    NextKeeps(cfg, s, act);
    var rest := InsertApproves(cfg, Next(cfg, s, act), r, n);
    StartsWith(cfg, s, act, rest, n);
    evs := [act] + rest;
  }

  lemma RevokeReaches(cfg: Config, s: Sys, id: nat, q: Pk)
    requires id !in s.reqs && q in s.db.people && !s.db.people[q].deleted
    ensures var start := Start(id, RevokeLookup(s.db.people[q].callsign));
            var gone := After3(cfg, s, start, Act(id, Going(Some(q), 0)), Act(id, Going(None, 0)));
            gone == s.(db := WithDeletedPerson(s.db, q), reqs := s.reqs[id := RevokeCert(q)])
  {
    var look := RevokeLookup(s.db.people[q].callsign);
    var s1 := s.(reqs := s.reqs[id := look]);
    var s2 := s.(reqs := s.reqs[id := RevokeCommit(q)]);
    assert Next(cfg, s, Start(id, look)) == s1;
    assert s1.reqs[id := RevokeCommit(q)] == s2.reqs;
    assert Next(cfg, s1, Act(id, Going(Some(q), 0))) == s2;
    assert s2.reqs[id := RevokeCert(q)] == s.reqs[id := RevokeCert(q)];
  }

  /** A live person in the way is revoked first. */
  lemma RevokeThenGuardApproves(cfg: Config, s: Sys, r: nat, n: Pk, q: Pk) returns (evs: seq<Event>)
    requires Inv(s) && r in s.reqs && n in s.db.enrollments && Free(cfg, s.db, n)
    requires s.reqs[r].CreateGuard? && Making(s.reqs[r], s.db.enrollments[n], n)
    requires q in s.db.people && !s.db.people[q].deleted
    requires SameName(cfg, s.db.people[q].callsign, s.db.enrollments[n].callsign)
    ensures Approves(cfg, s, evs, n)
  {
    var id := FreshNat(s.reqs.Keys);
    var start := Start(id, RevokeLookup(s.db.people[q].callsign));
    var find, commit := Act(id, Going(Some(q), 0)), Act(id, Going(None, 0));
    RevokeReaches(cfg, s, id, q);
    After3Keeps(cfg, s, start, find, commit);
    var rest := GuardApproves(cfg, After3(cfg, s, start, find, commit), r, n, Some(q));
    StartsWith3(cfg, s, start, find, commit, rest, n);
    evs := [start] + ([find] + ([commit] + rest));
  }

  lemma MakingApproves(cfg: Config, s: Sys, r: nat, n: Pk) returns (evs: seq<Event>)
    requires Inv(s) && r in s.reqs && n in s.db.enrollments && Free(cfg, s.db, n)
    requires s.reqs[r].CreateGuard? && Making(s.reqs[r], s.db.enrollments[n], n)
    ensures Approves(cfg, s, evs, n)
  {
    var name := s.db.enrollments[n].callsign;
    if q :| q in s.db.people && SameName(cfg, s.db.people[q].callsign, name) {
      if s.db.people[q].deleted {
        evs := GuardApproves(cfg, s, r, n, Some(q));
      } else {
        evs := RevokeThenGuardApproves(cfg, s, r, n, q);
      }
    } else {
      evs := GuardApproves(cfg, s, r, n, None);
    }
  }

  lemma AcceptReaches(cfg: Config, s: Sys, id: nat, n: Pk, p: Pk)
    requires Inv(s) && id !in s.reqs && n in s.db.enrollments && p in s.db.people && !s.db.people[p].deleted
    ensures var row := s.db.enrollments[n];
            var start := Start(id, AcceptActor(s.db.people[p].callsign, row.callsign, row.approvecode));
            var found := After3(cfg, s, start, Act(id, Going(Some(p), 0)), Act(id, Going(Some(n), 0)));
            var create := CreateGuard(row.callsign, row.csr, ForEnrollment(Approval(n, row, p, false)));
            found == s.(reqs := s.reqs[id := create])
  {
    var row := s.db.enrollments[n];
    var actor := AcceptActor(s.db.people[p].callsign, row.callsign, row.approvecode);
    var found := AcceptEnrollment(p, row.callsign, row.approvecode);
    AcceptSteps(cfg, s, n, p);
    var s1, s2 := s.(reqs := s.reqs[id := actor]), s.(reqs := s.reqs[id := found]);
    assert Next(cfg, s, Start(id, actor)) == s1;
    assert s1.reqs[id := found] == s2.reqs;
    assert Next(cfg, s1, Act(id, Going(Some(p), 0))) == s2;
  }

  lemma AcceptSteps(cfg: Config, s: Sys, n: Pk, p: Pk)
    requires Inv(s) && n in s.db.enrollments && p in s.db.people && !s.db.people[p].deleted
    ensures var row := s.db.enrollments[n];
            var found := AcceptEnrollment(p, row.callsign, row.approvecode);
            var create := CreateGuard(row.callsign, row.csr, ForEnrollment(Approval(n, row, p, false)));
            && Step(cfg, s.db, AcceptActor(s.db.people[p].callsign, row.callsign, row.approvecode), Going(Some(p), 0))
               == Turn(s.db, found)
            && Step(cfg, s.db, found, Going(Some(n), 0)) == Turn(s.db, create)
  {
  }

  /** With a live approver around, the accept route gets there. */
  lemma AcceptApproves(cfg: Config, s: Sys, n: Pk, p: Pk) returns (evs: seq<Event>)
    requires Inv(s) && n in s.db.enrollments && Free(cfg, s.db, n)
    requires p in s.db.people && !s.db.people[p].deleted
    ensures Approves(cfg, s, evs, n)
  {
    var id := FreshNat(s.reqs.Keys);
    var row := s.db.enrollments[n];
    var start := Start(id, AcceptActor(s.db.people[p].callsign, row.callsign, row.approvecode));
    var actor, target := Act(id, Going(Some(p), 0)), Act(id, Going(Some(n), 0));
    AcceptReaches(cfg, s, id, n, p);
    After3Keeps(cfg, s, start, actor, target);
    var rest := MakingApproves(cfg, After3(cfg, s, start, actor, target), id, n);
    StartsWith3(cfg, s, start, actor, target, rest, n);
    evs := [start] + ([actor] + ([target] + rest));
  }

  lemma CommandLineReaches(cfg: Config, s: Sys, id: nat, name: string, hit: Option<Pk>, pk: Pk)
    requires id !in s.reqs && NameAllowed(cfg, name, None)
    requires PersonAnswer(cfg, s.db, name, hit) && !LivePerson(s.db, hit)
    requires PersonFits(s.db, pk, name) && pk !in s.db.dirs
    ensures var start := Start(id, CreateGuard(name, None, ForCli(false)));
            var made := After3(cfg, s, start, Act(id, Going(hit, 0)), Act(id, Going(None, pk)));
            made == s.(db := WithPerson(s.db, pk, name), reqs := s.reqs[id := CreateSign(pk, name, ForCli(false))])
  {
    var guard, insert, sign := CreateGuard(name, None, ForCli(false)), CreateInsert(name, ForCli(false)),
      CreateSign(pk, name, ForCli(false));
    var s1 := s.(reqs := s.reqs[id := guard]);
    var s2 := s.(reqs := s.reqs[id := insert]);
    assert Next(cfg, s, Start(id, guard)) == s1;
    assert s1.reqs[id := insert] == s2.reqs;
    assert Next(cfg, s1, Act(id, Going(hit, 0))) == s2;
    assert s2.reqs[id := sign] == s.reqs[id := sign];
  }

  /** With nobody live, some new callsign can be made on the command line. */
  lemma NewApprover(cfg: Config, db: DB, n: Pk) returns (name: string, hit: Option<Pk>, pk: Pk)
    requires n in db.enrollments && forall p | p in db.people :: db.people[p].deleted
    ensures NameAllowed(cfg, name, None) && name != db.enrollments[n].callsign
    ensures PersonAnswer(cfg, db, name, hit) && !LivePerson(db, hit)
    ensures PersonFits(db, pk, name) && pk !in db.dirs
  {
    var callsigns := set p | p in db.people :: db.people[p].callsign;
    name := FreshString(callsigns + cfg.productCns + {cfg.serviceCn, db.enrollments[n].callsign});
    assert forall p | p in db.people :: db.people[p].callsign in callsigns;
    hit := None;
    if p :| p in db.people && SameName(cfg, db.people[p].callsign, name) {
      hit := Some(p);
    }
    pk := FreshNat(db.people.Keys + db.dirs);
  }

  lemma MadeApproverLeavesFree(cfg: Config, db: DB, n: Pk, name: string, pk: Pk)
    requires n in db.enrollments && Free(cfg, db, n) && name != db.enrollments[n].callsign
    ensures Free(cfg, WithPerson(db, pk, name), n)
  {
  }

  /** With nobody live, an approver is made on the command line first. */
  lemma MakeApproverThenAccept(cfg: Config, s: Sys, n: Pk) returns (evs: seq<Event>)
    requires Inv(s) && n in s.db.enrollments && Free(cfg, s.db, n)
    requires forall p | p in s.db.people :: s.db.people[p].deleted
    ensures Approves(cfg, s, evs, n)
  {
    var name, hit, pk := NewApprover(cfg, s.db, n);
    var id := FreshNat(s.reqs.Keys);
    var start := Start(id, CreateGuard(name, None, ForCli(false)));
    var look, insert := Act(id, Going(hit, 0)), Act(id, Going(None, pk));
    CommandLineReaches(cfg, s, id, name, hit, pk);
    MadeApproverLeavesFree(cfg, s.db, n, name, pk);
    After3Keeps(cfg, s, start, look, insert);
    var rest := AcceptApproves(cfg, After3(cfg, s, start, look, insert), n, pk);
    StartsWith3(cfg, s, start, look, insert, rest, n);
    evs := [start] + ([look] + ([insert] + rest));
  }

  // ---- Main results --------------------------------------------------------------------

  /** From any reachable state, some continuation approves an enrollment that is not approved exactly
      when a request has made its person and is handing it over, or its callsign and CSR are allowed
      and no person row, live or deleted, has exactly that callsign. */
  lemma ApprovableIff(cfg: Config, evs: seq<Event>, n: Pk)
    requires Waiting(Run(cfg, IDLE, evs).db, n)
    ensures var s := Run(cfg, IDLE, evs);
            (exists more :: Approves(cfg, s, more, n)) <==> Approvable(cfg, s, n)
  {
    RunKeepsChecked(cfg, IDLE, evs);
    var s := Run(cfg, IDLE, evs);
    if !Approvable(cfg, s, n) {
      forall more ensures !Approves(cfg, s, more, n) {
        BarredForGood(cfg, s, more, n);
      }
    } else if !Free(cfg, s.db, n) {
      var r :| r in s.reqs && Handing(s.reqs[r], n);
      var more := HandingApproves(cfg, s, r, n);
    } else if p :| p in s.db.people && !s.db.people[p].deleted {
      var more := AcceptApproves(cfg, s, n, p);
    } else {
      var more := MakeApproverThenAccept(cfg, s, n);
    }
  }

  lemma {:induction false} RunConcat(cfg: Config, s: Sys, evs: seq<Event>, more: seq<Event>)
    ensures Run(cfg, s, evs + more) == Run(cfg, Run(cfg, s, evs), more)
    decreases |evs|
  {
    if evs == [] {
      assert evs + more == more;
    } else {
      RunConcat(cfg, Next(cfg, s, evs[0]), evs[1..], more);
      assert (evs + more)[1..] == evs[1..] + more;
    }
  }

  /** The person row of the callsign is owned by one request only. */
  lemma OneHander(s: Sys, r: nat, q: nat, n: Pk)
    requires Inv(s) && r in s.reqs && q in s.reqs && Handing(s.reqs[r], n) && Handing(s.reqs[q], n)
    ensures r == q
  {
    assert Owned(s.reqs[r]) == Owned(s.reqs[q]);
  }

  lemma LostIsBarred(cfg: Config, s: Sys, id: nat, ev: Event)
    requires Inv(s) && id in s.reqs && PastInsert(s.reqs[id])
    requires ev == Crash(id) || (ev.Act? && ev.id == id && !ev.e.ok)
    ensures var n, t := ApprovalOf(s.reqs[id]).enrollment, Next(cfg, s, ev);
            && Waiting(t.db, n) && !Approvable(cfg, t, n)
            && Owned(s.reqs[id]).value in s.db.people
  {
    var n, p := ApprovalOf(s.reqs[id]).enrollment, Owned(s.reqs[id]).value;
    CallsignNamesPerson(s.db, n, p);
    forall r | r in s.reqs && Handing(s.reqs[r], n) ensures r == id {
      OneHander(s, r, id, n);
    }
  }

  /** So an approval that fails or crashes after its person row was committed leaves the row, and
      the enrollment can never become approved, whatever is done later. */
  lemma FailedApprovalIsFinal(cfg: Config, evs: seq<Event>, id: nat, ev: Event, later: seq<Event>)
    requires var s := Run(cfg, IDLE, evs);
             && id in s.reqs && PastInsert(s.reqs[id])
             && (ev == Crash(id) || (ev.Act? && ev.id == id && !ev.e.ok))
    ensures var s := Run(cfg, IDLE, evs);
            var end := Run(cfg, Next(cfg, s, ev), later);
            var n := ApprovalOf(s.reqs[id]).enrollment;
            && Owned(s.reqs[id]).value in end.db.people
            && n in end.db.enrollments && end.db.enrollments[n].state != Approved
  {
    RunKeeps(cfg, IDLE, evs);
    var s := Run(cfg, IDLE, evs);
    var t, n := Next(cfg, s, ev), ApprovalOf(s.reqs[id]).enrollment;
    LostIsBarred(cfg, s, id, ev);
    NextKeeps(cfg, s, ev);
    RunKeeps(cfg, t, later);
    RunConcat(cfg, IDLE, evs, [ev]);
    assert [ev][1..] == [];
    assert Run(cfg, IDLE, evs + [ev]) == t;
    ApprovableIff(cfg, evs + [ev], n);
    assert !Approves(cfg, t, later, n);
  }
}
