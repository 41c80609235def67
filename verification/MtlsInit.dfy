/** mtls_init: the key pair, the CSR and the certificate RASENMAEHER itself uses, made once by any
    number of workers that may crash and be restarted at any point. */
module MtlsInit {
  import opened Wrappers
  import L = LockProtocol

  /** A file's content is the identity of the key pair it belongs to; signing keeps it. */
  type KeyId = nat

  datatype End = Fine | SignFailed | Failed

  /** `CertCheck(mem)` carries the CSR this worker still has in memory. */
  datatype Pc =
    | Check | Acquire | Locked | MakeKey | MakeCsr(key: KeyId) | CertCheck(mem: Option<KeyId>)
    | ReadCsr | Sign(csr: KeyId) | WriteCert(cert: KeyId) | Release(end: End)
    | Returned(signFailed: bool) | Raised | Gone

  datatype Sys = Sys(
    key: Option<KeyId>, csr: Option<KeyId>, cert: Option<KeyId>,
    holder: Option<nat>, procs: seq<Pc>, timeouts: nat, steps: nat)

  datatype Signing = Signed | CertError | OtherError

  datatype Env = Env(ok: bool, signing: Signing, key: KeyId)

  datatype Event = Act(w: nat, e: Env) | Crash(w: nat) | Spawn

  function Start(n: nat): Sys {
    Sys(None, None, None, None, seq(n, i => Check), 0, 0)
  }

  predicate Done(pc: Pc) {
    pc.Returned? || pc.Raised? || pc.Gone?
  }

  function AfterRelease(end: End): Pc {
    match end
    case Fine => Returned(false)
    case SignFailed => Returned(true)
    case Failed => Raised
  }

  function Goes(s: Sys, pc: Pc, e: Env): Pc {
    match pc
    case Check => if s.cert.Some? && s.key.Some? then Returned(false) else Acquire
    case Acquire => if s.holder.None? then Locked else Check
    case Locked => if s.key.None? then MakeKey else CertCheck(None)
    case MakeKey => if e.ok then MakeCsr(e.key) else Release(Failed)
    case MakeCsr(k) => if e.ok then CertCheck(Some(k)) else Release(Failed)
    case CertCheck(mem) => if s.cert.Some? then Release(Fine) else if mem.Some? then Sign(mem.value) else ReadCsr
    case ReadCsr => if s.csr.Some? then Sign(s.csr.value) else Release(Failed)
    case Sign(k) =>
      if e.signing.Signed? then WriteCert(k) else if e.signing.CertError? then Release(SignFailed) else Release(Failed)
    case WriteCert(k) => if e.ok then Release(Fine) else Release(Failed)
    case Release(end) => AfterRelease(end)
    case _ => pc
  }

  function Effect(s: Sys, w: nat, pc: Pc, e: Env): Sys {
    match pc
    case Acquire => if s.holder.None? then s.(holder := Some(w)) else s.(timeouts := s.timeouts + 1)
    case MakeKey => if e.ok then s.(key := Some(e.key)) else s
    case MakeCsr(k) => if e.ok then s.(csr := Some(k)) else s
    case WriteCert(k) => if e.ok then s.(cert := Some(k)) else s
    case Release(_) => s.(holder := None)
    case _ => s
  }

  function Next(s: Sys, ev: Event): Sys {
    match ev
    case Spawn => s.(procs := s.procs + [Check])
    case Crash(w) =>
      if w >= |s.procs| then s
      else s.(procs := s.procs[w := Gone], holder := if s.holder == Some(w) then None else s.holder)
    case Act(w, e) =>
      if w >= |s.procs| || Done(s.procs[w]) then s
      else
        var pc := s.procs[w];
        Effect(s, w, pc, e).(procs := s.procs[w := Goes(s, pc, e)], steps := s.steps + 1)
  }

  function Run(s: Sys, evs: seq<Event>): Sys {
    if evs == [] then s else Next(Run(s, evs[..|evs| - 1]), evs[|evs| - 1])
  }

  lemma RunSnoc(s: Sys, evs: seq<Event>, ev: Event)
    ensures Run(s, evs + [ev]) == Next(Run(s, evs), ev)
  {
    assert (evs + [ev])[..|evs|] == evs;
  }

  lemma {:induction false} RunConcat(s: Sys, evs: seq<Event>, more: seq<Event>)
    ensures Run(s, evs + more) == Run(Run(s, evs), more)
  {
    if more == [] {
      assert evs + more == evs;
    } else {
      var init, last := more[..|more| - 1], more[|more| - 1];
      RunConcat(s, evs, init);
      RunSnoc(s, evs + init, last);
      assert evs + more == evs + init + [last];
    }
  }

  // ---- The invariant -------------------------------------------------------------------

  predicate Critical(pc: Pc) {
    !(pc.Check? || pc.Acquire? || Done(pc))
  }

  /** The files of one key pair, in the order they are made. */
  predicate FilesInOrder(s: Sys) {
    && (s.cert.Some? ==> s.csr == s.cert)
    && (s.csr.Some? ==> s.key == s.csr)
  }

  predicate PcOk(s: Sys, pc: Pc) {
    match pc
    case MakeKey => s.key.None?
    case MakeCsr(k) => s.key == Some(k) && s.csr.None?
    case CertCheck(mem) => s.key.Some? && (mem.Some? ==> s.csr == mem)
    case ReadCsr => s.key.Some? && s.cert.None?
    case Sign(k) => s.csr == Some(k) && s.cert.None?
    case WriteCert(k) => s.csr == Some(k) && s.cert.None?
    case Release(end) => (end.Fine? ==> s.cert.Some?) && (end.SignFailed? ==> s.csr.Some?)
    case Returned(signFailed) => s.csr.Some? && (!signFailed ==> s.cert.Some?)
    case _ => true
  }

  ghost predicate Inv(s: Sys) {
    && FilesInOrder(s)
    && (forall w | 0 <= w < |s.procs| :: (Critical(s.procs[w]) <==> s.holder == Some(w)) && PcOk(s, s.procs[w]))
    && (s.holder.Some? ==> s.holder.value < |s.procs|)
  }

  /** Files are only ever added. */
  predicate Kept(s: Sys, later: Sys) {
    && (s.key.Some? ==> later.key == s.key)
    && (s.csr.Some? ==> later.csr == s.csr)
    && (s.cert.Some? ==> later.cert == s.cert)
  }

  lemma EffectKeeps(s: Sys, w: nat, e: Env)
    requires Inv(s) && w < |s.procs| && !Done(s.procs[w])
    ensures var t := Next(s, Act(w, e));
            && FilesInOrder(t) && Kept(s, t) && PcOk(t, t.procs[w])
            && (Critical(t.procs[w]) <==> t.holder == Some(w))
            && (s.holder != Some(w) ==> t.key == s.key && t.csr == s.csr && t.cert == s.cert)
            && (t.holder != s.holder ==> t.holder == Some(w) || s.holder == Some(w))
  {
  }

  lemma NextKeeps(s: Sys, ev: Event)
    requires Inv(s)
    ensures Inv(Next(s, ev)) && Kept(s, Next(s, ev))
  {
    if ev.Act? && ev.w < |s.procs| && !Done(s.procs[ev.w]) {
      EffectKeeps(s, ev.w, ev.e);
      var t := Next(s, ev);
      forall v | 0 <= v < |s.procs| && v != ev.w
        ensures (Critical(t.procs[v]) <==> t.holder == Some(v)) && PcOk(t, t.procs[v])
      {
        assert t.procs[v] == s.procs[v];
      }
    }
  }

  lemma {:induction false} RunKeeps(s: Sys, evs: seq<Event>)
    requires Inv(s)
    ensures Inv(Run(s, evs)) && Kept(s, Run(s, evs))
  {
    if evs != [] {
      RunKeeps(s, evs[..|evs| - 1]);
      NextKeeps(Run(s, evs[..|evs| - 1]), evs[|evs| - 1]);
    }
  }

  // ---- Main results --------------------------------------------------------------------

  /** From empty directories, whatever the interleaving, crashes and restarts: a certificate implies
      the CSR, the CSR implies the key, all of one key pair; never are two workers inside the lock;
      a normal return leaves the key, and the certificate too unless signing raised CertError. */
  lemma BootstrapIsConsistent(n: nat, evs: seq<Event>)
    ensures var s := Run(Start(n), evs);
            && FilesInOrder(s)
            && (forall v, w | 0 <= v < |s.procs| && 0 <= w < |s.procs| && Critical(s.procs[v])
                && Critical(s.procs[w]) :: v == w)
            && (forall w | 0 <= w < |s.procs| && s.procs[w].Returned? ::
                  s.key.Some? && (!s.procs[w].signFailed ==> s.cert.Some?))
  {
    RunKeeps(Start(n), evs);
  }

  /** No file is ever overwritten. */
  lemma FilesAreNeverOverwritten(n: nat, evs: seq<Event>, more: seq<Event>)
    ensures Kept(Run(Start(n), evs), Run(Run(Start(n), evs), more))
  {
    RunKeeps(Start(n), evs);
    RunKeeps(Run(Start(n), evs), more);
  }

  /** The key is there, the CSR is not, and no worker is about to write it. */
  predicate Stuck(s: Sys) {
    s.key.Some? && s.csr.None? && forall w | 0 <= w < |s.procs| :: !s.procs[w].MakeCsr?
  }

  lemma {:induction false} StuckStays(s: Sys, evs: seq<Event>)
    requires Inv(s) && Stuck(s)
    ensures Inv(Run(s, evs)) && Stuck(Run(s, evs)) && Run(s, evs).cert.None?
    ensures forall w | 0 <= w < |Run(s, evs).procs| :: !Run(s, evs).procs[w].Returned?
  {
    if evs != [] {
      StuckStays(s, evs[..|evs| - 1]);
      NextKeeps(Run(s, evs[..|evs| - 1]), evs[|evs| - 1]);
    }
  }

  /** A worker lost between writing the key and writing the CSR is fatal: from then on no worker,
      restarted or not, ever returns normally or makes a certificate. */
  lemma LostBetweenKeyAndCsr(n: nat, evs: seq<Event>, w: nat, ev: Event, more: seq<Event>)
    requires var s := Run(Start(n), evs); w < |s.procs| && s.procs[w].MakeCsr?
    requires ev == Crash(w) || (ev.Act? && ev.w == w && !ev.e.ok)
    ensures var end := Run(Next(Run(Start(n), evs), ev), more);
            end.cert.None? && forall v | 0 <= v < |end.procs| :: !end.procs[v].Returned?
  {
    RunKeeps(Start(n), evs);
    var s := Run(Start(n), evs);
    NextKeeps(s, ev);
    StuckStays(Next(s, ev), more);
  }

  /** The first worker ever, up to the CSR. */
  lemma UpToCsr(e: Env) returns (evs: seq<Event>)
    requires e.ok
    ensures Run(Start(1), evs) == Sys(Some(e.key), None, None, Some(0), [MakeCsr(e.key)], 0, 4)
  {
    var act := Act(0, e);
    var s := Start(1);
    evs := [];
    assert s.procs == [Check];
    RunSnoc(Start(1), evs, act);
    evs, s := evs + [act], s.(procs := [Acquire], steps := 1);
    RunSnoc(Start(1), evs, act);
    evs, s := evs + [act], s.(procs := [Locked], holder := Some(0), steps := 2);
    RunSnoc(Start(1), evs, act);
    evs, s := evs + [act], s.(procs := [MakeKey], steps := 3);
    RunSnoc(Start(1), evs, act);
    evs := evs + [act];
  }

  /** Lost there, it leaves every later worker stuck. */
  lemma StuckIsReachable(e: Env) returns (evs: seq<Event>)
    requires e.ok
    ensures var s := Run(Start(1), evs);
            s.key.Some? && s.csr.None? && s.holder.None? && forall more :: Run(s, more).cert.None?
  {
    var before := UpToCsr(e);
    RunSnoc(Start(1), before, Crash(0));
    evs := before + [Crash(0)];
    forall more ensures Run(Run(Start(1), evs), more).cert.None? {
      LostBetweenKeyAndCsr(1, before, 0, Crash(0), more);
    }
  }

  function Alone(w: nat, e: Env, n: nat): seq<Event> {
    if n == 0 then [] else [Act(w, e)] + Alone(w, e, n - 1)
  }

  predicate HeadingHome(s: Sys, pc: Pc) {
    && !pc.Raised? && !pc.Gone? && (pc.Release? ==> pc.end.Fine?)
    && (pc.Returned? ==> !pc.signFailed)
    && (pc.ReadCsr? ==> s.csr.Some?)
  }

  /** What a worker needs to finish when nobody else moves. */
  ghost predicate CanFinish(s: Sys, w: nat) {
    && Inv(s) && w < |s.procs| && HeadingHome(s, s.procs[w])
    && (s.holder.None? || s.holder == Some(w))
    && (s.key.None? || s.csr.Some? || s.procs[w].MakeCsr?)
  }

  lemma AloneUnfolds(s: Sys, w: nat, e: Env, n: nat)
    requires n > 0
    ensures Run(s, Alone(w, e, n)) == Run(Next(s, Act(w, e)), Alone(w, e, n - 1))
  {
    RunConcat(s, [Act(w, e)], Alone(w, e, n - 1));
    RunSnoc(s, [], Act(w, e));
    assert [] + [Act(w, e)] == [Act(w, e)];
  }

  lemma AloneStep(s: Sys, w: nat, e: Env)
    requires CanFinish(s, w) && e.ok && e.signing.Signed?
    ensures var t := Next(s, Act(w, e));
            CanFinish(t, w) && |t.procs| == |s.procs|
            && (Fuel(t.procs[w]) < Fuel(s.procs[w]) || (t == s && Fuel(s.procs[w]) == 0))
  {
    NextKeeps(s, Act(w, e));
  }

  lemma {:induction false} AloneFinishes(s: Sys, w: nat, e: Env, n: nat)
    requires CanFinish(s, w) && e.ok && e.signing.Signed? && n >= Fuel(s.procs[w])
    ensures var end := Run(s, Alone(w, e, n));
            CanFinish(end, w) && |end.procs| == |s.procs| && Fuel(end.procs[w]) == 0
    decreases n
  {
    if n > 0 {
      AloneStep(s, w, e);
      AloneFinishes(Next(s, Act(w, e)), w, e, n - 1);
      AloneUnfolds(s, w, e, n);
    }
  }

  function Fuel(pc: Pc): nat {
    match pc
    case Check => 10
    case Acquire => 9
    case Locked => 8
    case MakeKey => 7
    case MakeCsr(_) => 6
    case CertCheck(_) => 5
    case ReadCsr => 4
    case Sign(_) => 3
    case WriteCert(_) => 2
    case Release(_) => 1
    case _ => 0
  }

  lemma {:induction false} AloneSpawnsNobody(s: Sys, w: nat, e: Env, n: nat)
    ensures |Run(s, Alone(w, e, n)).procs| == |s.procs|
    decreases n
  {
    if n > 0 {
      AloneUnfolds(s, w, e, n);
      AloneSpawnsNobody(Next(s, Act(w, e)), w, e, n - 1);
    }
  }

  lemma StuckSpoilsTheNext(s: Sys, e: Env)
    requires Inv(s) && s.holder.None? && s.key.Some? && s.csr.None?
    ensures var end := Run(Next(s, Spawn), Alone(|s.procs|, e, 10));
            |end.procs| == |s.procs| + 1 && !end.procs[|s.procs|].Returned?
  {
    NextKeeps(s, Spawn);
    assert forall w | 0 <= w < |s.procs| :: !Critical(s.procs[w]);
    StuckStays(Next(s, Spawn), Alone(|s.procs|, e, 10));
    AloneSpawnsNobody(Next(s, Spawn), |s.procs|, e, 10);
  }

  lemma NextOneFinishes(s: Sys, e: Env)
    requires Inv(s) && s.holder.None? && (s.key.None? || s.csr.Some?)
    requires e.ok && e.signing.Signed?
    ensures var end := Run(Next(s, Spawn), Alone(|s.procs|, e, 10));
            |end.procs| == |s.procs| + 1 && end.procs[|s.procs|] == Returned(false) && end.cert.Some?
  {
    NextKeeps(s, Spawn);
    AloneFinishes(Next(s, Spawn), |s.procs|, e, 10);
  }

  /** In any reachable state where the lock is free, a worker started then and left alone with
      working services returns normally with the certificate in place exactly when the key without
      a CSR is not what it finds. */
  lemma RecoversIffNotStuck(n: nat, evs: seq<Event>, e: Env)
    requires Run(Start(n), evs).holder.None? && e.ok && e.signing.Signed?
    ensures var s := Run(Start(n), evs);
            var w := |s.procs|;
            var end := Run(Next(s, Spawn), Alone(w, e, 10));
            && |end.procs| == w + 1
            && ((end.procs[w] == Returned(false) && end.cert.Some?) <==> !(s.key.Some? && s.csr.None?))
  {
    RunKeeps(Start(n), evs);
    var s := Run(Start(n), evs);
    if s.key.Some? && s.csr.None? {
      StuckSpoilsTheNext(s, e);
    } else {
      NextOneFinishes(s, e);
    }
  }

  const WORKING := Env(true, Signed, 0)

  ghost predicate Certifies(s: Sys, evs: seq<Event>) {
    Run(s, evs).cert.Some?
  }

  lemma CertifiesAfter(s: Sys, evs: seq<Event>, more: seq<Event>)
    requires Certifies(Run(s, evs), more)
    ensures Certifies(s, evs + more)
  {
    RunConcat(s, evs, more);
  }

  lemma WriterCertifies(s: Sys, w: nat)
    requires Inv(s) && w < |s.procs| && s.procs[w].MakeCsr?
    ensures Certifies(s, Alone(w, WORKING, 10))
  {
    AloneFinishes(s, w, WORKING, 10);
  }

  lemma NextOneCertifies(s: Sys) returns (evs: seq<Event>)
    requires Inv(s) && (s.key.None? || s.csr.Some?)
    ensures Certifies(s, evs)
  {
    var t, lost := s, [];
    if s.holder.Some? {
      lost := [Crash(s.holder.value)];
      RunSnoc(s, [], lost[0]);
      assert [] + [lost[0]] == lost;
      NextKeeps(s, lost[0]);
      t := Next(s, lost[0]);
    }
    NextOneFinishes(t, WORKING);
    var rest := Alone(|t.procs|, WORKING, 10);
    RunSnoc(t, [], Spawn);
    assert [] + [Spawn] == [Spawn];
    assert Certifies(Run(t, [Spawn]), rest);
    CertifiesAfter(t, [Spawn], rest);
    CertifiesAfter(s, lost, [Spawn] + rest);
    evs := lost + ([Spawn] + rest);
  }

  /** From any reachable state, with workers that may be started, lost and restarted at will, some
      continuation has a certificate exactly when it is not stuck: a key without a CSR and nobody
      about to write that. */
  lemma CertificateLaterIff(n: nat, evs: seq<Event>)
    ensures var s := Run(Start(n), evs);
            (exists more :: Certifies(s, more)) <==> !Stuck(s)
  {
    RunKeeps(Start(n), evs);
    var s := Run(Start(n), evs);
    if Stuck(s) {
      forall more ensures !Certifies(s, more) {
        StuckStays(s, more);
      }
    } else if s.key.Some? && s.csr.None? {
      var w :| 0 <= w < |s.procs| && s.procs[w].MakeCsr?;
      WriterCertifies(s, w);
    } else {
      var more := NextOneCertifies(s);
    }
  }

  // ---- Bounded work --------------------------------------------------------------------

  function Ranks(procs: seq<Pc>): seq<nat> {
    seq(|procs|, i requires 0 <= i < |procs| => Fuel(procs[i]))
  }

  ghost function Debt(s: Sys): int {
    s.steps + L.Total(Ranks(s.procs)) - 2 * s.timeouts - 10 * |s.procs|
  }

  lemma StepCosts(s: Sys, ev: Event)
    requires !ev.Spawn? && ev.w < |s.procs|
    ensures var t := Next(s, ev);
            && t.procs == s.procs[ev.w := t.procs[ev.w]]
            && t.steps + Fuel(t.procs[ev.w]) - 2 * t.timeouts <= s.steps + Fuel(s.procs[ev.w]) - 2 * s.timeouts
  {
  }

  lemma NextCosts(s: Sys, ev: Event)
    ensures Debt(Next(s, ev)) <= Debt(s)
  {
    var t := Next(s, ev);
    if ev.Spawn? {
      assert Ranks(t.procs) == Ranks(s.procs) + [10];
      L.TotalSnoc(Ranks(s.procs), 10);
    } else if ev.w < |s.procs| {
      StepCosts(s, ev);
      assert Ranks(t.procs) == Ranks(s.procs)[ev.w := Fuel(t.procs[ev.w])];
      L.TotalUpdate(Ranks(s.procs), ev.w, Fuel(t.procs[ev.w]));
    }
  }

  lemma {:induction false} RunCosts(s: Sys, evs: seq<Event>)
    ensures Debt(Run(s, evs)) <= Debt(s)
  {
    if evs != [] {
      RunCosts(s, evs[..|evs| - 1]);
      NextCosts(Run(s, evs[..|evs| - 1]), evs[|evs| - 1]);
    }
  }

  /** All workers together, restarted ones included, take at most ten steps each plus two for every
      timeout. */
  lemma StepsAreBounded(n: nat, evs: seq<Event>)
    ensures var s := Run(Start(n), evs); s.steps <= 10 * |s.procs| + 2 * s.timeouts
  {
    RunCosts(Start(n), evs);
    assert Ranks(Start(n).procs) == seq(n, i => 10);
    L.TotalConstant(n, 10);
  }

  // ---- The function itself -------------------------------------------------------------

  datatype Outcome = ReturnedNormally(signFailed: bool) | RaisedError | StillWaiting

  /** The shared directory and lock file, as one worker running mtls_init sees them. `trace` records
      every step, this worker's and the others'. */
  class Host {
    var key: Option<KeyId>
    var csr: Option<KeyId>
    var cert: Option<KeyId>
    var holder: Option<nat>
    var procs: seq<Pc>
    var timeouts: nat
    var steps: nat
    ghost const origin: Sys
    ghost var trace: seq<Event>

    function State(): Sys
      reads this
    {
      Sys(key, csr, cert, holder, procs, timeouts, steps)
    }

    /** The files are what the recorded run of all the workers has made of them. */
    ghost predicate Valid()
      reads this
    {
      State() == Run(origin, trace)
    }

    constructor (n: nat)
      ensures Valid() && State() == Start(n) && origin == Start(n)
    {
      key, csr, cert, holder := None, None, None, None;
      procs, timeouts, steps := seq(n, i => Check), 0, 0;
      origin, trace := Start(n), [];
    }

    /** Other workers run while this one is suspended. */
    method Others(w: nat, evs: seq<Event>)
      requires Valid() && w < |procs| && forall i | 0 <= i < |evs| :: Foreign(evs[i], w)
      modifies this
      ensures Valid() && trace == old(trace) + evs
      ensures w < |procs| && procs[w] == old(procs)[w] && timeouts >= old(timeouts)
    {
      ForeignKeeps(State(), w, evs);
      RunConcat(origin, trace, evs);
      var t := Run(State(), evs);
      key, csr, cert, holder := t.key, t.csr, t.cert, t.holder;
      procs, timeouts, steps := t.procs, t.timeouts, t.steps;
      trace := trace + evs;
    }

    /** This worker gets to its next step; `e` is what the environment did in the last one. */
    method Move(w: nat, pc: Pc, ghost before: Sys, ghost e: Env)
      requires w < |procs| && !Done(procs[w]) && before == Run(origin, trace)
      requires before.procs == procs && before.steps == steps
      requires pc == Goes(before, procs[w], e) && State() == Effect(before, w, procs[w], e)
      modifies this`procs, this`steps, this`trace
      ensures Valid() && procs == old(procs)[w := pc] && trace == old(trace) + [Act(w, e)]
    {
      RunSnoc(origin, trace, Act(w, e));
      procs, steps, trace := procs[w := pc], steps + 1, trace + [Act(w, e)];
    }

    /** Writes the key and then the CSR, which it keeps in memory. */
    method MakeKeyAndCsr(w: nat, env: nat -> Env, others: nat -> seq<Event>) returns (csrpem: Option<KeyId>)
      requires Valid() && w < |procs| && procs[w] == MakeKey
      requires forall k, i | 0 <= i < |others(k)| :: Foreign(others(k)[i], w)
      modifies this
      ensures Valid() && w < |procs| && old(trace) <= trace
      ensures procs[w] == if csrpem.Some? then CertCheck(csrpem) else Release(Failed)
    {
      ghost var s := State();
      if !env(1).ok {
        Move(w, Release(Failed), s, env(1));
        return None;
      }
      key := Some(env(1).key);
      Move(w, MakeCsr(env(1).key), s, env(1));
      Others(w, others(1));
      csrpem := WriteCsr(w, env(1).key, env(2));
    }

    method WriteCsr(w: nat, keyId: KeyId, e: Env) returns (csrpem: Option<KeyId>)
      requires Valid() && w < |procs| && procs[w] == MakeCsr(keyId)
      modifies this
      ensures Valid() && w < |procs| && old(trace) <= trace
      ensures procs[w] == if csrpem.Some? then CertCheck(csrpem) else Release(Failed)
    {
      ghost var s := State();
      if e.ok {
        csr, csrpem := Some(keyId), Some(keyId);
      } else {
        csrpem := None;
      }
      Move(w, if csrpem.Some? then CertCheck(csrpem) else Release(Failed), s, e);
    }

    /** The body of the try block, from the re-check of the key on. `env` and `others` give what
        happens in, and between, the steps. */
    method Guarded(w: nat, env: nat -> Env, others: nat -> seq<Event>) returns (end: End)
      requires Valid() && w < |procs| && procs[w] == Locked
      requires forall k, i | 0 <= i < |others(k)| :: Foreign(others(k)[i], w)
      modifies this
      ensures Valid() && w < |procs| && procs[w] == Release(end) && old(trace) <= trace
      ensures end.SignFailed? ==> env(5).signing.CertError?
    {
      var csrpem: Option<KeyId> := None;
      if key.None? {
        Move(w, MakeKey, State(), env(0));
        Others(w, others(0));
        csrpem := MakeKeyAndCsr(w, env, others);
        if csrpem.None? {
          return Failed;
        }
      } else {
        Move(w, CertCheck(None), State(), env(0));
      }
      Others(w, others(2));
      end := EnsureCert(w, csrpem, env, others);
    }

    /** The CSR comes from memory or else from its file. */
    method FindCsr(w: nat, mem: Option<KeyId>, env: nat -> Env, others: nat -> seq<Event>)
      returns (csrpem: Option<KeyId>)
      requires Valid() && w < |procs| && procs[w] == CertCheck(mem) && cert.None?
      requires forall k, i | 0 <= i < |others(k)| :: Foreign(others(k)[i], w)
      modifies this
      ensures Valid() && w < |procs| && old(trace) <= trace
      ensures procs[w] == if csrpem.Some? then Sign(csrpem.value) else Release(Failed)
    {
      csrpem := mem;
      if csrpem.Some? {
        Move(w, Sign(csrpem.value), State(), env(3));
        return;
      }
      Move(w, ReadCsr, State(), env(3));
      Others(w, others(3));
      csrpem := LoadCsr(w, env(4));
    }

    method LoadCsr(w: nat, ghost e: Env) returns (csrpem: Option<KeyId>)
      requires Valid() && w < |procs| && procs[w] == ReadCsr
      modifies this`procs, this`steps, this`trace
      ensures Valid() && w < |procs| && trace == old(trace) + [Act(w, e)]
      ensures procs[w] == if csrpem.Some? then Sign(csrpem.value) else Release(Failed)
    {
      csrpem := csr;
      var pc := if csrpem.Some? then Sign(csrpem.value) else Release(Failed);
      Move(w, pc, State(), e);
    }

    /** From the check for a certificate on. */
    method EnsureCert(w: nat, mem: Option<KeyId>, env: nat -> Env, others: nat -> seq<Event>) returns (end: End)
      requires Valid() && w < |procs| && procs[w] == CertCheck(mem)
      requires forall k, i | 0 <= i < |others(k)| :: Foreign(others(k)[i], w)
      modifies this
      ensures Valid() && w < |procs| && procs[w] == Release(end) && old(trace) <= trace
      ensures end.SignFailed? ==> env(5).signing.CertError?
    {
      if cert.Some? {
        Move(w, Release(Fine), State(), env(3));
        return Fine;
      }
      var csrpem := FindCsr(w, mem, env, others);
      if csrpem.None? {
        return Failed;
      }
      Others(w, others(4));
      end := SignAndSave(w, csrpem.value, env, others);
    }

    method SignAndSave(w: nat, csrpem: KeyId, env: nat -> Env, others: nat -> seq<Event>) returns (end: End)
      requires Valid() && w < |procs| && procs[w] == Sign(csrpem)
      requires forall k, i | 0 <= i < |others(k)| :: Foreign(others(k)[i], w)
      modifies this
      ensures Valid() && w < |procs| && procs[w] == Release(end) && old(trace) <= trace
      ensures end.SignFailed? ==> env(5).signing.CertError?
    {
      if !env(5).signing.Signed? {
        end := if env(5).signing.CertError? then SignFailed else Failed;
        Move(w, Release(end), State(), env(5));
        return;
      }
      Move(w, WriteCert(csrpem), State(), env(5));
      Others(w, others(5));
      end := SaveCert(w, csrpem, env(6));
    }

    method SaveCert(w: nat, signed: KeyId, e: Env) returns (end: End)
      requires Valid() && w < |procs| && procs[w] == WriteCert(signed)
      modifies this
      ensures Valid() && w < |procs| && procs[w] == Release(end) && old(trace) <= trace
      ensures end == (if e.ok then Fine else Failed) && (e.ok ==> cert == Some(signed))
    {
      ghost var s := State();
      if e.ok {
        cert, end := Some(signed), Fine;
      } else {
        end := Failed;
      }
      Move(w, Release(end), s, e);
    }

    /** Tries the lock once, without waiting. */
    method TryLock(w: nat, env: nat -> Env, others: nat -> seq<Event>) returns (got: bool)
      requires Valid() && w < |procs| && procs[w] == Acquire
      requires forall k, i | 0 <= i < |others(k)| :: Foreign(others(k)[i], w)
      modifies this
      ensures Valid() && w < |procs| && procs[w] == (if got then Locked else Check) && old(trace) <= trace
      ensures !got ==> timeouts > old(timeouts)
    {
      ghost var s := State();
      got := holder.None?;
      if got {
        holder := Some(w);
        Move(w, Locked, s, env(11));
      } else {
        timeouts := timeouts + 1;
        Move(w, Check, s, env(11));
      }
      Others(w, others(11));
    }

    /** The finally block, and the return or re-raise after it. */
    method Unlock(w: nat, end: End, ghost e: Env)
      requires Valid() && w < |procs| && procs[w] == Release(end)
      modifies this
      ensures Valid() && procs == old(procs)[w := AfterRelease(end)] && trace == old(trace) + [Act(w, e)]
    {
      ghost var s := State();
      holder := None;
      Move(w, AfterRelease(end), s, e);
    }

    /** mtls_init, followed for as many attempts at the lock as given. Whatever the other workers do
        in between, a normal return leaves key and CSR of one pair, and the certificate unless
        signing raised CertError; and nothing that was there before has changed. */
    method MtlsInit(w: nat, attempts: nat, env: (nat, nat) -> Env, others: (nat, nat) -> seq<Event>)
      returns (r: Outcome)
      requires Valid() && Inv(origin) && w < |procs| && procs[w] == Check
      requires forall a, k, i | 0 <= i < |others(a, k)| :: Foreign(others(a, k)[i], w)
      modifies this
      ensures Valid() && old(trace) <= trace && Inv(State()) && Kept(old(State()), State())
      ensures r.ReturnedNormally? ==> key.Some? && csr == key && (!r.signFailed ==> cert == key)
      ensures w < |procs| && match r
                             case ReturnedNormally(f) => procs[w] == Returned(f)
                             case RaisedError => procs[w] == Raised
                             case StillWaiting => procs[w] == Check
      ensures r.StillWaiting? ==> timeouts > old(timeouts) + attempts
      ensures r == ReturnedNormally(true) ==> exists a | 0 <= a <= attempts :: env(a, 5).signing.CertError?
      ensures (old(cert).Some? && old(key).Some?
               <==> r == ReturnedNormally(false) && trace == old(trace) + [Act(w, env(attempts, 10))])
      decreases attempts
    {
      r := Attempts(w, attempts, env, others);
      HistoryKept(old(trace), trace);
    }

    method Attempts(w: nat, attempts: nat, env: (nat, nat) -> Env, others: (nat, nat) -> seq<Event>)
      returns (r: Outcome)
      requires Valid() && w < |procs| && procs[w] == Check
      requires forall a, k, i | 0 <= i < |others(a, k)| :: Foreign(others(a, k)[i], w)
      modifies this
      ensures Valid() && old(trace) <= trace
      ensures w < |procs| && match r
                             case ReturnedNormally(f) => procs[w] == Returned(f)
                             case RaisedError => procs[w] == Raised
                             case StillWaiting => procs[w] == Check
      ensures r.StillWaiting? ==> timeouts > old(timeouts) + attempts
      ensures r == ReturnedNormally(true) ==> exists a | 0 <= a <= attempts :: env(a, 5).signing.CertError?
      ensures (old(cert).Some? && old(key).Some?
               <==> r == ReturnedNormally(false) && trace == old(trace) + [Act(w, env(attempts, 10))])
      decreases attempts
    {
      if cert.Some? && key.Some? {
        Move(w, Returned(false), State(), env(attempts, 10));
        return ReturnedNormally(false);
      }
      Move(w, Acquire, State(), env(attempts, 10));
      Others(w, others(attempts, 10));
      var got := TryLock(w, (k: nat) => env(attempts, k), (k: nat) => others(attempts, k));
      if !got {
        if attempts == 0 {
          return StillWaiting;
        }
        r := Attempts(w, attempts - 1, env, others);
        return;
      }
      r := WithLock(w, (k: nat) => env(attempts, k), (k: nat) => others(attempts, k));
    }

    /** From having the lock to the end. */
    method WithLock(w: nat, env: nat -> Env, others: nat -> seq<Event>) returns (r: Outcome)
      requires Valid() && w < |procs| && procs[w] == Locked
      requires forall k, i | 0 <= i < |others(k)| :: Foreign(others(k)[i], w)
      modifies this
      ensures Valid() && old(trace) <= trace && !r.StillWaiting?
      ensures w < |procs| && procs[w] == if r.ReturnedNormally? then Returned(r.signFailed) else Raised
      ensures r == ReturnedNormally(true) ==> env(5).signing.CertError?
    {
      var end := Guarded(w, env, others);
      Unlock(w, end, env(12));
      r := match end case Fine => ReturnedNormally(false) case SignFailed => ReturnedNormally(true)
        case Failed => RaisedError;
    }

    lemma HistoryKept(start: seq<Event>, now: seq<Event>)
      requires Inv(origin) && start <= now
      ensures Inv(Run(origin, now)) && Kept(Run(origin, start), Run(origin, now))
    {
      RunKeeps(origin, start);
      RunConcat(origin, start, now[|start|..]);
      assert start + now[|start|..] == now;
      RunKeeps(Run(origin, start), now[|start|..]);
    }
  }

  predicate Foreign(ev: Event, w: nat) {
    ev.Spawn? || ev.w != w
  }

  lemma {:induction false} ForeignKeeps(s: Sys, w: nat, evs: seq<Event>)
    requires w < |s.procs| && forall i | 0 <= i < |evs| :: Foreign(evs[i], w)
    ensures var t := Run(s, evs);
            w < |t.procs| && t.procs[w] == s.procs[w] && t.timeouts >= s.timeouts
  {
    if evs != [] {
      ForeignKeeps(s, w, evs[..|evs| - 1]);
    }
  }
}
