/** init_db: every worker makes sure the schema and the tables exist. The schema and the tables are
    committed separately, and only the schema is looked for. */
module DbInit {
  import opened Wrappers
  import L = LockProtocol

  datatype Pc =
    | Sleep | Acquire | Inspect | CreateSchema | CreateTables | Release
    | AbortEarly | AbortLate | Returned | Raised | Gone

  /** `lost` records that a worker failed or crashed between the two commits; `starts` counts the
      creations begun and `creations` the schemas committed. */
  datatype Sys = Sys(
    schema: bool, tables: bool, lost: bool,
    holder: Option<nat>, procs: seq<Pc>, starts: nat, creations: nat, timeouts: nat, steps: nat)

  datatype Event = Act(w: nat, ok: bool) | Crash(w: nat) | Spawn

  /** A step or crash of a worker there is. */
  predicate OfWorker(s: Sys, ev: Event) {
    !ev.Spawn? && ev.w < |s.procs|
  }

  function Start(n: nat): Sys {
    Sys(false, false, false, None, seq(n, i => Sleep), 0, 0, 0, 0)
  }

  predicate Done(pc: Pc) {
    pc.Returned? || pc.Raised? || pc.Gone?
  }

  function Goes(s: Sys, pc: Pc, ok: bool): Pc {
    match pc
    case Sleep => Acquire
    case Acquire => if s.holder.None? then Inspect else Sleep
    case Inspect => if s.schema then Release else CreateSchema
    case CreateSchema => if ok then CreateTables else AbortEarly
    case CreateTables => if ok then Release else AbortLate
    case Release => Returned
    case AbortEarly => Raised
    case AbortLate => Raised
    case _ => pc
  }

  function Effect(s: Sys, w: nat, pc: Pc, ok: bool): Sys {
    match pc
    case Acquire => if s.holder.None? then s.(holder := Some(w)) else s.(timeouts := s.timeouts + 1)
    case Inspect => if s.schema then s else s.(starts := s.starts + 1)
    case CreateSchema => if ok then s.(schema := true, creations := s.creations + 1) else s
    case CreateTables => if ok then s.(tables := true) else s.(lost := true)
    case Release => s.(holder := None)
    case AbortEarly => s.(holder := None)
    case AbortLate => s.(holder := None)
    case _ => s
  }

  function Next(s: Sys, ev: Event): Sys {
    match ev
    case Spawn => s.(procs := s.procs + [Sleep])
    case Crash(w) =>
      if w >= |s.procs| then s
      else
        s.(procs := s.procs[w := Gone], holder := if s.holder == Some(w) then None else s.holder,
           lost := s.lost || s.procs[w].CreateTables?)
    case Act(w, ok) =>
      if w >= |s.procs| || Done(s.procs[w]) then s
      else
        var pc := s.procs[w];
        Effect(s, w, pc, ok).(procs := s.procs[w := Goes(s, pc, ok)], steps := s.steps + 1)
  }

  function Run(s: Sys, evs: seq<Event>): Sys
    decreases |evs|
  {
    if evs == [] then s else Run(Next(s, evs[0]), evs[1..])
  }

  lemma {:induction false} RunConcat(s: Sys, evs: seq<Event>, more: seq<Event>)
    ensures Run(s, evs + more) == Run(Run(s, evs), more)
    decreases |evs|
  {
    if evs == [] {
      assert evs + more == more;
    } else {
      RunConcat(Next(s, evs[0]), evs[1..], more);
      assert (evs + more)[1..] == evs[1..] + more;
    }
  }

  lemma RunSnoc(s: Sys, evs: seq<Event>, ev: Event)
    ensures Run(s, evs + [ev]) == Next(Run(s, evs), ev)
  {
    RunConcat(s, evs, [ev]);
    assert [ev][1..] == [];
  }

  // ---- Refinement of the shared protocol -----------------------------------------------

  function AbsPc(pc: Pc): L.Pc {
    match pc
    case Sleep => L.Check
    case Acquire => L.Acquire
    case Inspect => L.Recheck
    case CreateSchema => L.Body
    case AbortEarly => L.Body
    case CreateTables => L.Release
    case Release => L.Release
    case AbortLate => L.Release
    case Returned => L.Returned
    case Raised => L.Gone
    case Gone => L.Gone
  }

  ghost predicate SameScalars(s: Sys, g: L.Sys) {
    && g.made == s.schema && g.holder == s.holder && g.timeouts == s.timeouts
    && g.starts == s.starts && g.bodies == s.creations
  }

  ghost predicate Refines(s: Sys, g: L.Sys) {
    && SameScalars(s, g)
    && |g.procs| == |s.procs| && forall w | 0 <= w < |s.procs| :: g.procs[w] == AbsPc(s.procs[w])
  }

  function AbsEvent(s: Sys, ev: Event): Option<L.Event> {
    if ev.Spawn? then Some(L.Spawn)
    else if ev.w >= |s.procs| then None
    else
      match ev
      case Crash(w) => Some(L.Crash(w))
      case Act(w, ok) =>
        match s.procs[w]
        case CreateSchema => if ok then Some(L.Act(w, false)) else None
        case CreateTables => None
        case AbortEarly => Some(L.Crash(w))
        case AbortLate => Some(L.Crash(w))
        case pc => if Done(pc) then None else Some(L.Act(w, false))
  }

  function AbsEvents(s: Sys, evs: seq<Event>): seq<L.Event>
    decreases |evs|
  {
    if evs == [] then []
    else
      var rest := AbsEvents(Next(s, evs[0]), evs[1..]);
      var first := AbsEvent(s, evs[0]);
      if first.Some? then [first.value] + rest else rest
  }

  lemma OnlyActorMoves(s: Sys, ev: Event)
    requires OfWorker(s, ev)
    ensures |Next(s, ev).procs| == |s.procs|
    ensures Next(s, ev).procs == s.procs[ev.w := Next(s, ev).procs[ev.w]]
  {
  }

  lemma GoesRefines(s: Sys, g: L.Sys, w: nat, ok: bool)
    requires SameScalars(s, g) && w < |s.procs| && !Done(s.procs[w])
    ensures var pc, a := s.procs[w], AbsEvent(s, Act(w, ok));
            AbsPc(Goes(s, pc, ok)) == match a
                                      case None => AbsPc(pc)
                                      case Some(Act(_, found)) => L.Goes(g, AbsPc(pc), found)
                                      case Some(Crash(_)) => L.Gone
  {
  }

  lemma EffectRefines(s: Sys, g: L.Sys, w: nat, ok: bool)
    requires SameScalars(s, g) && w < |s.procs| && !Done(s.procs[w])
    requires L.Critical(AbsPc(s.procs[w])) <==> s.holder == Some(w)
    ensures var pc, a := s.procs[w], AbsEvent(s, Act(w, ok));
            SameScalars(Effect(s, w, pc, ok),
                        match a
                        case None => g
                        case Some(Act(_, _)) => L.Effect(g, w, AbsPc(pc))
                        case Some(Crash(_)) => g.(holder := if g.holder == Some(w) then None else g.holder))
  {
  }

  lemma CrashRefines(s: Sys, g: L.Sys, w: nat)
    requires Refines(s, g) && w < |s.procs|
    ensures var t, h := Next(s, Crash(w)), L.Next(g, L.Crash(w));
            && |h.procs| == |t.procs| == |s.procs| && h.procs == g.procs[w := h.procs[w]]
            && h.procs[w] == AbsPc(t.procs[w])
            && SameScalars(t, h)
  {
  }

  lemma ActorRefines(s: Sys, g: L.Sys, ev: Event)
    requires Refines(s, g) && L.Inv(g) && OfWorker(s, ev)
    ensures var a := AbsEvent(s, ev);
            var t, h := Next(s, ev), if a.Some? then L.Next(g, a.value) else g;
            && |h.procs| == |t.procs| == |s.procs| && h.procs == g.procs[ev.w := h.procs[ev.w]]
            && h.procs[ev.w] == AbsPc(t.procs[ev.w])
            && SameScalars(t, h)
  {
    assert g.procs[ev.w] == AbsPc(s.procs[ev.w]);
    if ev.Crash? {
      CrashRefines(s, g, ev.w);
    } else if !Done(s.procs[ev.w]) {
      GoesRefines(s, g, ev.w, ev.ok);
      EffectRefines(s, g, ev.w, ev.ok);
    }
  }

  lemma NextRefines(s: Sys, g: L.Sys, ev: Event)
    requires Refines(s, g) && L.Inv(g)
    ensures var a := AbsEvent(s, ev);
            Refines(Next(s, ev), if a.Some? then L.Next(g, a.value) else g)
  {
    if OfWorker(s, ev) {
      OnlyActorMoves(s, ev);
      ActorRefines(s, g, ev);
    }
  }

  lemma {:induction false} RunRefines(s: Sys, g: L.Sys, evs: seq<Event>)
    requires Refines(s, g) && L.Inv(g)
    ensures Refines(Run(s, evs), L.Run(g, AbsEvents(s, evs))) && L.Inv(L.Run(g, AbsEvents(s, evs)))
    decreases |evs|
  {
    if evs != [] {
      var a := AbsEvent(s, evs[0]);
      var h := if a.Some? then L.Next(g, a.value) else g;
      NextRefines(s, g, evs[0]);
      if a.Some? {
        L.NextKeeps(g, a.value);
        assert AbsEvents(s, evs)[1..] == AbsEvents(Next(s, evs[0]), evs[1..]);
      }
      RunRefines(Next(s, evs[0]), h, evs[1..]);
    }
  }

  /** init_db is an instance of the shared protocol without the first look; its body is the commit
      of the schema. */
  lemma IsLockProtocol(n: nat, evs: seq<Event>)
    ensures Refines(Run(Start(n), evs), L.Run(L.Start(n), AbsEvents(Start(n), evs)))
  {
    RunRefines(Start(n), L.Start(n), evs);
  }

  // ---- What follows --------------------------------------------------------------------

  /** The schema is created at most once over all workers, and whoever returns finds it. */
  lemma SchemaCreatedOnce(n: nat, evs: seq<Event>)
    ensures var s := Run(Start(n), evs);
            && s.creations <= 1
            && forall w | 0 <= w < |s.procs| && s.procs[w].Returned? :: s.schema
  {
    RunRefines(Start(n), L.Start(n), evs);
    L.GuardedOnce(n, AbsEvents(Start(n), evs));
  }

  /** No crash and no failing commit. */
  predicate Calm(evs: seq<Event>) {
    forall i | 0 <= i < |evs| :: !evs[i].Crash? && (evs[i].Act? ==> evs[i].ok)
  }

  lemma NobodyAbortsNext(s: Sys, g: L.Sys, ev: Event)
    requires Refines(s, g) && !ev.Crash? && (ev.Act? ==> ev.ok)
    requires forall w | 0 <= w < |s.procs| :: !s.procs[w].AbortEarly?
    ensures var a := AbsEvent(s, ev);
            (if a.Some? then L.Next(g, a.value) else g).aborted == g.aborted
    ensures forall w | 0 <= w < |Next(s, ev).procs| :: !Next(s, ev).procs[w].AbortEarly?
  {
    if OfWorker(s, ev) {
      OnlyActorMoves(s, ev);
      assert g.procs[ev.w] == AbsPc(s.procs[ev.w]);
    }
  }

  lemma {:induction false} NobodyAborts(s: Sys, g: L.Sys, evs: seq<Event>)
    requires Refines(s, g) && L.Inv(g) && Calm(evs)
    requires forall w | 0 <= w < |s.procs| :: !s.procs[w].AbortEarly?
    ensures L.Run(g, AbsEvents(s, evs)).aborted == g.aborted
    decreases |evs|
  {
    if evs != [] {
      var a := AbsEvent(s, evs[0]);
      var h := if a.Some? then L.Next(g, a.value) else g;
      assert !evs[0].Crash? && (evs[0].Act? ==> evs[0].ok);
      NextRefines(s, g, evs[0]);
      NobodyAbortsNext(s, g, evs[0]);
      if a.Some? {
        L.NextKeeps(g, a.value);
        assert AbsEvents(s, evs)[1..] == AbsEvents(Next(s, evs[0]), evs[1..]);
      }
      NobodyAborts(Next(s, evs[0]), h, evs[1..]);
    }
  }

  /** And in runs without crashes and failures its creation is not even begun twice. */
  lemma CreationBegunOnce(n: nat, evs: seq<Event>)
    requires Calm(evs)
    ensures Run(Start(n), evs).starts <= 1
  {
    RunRefines(Start(n), L.Start(n), evs);
    NobodyAborts(Start(n), L.Start(n), evs);
    L.GuardedOnce(n, AbsEvents(Start(n), evs));
  }

  ghost predicate TablesInv(s: Sys) {
    && (s.tables ==> s.schema && !s.lost)
    && (s.lost ==> s.schema)
    && (forall w | 0 <= w < |s.procs| && s.procs[w].CreateTables? ::
        s.schema && !s.tables && !s.lost && s.holder == Some(w))
    && (forall w | 0 <= w < |s.procs| && (s.procs[w].Release? || s.procs[w].Returned?) :: s.tables || s.lost)
    && (s.schema && !s.tables && !s.lost ==>
          s.holder.Some? && s.holder.value < |s.procs| && s.procs[s.holder.value].CreateTables?)
  }

  lemma TablesNext(s: Sys, g: L.Sys, ev: Event)
    requires TablesInv(s) && Refines(s, g) && L.Inv(g)
    ensures TablesInv(Next(s, ev))
  {
    if OfWorker(s, ev) {
      assert g.procs[ev.w] == AbsPc(s.procs[ev.w]);
      assert L.Critical(g.procs[ev.w]) <==> s.holder == Some(ev.w);
      assert g.procs[ev.w].Body? ==> !s.schema;
      forall w | 0 <= w < |s.procs| && (s.procs[w].Release? || s.procs[w].Returned?) ensures s.schema {
        assert g.procs[w] == AbsPc(s.procs[w]);
      }
    }
  }

  lemma {:induction false} TablesKept(s: Sys, g: L.Sys, evs: seq<Event>)
    requires TablesInv(s) && Refines(s, g) && L.Inv(g)
    ensures TablesInv(Run(s, evs))
    decreases |evs|
  {
    if evs != [] {
      TablesNext(s, g, evs[0]);
      var one := evs[..1];
      assert Run(s, one) == Run(Next(s, evs[0]), one[1..]) == Next(s, evs[0]);
      RunRefines(s, g, one);
      TablesKept(Next(s, evs[0]), L.Run(g, AbsEvents(s, one)), evs[1..]);
    }
  }

  /** When some worker has returned normally, the tables exist exactly when no worker was lost
      between the two commits; so in runs without failures and crashes they do. */
  lemma TablesExistIff(n: nat, evs: seq<Event>, w: nat)
    requires var s := Run(Start(n), evs); w < |s.procs| && s.procs[w].Returned?
    ensures var s := Run(Start(n), evs); s.tables <==> !s.lost
  {
    TablesKept(Start(n), L.Start(n), evs);
    SchemaCreatedOnce(n, evs);
  }

  /** A worker lost there leaves a schema without tables for good: nobody looks for the tables. */
  lemma LostTablesAreFinal(n: nat, evs: seq<Event>, more: seq<Event>)
    requires Run(Start(n), evs).lost
    ensures !Run(Run(Start(n), evs), more).tables
  {
    var s, g := Run(Start(n), evs), L.Run(L.Start(n), AbsEvents(Start(n), evs));
    RunRefines(Start(n), L.Start(n), evs);
    TablesKept(Start(n), L.Start(n), evs);
    TablesKept(s, g, more);
    LostKept(s, more);
  }

  ghost predicate Creates(s: Sys, evs: seq<Event>) {
    Run(s, evs).tables
  }

  predicate CanCreate(s: Sys, w: nat) {
    && w < |s.procs|
    && match s.procs[w]
       case Sleep => !s.schema && s.holder.None?
       case Acquire => !s.schema && s.holder.None?
       case Inspect => !s.schema
       case CreateSchema => true
       case CreateTables => true
       case _ => false
  }

  lemma {:induction false} GetsToTables(s: Sys, w: nat) returns (evs: seq<Event>)
    requires CanCreate(s, w)
    ensures Creates(s, evs)
    decreases Rank(s.procs[w])
  {
    var act := Act(w, true);
    var t := Next(s, act);
    if s.procs[w].CreateTables? {
      evs := [act];
      assert Run(s, evs) == Run(t, evs[1..]) == t;
    } else {
      var rest := GetsToTables(t, w);
      evs := [act] + rest;
      assert evs[1..] == rest;
    }
  }

  lemma {:induction false} NewWorkerCreates(s: Sys) returns (evs: seq<Event>)
    requires !s.schema && (s.holder.Some? ==> s.holder.value < |s.procs|)
    ensures Creates(s, evs)
    decreases if s.holder.Some? then 1 else 0
  {
    if s.holder.None? {
      var rest := GetsToTables(Next(s, Spawn), |s.procs|);
      evs := [Spawn] + rest;
      assert evs[1..] == rest;
    } else {
      var lost := Crash(s.holder.value);
      var rest := NewWorkerCreates(Next(s, lost));
      evs := [lost] + rest;
      assert evs[1..] == rest;
    }
  }

  /** From any reachable state some continuation has the tables exactly when no worker was lost
      between the two commits. */
  lemma TablesLaterIff(n: nat, evs: seq<Event>)
    ensures var s := Run(Start(n), evs);
            (exists more :: Creates(s, more)) <==> !s.lost
  {
    var s := Run(Start(n), evs);
    RunRefines(Start(n), L.Start(n), evs);
    TablesKept(Start(n), L.Start(n), evs);
    if s.lost {
      forall more ensures !Creates(s, more) {
        LostTablesAreFinal(n, evs, more);
      }
    } else if s.tables {
      assert Creates(s, []);
    } else if s.schema {
      var more := GetsToTables(s, s.holder.value);
    } else {
      var more := NewWorkerCreates(s);
    }
  }

  const FIRST: seq<Event> := [Act(0, true), Act(0, true)]

  lemma FirstLocks()
    ensures Run(Start(1), FIRST) == Start(1).(procs := [Inspect], holder := Some(0), steps := 2)
  {
    assert FIRST[1..] == [Act(0, true)] && [Act(0, true)][1..] == [];
    assert Start(1).procs == [Sleep];
    assert Next(Start(1), Act(0, true)) == Start(1).(procs := [Acquire], steps := 1);
  }

  /** Such a worker: whoever is started later, and however many, the tables stay missing. */
  lemma LostTablesAreReachable() returns (evs: seq<Event>)
    ensures var s := Run(Start(1), evs);
            s.lost && s.schema && forall more :: !Run(s, more).tables
  {
    var act := Act(0, true);
    var second := [act, act, Crash(0)];
    evs := FIRST + second;
    RunConcat(Start(1), FIRST, second);
    FirstLocks();
    var locked := Start(1).(procs := [Inspect], holder := Some(0), steps := 2);
    assert second[1..] == [act, Crash(0)] && second[1..][1..] == [Crash(0)] && [Crash(0)][1..] == [];
    var written := Next(Next(locked, act), act);
    assert written.procs == [CreateTables];
    assert Run(locked, second) == Run(written, [Crash(0)]) == Run(Next(written, Crash(0)), []);
    forall more ensures !Run(Run(Start(1), evs), more).tables {
      LostTablesAreFinal(1, evs, more);
    }
  }

  lemma {:induction false} LostKept(s: Sys, evs: seq<Event>)
    requires s.lost
    ensures Run(s, evs).lost
    decreases |evs|
  {
    if evs != [] {
      LostKept(Next(s, evs[0]), evs[1..]);
    }
  }

  // ---- Bounded work --------------------------------------------------------------------

  function Rank(pc: Pc): nat {
    match pc
    case Sleep => 6
    case Acquire => 5
    case Inspect => 4
    case CreateSchema => 3
    case CreateTables => 2
    case Release => 1
    case AbortEarly => 1
    case AbortLate => 1
    case _ => 0
  }

  function Ranks(procs: seq<Pc>): seq<nat> {
    seq(|procs|, i requires 0 <= i < |procs| => Rank(procs[i]))
  }

  lemma StepCosts(s: Sys, ev: Event)
    requires OfWorker(s, ev)
    ensures var t := Next(s, ev);
            t.steps + Rank(t.procs[ev.w]) - 2 * t.timeouts <= s.steps + Rank(s.procs[ev.w]) - 2 * s.timeouts
  {
  }

  /** What has been paid for: six steps for every worker and two for every timeout. */
  ghost function Debt(s: Sys): int {
    s.steps + L.Total(Ranks(s.procs)) - 2 * s.timeouts - 6 * |s.procs|
  }

  lemma NextCosts(s: Sys, ev: Event)
    ensures Debt(Next(s, ev)) <= Debt(s)
  {
    var t := Next(s, ev);
    if ev.Spawn? {
      assert Ranks(t.procs) == Ranks(s.procs) + [6];
      L.TotalSnoc(Ranks(s.procs), 6);
    } else if OfWorker(s, ev) {
      OnlyActorMoves(s, ev);
      StepCosts(s, ev);
      assert Ranks(t.procs) == Ranks(s.procs)[ev.w := Rank(t.procs[ev.w])];
      L.TotalUpdate(Ranks(s.procs), ev.w, Rank(t.procs[ev.w]));
    }
  }

  lemma {:induction false} RunCosts(s: Sys, evs: seq<Event>)
    ensures Debt(Run(s, evs)) <= Debt(s)
    decreases |evs|
  {
    if evs != [] {
      NextCosts(s, evs[0]);
      RunCosts(Next(s, evs[0]), evs[1..]);
    }
  }

  /** All workers together, later ones included, take at most six steps each plus two for every
      timeout. */
  lemma StepsAreBounded(n: nat, evs: seq<Event>)
    ensures var s := Run(Start(n), evs); s.steps <= 6 * |s.procs| + 2 * s.timeouts
  {
    RunCosts(Start(n), evs);
    assert Ranks(Start(n).procs) == seq(n, i => 6);
    L.TotalConstant(n, 6);
  }

  // ---- The function itself -------------------------------------------------------------

  predicate Foreign(ev: Event, w: nat) {
    ev.Spawn? || ev.w != w
  }

  lemma {:induction false} OthersKeep(s: Sys, w: nat, evs: seq<Event>)
    requires w < |s.procs| && forall i | 0 <= i < |evs| :: Foreign(evs[i], w)
    ensures w < |Run(s, evs).procs| && Run(s, evs).procs[w] == s.procs[w]
    ensures Run(s, evs).timeouts >= s.timeouts
    decreases |evs|
  {
    if evs != [] {
      OthersKeep(Next(s, evs[0]), w, evs[1..]);
    }
  }

  datatype Outcome = ReturnedNormally | RaisedError | StillWaiting

  /** The database and the lock file, as one worker running init_db sees them. `trace` records every
      step, this worker's and the others'. */
  class Host {
    var schema: bool
    var tables: bool
    var lost: bool
    var holder: Option<nat>
    var procs: seq<Pc>
    var starts: nat
    var creations: nat
    var timeouts: nat
    var steps: nat
    ghost const origin: Sys
    ghost var trace: seq<Event>

    function State(): Sys
      reads this
    {
      Sys(schema, tables, lost, holder, procs, starts, creations, timeouts, steps)
    }

    /** The fields are what the recorded run of all the workers has made of them. */
    ghost predicate Valid()
      reads this
    {
      origin == Start(|origin.procs|) && State() == Run(origin, trace)
    }

    constructor (n: nat)
      ensures Valid() && State() == Start(n)
    {
      schema, tables, lost, holder := false, false, false, None;
      procs, starts, creations, timeouts, steps := seq(n, i => Sleep), 0, 0, 0, 0;
      origin, trace := Start(n), [];
    }

    /** Other workers run while this one is suspended. */
    method Others(w: nat, evs: seq<Event>)
      requires Valid() && w < |procs| && forall i | 0 <= i < |evs| :: Foreign(evs[i], w)
      modifies this
      ensures Valid() && trace == old(trace) + evs && w < |procs| && procs[w] == old(procs)[w]
      ensures timeouts >= old(timeouts)
    {
      OthersKeep(State(), w, evs);
      RunConcat(origin, trace, evs);
      var t := Run(State(), evs);
      schema, tables, lost, holder := t.schema, t.tables, t.lost, t.holder;
      procs, starts, creations, timeouts, steps := t.procs, t.starts, t.creations, t.timeouts, t.steps;
      trace := trace + evs;
    }

    /** This worker gets to its next step; `e` is what the environment did in the last one. */
    method Move(w: nat, pc: Pc, ghost before: Sys, ghost e: bool)
      requires w < |procs| && !Done(procs[w])
      requires before == Run(origin, trace) && origin == Start(|origin.procs|)
      requires before.procs == procs && before.steps == steps
      requires pc == Goes(before, procs[w], e) && State() == Effect(before, w, procs[w], e)
      modifies this`procs, this`steps, this`trace
      ensures Valid() && procs == old(procs)[w := pc] && trace == old(trace) + [Act(w, e)]
    {
      RunSnoc(origin, trace, Act(w, e));
      procs, steps, trace := procs[w := pc], steps + 1, trace + [Act(w, e)];
    }

    /** Tries the lock once, without waiting. */
    method TryLock(w: nat, env: nat -> bool, others: nat -> seq<Event>) returns (got: bool)
      requires Valid() && w < |procs| && procs[w] == Acquire
      requires forall k, i | 0 <= i < |others(k)| :: Foreign(others(k)[i], w)
      modifies this
      ensures Valid() && w < |procs| && procs[w] == (if got then Inspect else Sleep) && old(trace) <= trace
      ensures !got ==> timeouts > old(timeouts)
    {
      ghost var s := State();
      got := holder.None?;
      if got {
        holder := Some(w);
        Move(w, Inspect, s, env(1));
      } else {
        timeouts := timeouts + 1;
        Move(w, Sleep, s, env(1));
      }
      Others(w, others(1));
    }

    /** The with block: looks for the schema, and makes it and then the tables if it is not there. */
    method CreateAll(w: nat, env: nat -> bool, others: nat -> seq<Event>) returns (end: Pc)
      requires Valid() && w < |procs| && procs[w] == Inspect
      requires forall k, i | 0 <= i < |others(k)| :: Foreign(others(k)[i], w)
      modifies this
      ensures Valid() && w < |procs| && procs[w] == end && old(trace) <= trace
      ensures end.Release? || end.AbortEarly? || end.AbortLate?
    {
      if schema {
        end := Release;
        Move(w, end, State(), env(2));
        return;
      }
      ghost var s := State();
      starts := starts + 1;
      Move(w, CreateSchema, s, env(2));
      Others(w, others(2));
      end := CreateTheSchema(w, env, others);
    }

    method CreateTheSchema(w: nat, env: nat -> bool, others: nat -> seq<Event>) returns (end: Pc)
      requires Valid() && w < |procs| && procs[w] == CreateSchema
      requires forall k, i | 0 <= i < |others(k)| :: Foreign(others(k)[i], w)
      modifies this
      ensures Valid() && w < |procs| && procs[w] == end && old(trace) <= trace
      ensures end.Release? || end.AbortEarly? || end.AbortLate?
    {
      ghost var s := State();
      if !env(3) {
        end := AbortEarly;
        Move(w, end, s, env(3));
        return;
      }
      schema, creations := true, creations + 1;
      Move(w, CreateTables, s, env(3));
      Others(w, others(3));
      end := CreateTheTables(w, env(4));
    }

    method CreateTheTables(w: nat, ok: bool) returns (end: Pc)
      requires Valid() && w < |procs| && procs[w] == CreateTables
      modifies this
      ensures Valid() && w < |procs| && procs[w] == end && old(trace) <= trace
      ensures end == if ok then Release else AbortLate
    {
      ghost var s := State();
      if ok {
        tables, end := true, Release;
      } else {
        lost, end := true, AbortLate;
      }
      Move(w, end, s, ok);
    }

    /** The finally block, and the return or re-raise after it. */
    method Unlock(w: nat, end: Pc, ghost e: bool)
      requires Valid() && w < |procs| && procs[w] == end && (end.Release? || end.AbortEarly? || end.AbortLate?)
      modifies this
      ensures Valid() && trace == old(trace) + [Act(w, e)]
      ensures procs == old(procs)[w := if end.Release? then Returned else Raised]
    {
      ghost var s := State();
      holder := None;
      Move(w, if end.Release? then Returned else Raised, s, e);
    }

    /** init_db, followed for as many attempts at the lock as given. Whatever the other workers do in
        between, after a normal return the schema is there, made once, and the tables are there
        exactly when no worker was lost between the two commits. */
    method InitDb(w: nat, attempts: nat, env: (nat, nat) -> bool, others: (nat, nat) -> seq<Event>) returns (r: Outcome)
      requires Valid() && w < |procs| && procs[w] == Sleep
      requires forall a, k, i | 0 <= i < |others(a, k)| :: Foreign(others(a, k)[i], w)
      modifies this
      ensures Valid() && old(trace) <= trace && creations <= 1
      ensures r.ReturnedNormally? ==> schema && (tables <==> !lost)
      ensures w < |procs| && procs[w] == (if r.ReturnedNormally? then Returned else if r.RaisedError? then Raised
                                          else Sleep)
      ensures r.StillWaiting? ==> timeouts > old(timeouts) + attempts
    {
      r := Attempts(w, attempts, env, others);
      SchemaCreatedOnce(|origin.procs|, trace);
      if r.ReturnedNormally? {
        TablesExistIff(|origin.procs|, trace, w);
      }
    }

    method Attempts(w: nat, attempts: nat, env: (nat, nat) -> bool, others: (nat, nat) -> seq<Event>)
      returns (r: Outcome)
      requires Valid() && w < |procs| && procs[w] == Sleep
      requires forall a, k, i | 0 <= i < |others(a, k)| :: Foreign(others(a, k)[i], w)
      modifies this
      ensures Valid() && old(trace) <= trace
      ensures w < |procs| && procs[w] == (if r.ReturnedNormally? then Returned else if r.RaisedError? then Raised
                                          else Sleep)
      ensures r.StillWaiting? ==> timeouts > old(timeouts) + attempts
      decreases attempts
    {
      Move(w, Acquire, State(), env(attempts, 0));
      Others(w, others(attempts, 0));
      var got := TryLock(w, (k: nat) => env(attempts, k), (k: nat) => others(attempts, k));
      if !got {
        if attempts == 0 {
          return StillWaiting;
        }
        r := Attempts(w, attempts - 1, env, others);
        return;
      }
      var end := CreateAll(w, (k: nat) => env(attempts, k), (k: nat) => others(attempts, k));
      Unlock(w, end, env(attempts, 5));
      r := if end.Release? then ReturnedNormally else RaisedError;
    }
  }
}
