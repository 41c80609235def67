/** The start-up protocol shared by the initialisers: check, try the lock without waiting, check
    again, make the thing, release; on a timeout sleep and start over. Any number of workers, any
    interleaving, and a crash at any step (the operating system then drops the lock). */
module LockProtocol {
  import opened Wrappers

  datatype Pc = Check | Acquire | Recheck | Body | Release | Returned | Gone

  /** `starts` counts how often the guarded body is begun, `bodies` how often it is completed and
      `aborted` how often a worker is lost in it; `timeouts` counts failed attempts at the lock and
      `steps` all steps taken. */
  datatype Sys = Sys(made: bool, holder: Option<nat>, procs: seq<Pc>, starts: nat, bodies: nat, aborted: nat,
                     timeouts: nat, steps: nat)

  /** `found`: what the first look says; it can only find what is there, and may not look at all.
      Workers can be started at any time, in place of lost ones or besides. */
  datatype Event = Act(w: nat, found: bool) | Crash(w: nat) | Spawn

  function Start(n: nat): Sys {
    Sys(false, None, seq(n, i => Check), 0, 0, 0, 0, 0)
  }

  /** Where a worker's step takes it. */
  function Goes(s: Sys, pc: Pc, found: bool): Pc {
    match pc
    case Check => if found && s.made then Returned else Acquire
    case Acquire => if s.holder.None? then Recheck else Check
    case Recheck => if s.made then Release else Body
    case Body => Release
    case Release => Returned
    case _ => pc
  }

  /** What the step does to the thing and the lock. */
  function Effect(s: Sys, w: nat, pc: Pc): Sys {
    match pc
    case Acquire => if s.holder.None? then s.(holder := Some(w)) else s.(timeouts := s.timeouts + 1)
    case Recheck => if s.made then s else s.(starts := s.starts + 1)
    case Body => s.(made := true, bodies := s.bodies + 1)
    case Release => s.(holder := None)
    case _ => s
  }

  /** The operating system drops the lock of a lost worker. */
  function Crashed(s: Sys, w: nat, pc: Pc): Sys
    requires w < |s.procs|
  {
    s.(procs := s.procs[w := Gone], holder := if s.holder == Some(w) then None else s.holder,
       aborted := if pc.Body? then s.aborted + 1 else s.aborted)
  }

  function Next(s: Sys, ev: Event): Sys {
    match ev
    case Spawn => s.(procs := s.procs + [Check])
    case Crash(w) => if w >= |s.procs| then s else Crashed(s, w, s.procs[w])
    case Act(w, found) =>
      if w >= |s.procs| || s.procs[w].Returned? || s.procs[w].Gone? then s
      else
        var pc := s.procs[w];
        Effect(s, w, pc).(procs := s.procs[w := Goes(s, pc, found)], steps := s.steps + 1)
  }

  function Run(s: Sys, evs: seq<Event>): Sys
    decreases |evs|
  {
    if evs == [] then s else Run(Next(s, evs[0]), evs[1..])
  }

  predicate Critical(pc: Pc) {
    pc.Recheck? || pc.Body? || pc.Release?
  }

  function InBody(s: Sys): nat {
    if s.holder.Some? && s.holder.value < |s.procs| && s.procs[s.holder.value].Body? then 1 else 0
  }

  ghost predicate Inv(s: Sys) {
    && (forall w | 0 <= w < |s.procs| :: Critical(s.procs[w]) <==> s.holder == Some(w))
    && (s.holder.Some? ==> s.holder.value < |s.procs|)
    && (forall w | 0 <= w < |s.procs| && s.procs[w].Body? :: !s.made)
    && (forall w | 0 <= w < |s.procs| && (s.procs[w].Release? || s.procs[w].Returned?) :: s.made)
    && s.bodies == (if s.made then 1 else 0)
    && s.starts == s.bodies + s.aborted + InBody(s)
  }

  lemma NextKeeps(s: Sys, ev: Event)
    requires Inv(s)
    ensures Inv(Next(s, ev)) && (s.made ==> Next(s, ev).made)
  {
  }

  lemma {:induction false} RunKeeps(s: Sys, evs: seq<Event>)
    requires Inv(s)
    ensures Inv(Run(s, evs)) && (s.made ==> Run(s, evs).made)
    decreases |evs|
  {
    if evs != [] {
      NextKeeps(s, evs[0]);
      RunKeeps(Next(s, evs[0]), evs[1..]);
    }
  }

  /** The body is completed at most once over all workers, crashes or not, and begun once more at
      most for every worker lost in it; two workers are never inside the lock together; whoever
      returns finds the thing made. */
  lemma GuardedOnce(n: nat, evs: seq<Event>)
    ensures var s := Run(Start(n), evs);
            && s.bodies <= 1 && s.starts <= 1 + s.aborted
            && (forall v, w | 0 <= v < |s.procs| && 0 <= w < |s.procs| && Critical(s.procs[v])
                && Critical(s.procs[w]) :: v == w)
            && (forall w | 0 <= w < |s.procs| && s.procs[w].Returned? :: s.made)
  {
    RunKeeps(Start(n), evs);
  }

  predicate CrashFree(evs: seq<Event>) {
    forall i | 0 <= i < |evs| :: !evs[i].Crash?
  }

  lemma {:induction false} NobodyLost(s: Sys, evs: seq<Event>)
    requires CrashFree(evs)
    ensures Run(s, evs).aborted == s.aborted
    decreases |evs|
  {
    if evs != [] {
      assert !evs[0].Crash?;
      NobodyLost(Next(s, evs[0]), evs[1..]);
    }
  }

  /** Without crashes the body is not even begun twice. */
  lemma BegunOnceWithoutCrashes(n: nat, evs: seq<Event>)
    requires CrashFree(evs)
    ensures Run(Start(n), evs).starts <= 1
  {
    RunKeeps(Start(n), evs);
    NobodyLost(Start(n), evs);
  }

  lemma {:induction false} NoMoreStarts(s: Sys, evs: seq<Event>)
    requires Inv(s) && s.made
    ensures Run(s, evs).starts == s.starts
    decreases |evs|
  {
    if evs != [] {
      NextKeeps(s, evs[0]);
      NoMoreStarts(Next(s, evs[0]), evs[1..]);
    }
  }

  lemma {:induction false} GetsToBody(s: Sys, w: nat) returns (evs: seq<Event>)
    requires Inv(s) && !s.made && w < |s.procs| && (s.holder.None? || s.holder == Some(w))
    requires s.procs[w].Check? || s.procs[w].Acquire? || s.procs[w].Recheck?
    ensures Run(s, evs).starts > s.starts
    decreases Rank(s.procs[w])
  {
    var t := Next(s, Act(w, false));
    NextKeeps(s, Act(w, false));
    if s.procs[w].Recheck? {
      evs := [Act(w, false)];
      assert Run(s, evs) == Run(t, evs[1..]) == t;
    } else {
      var rest := GetsToBody(t, w);
      evs := [Act(w, false)] + rest;
      assert evs[1..] == rest;
    }
  }

  ghost predicate BeginsMore(s: Sys, evs: seq<Event>) {
    Run(s, evs).starts > s.starts
  }

  lemma NewWorkerBegins(s: Sys) returns (evs: seq<Event>)
    requires Inv(s) && !s.made && s.holder.None?
    ensures BeginsMore(s, evs)
  {
    NextKeeps(s, Spawn);
    var rest := GetsToBody(Next(s, Spawn), |s.procs|);
    evs := [Spawn] + rest;
    assert evs[1..] == rest;
  }

  /** From any reachable state the body can be begun once more exactly while the thing is not made:
      whoever is in the body may be lost, and another worker started. */
  lemma BeginsAgainIff(n: nat, evs: seq<Event>)
    ensures var s := Run(Start(n), evs);
            (exists more :: BeginsMore(s, more)) <==> !s.made
  {
    var s := Run(Start(n), evs);
    RunKeeps(Start(n), evs);
    if s.made {
      forall more ensures !BeginsMore(s, more) {
        NoMoreStarts(s, more);
      }
    } else if s.holder.None? {
      var more := NewWorkerBegins(s);
    } else {
      var lost := Crash(s.holder.value);
      NextKeeps(s, lost);
      var more := NewWorkerBegins(Next(s, lost));
      assert ([lost] + more)[1..] == more;
      assert BeginsMore(s, [lost] + more);
    }
  }

  /** A timeout happens only while another worker is inside the lock. */
  lemma TimeoutMeansHeld(n: nat, evs: seq<Event>, w: nat, found: bool)
    requires var s := Run(Start(n), evs);
             Next(s, Act(w, found)).timeouts > s.timeouts
    ensures var s := Run(Start(n), evs);
            exists v :: 0 <= v < |s.procs| && v != w && Critical(s.procs[v])
  {
    RunKeeps(Start(n), evs);
    var s := Run(Start(n), evs);
    assert s.holder.Some? && Critical(s.procs[s.holder.value]);
  }

  // ---- Bounded work --------------------------------------------------------------------

  function Rank(pc: Pc): nat {
    match pc
    case Check => 5
    case Acquire => 4
    case Recheck => 3
    case Body => 2
    case Release => 1
    case Returned => 0
    case Gone => 0
  }

  function Total(ranks: seq<nat>): nat {
    if ranks == [] then 0 else ranks[0] + Total(ranks[1..])
  }

  lemma {:induction false} TotalUpdate(ranks: seq<nat>, i: nat, r: nat)
    requires i < |ranks|
    ensures Total(ranks[i := r]) == Total(ranks) - ranks[i] + r
  {
    if i == 0 {
      assert ranks[i := r][1..] == ranks[1..];
    } else {
      assert ranks[i := r][1..] == ranks[1..][i - 1 := r];
      TotalUpdate(ranks[1..], i - 1, r);
    }
  }

  lemma {:induction false} TotalSnoc(ranks: seq<nat>, r: nat)
    ensures Total(ranks + [r]) == Total(ranks) + r
  {
    if ranks != [] {
      assert (ranks + [r])[1..] == ranks[1..] + [r];
      TotalSnoc(ranks[1..], r);
    }
  }

  lemma {:induction false} TotalConstant(n: nat, r: nat)
    ensures Total(seq(n, i => r)) == n * r
  {
    if n > 0 {
      assert seq(n, i => r)[1..] == seq(n - 1, i => r);
      TotalConstant(n - 1, r);
    }
  }

  function Ranks(procs: seq<Pc>): seq<nat> {
    seq(|procs|, i requires 0 <= i < |procs| => Rank(procs[i]))
  }

  /** What has been paid for: five steps for every worker and two for every timeout. */
  ghost function Debt(s: Sys): int {
    s.steps + Total(Ranks(s.procs)) - 2 * s.timeouts - 5 * |s.procs|
  }

  lemma NextCosts(s: Sys, ev: Event)
    ensures Debt(Next(s, ev)) <= Debt(s)
  {
    var t := Next(s, ev);
    if ev.Spawn? {
      assert Ranks(t.procs) == Ranks(s.procs) + [5];
      TotalSnoc(Ranks(s.procs), 5);
    } else if ev.w < |s.procs| {
      assert Ranks(t.procs) == Ranks(s.procs)[ev.w := Rank(t.procs[ev.w])];
      TotalUpdate(Ranks(s.procs), ev.w, Rank(t.procs[ev.w]));
    }
  }

  lemma {:induction false} RunCosts(s: Sys, evs: seq<Event>)
    ensures Debt(Run(s, evs)) <= Debt(s)
    decreases |evs|
  {
    if evs != [] {
      NextCosts(s, evs[0]);
      RunCosts(Next(s, evs[0]), evs[1..]);
    }
  }

  /** All workers together, later ones included, take at most five steps each plus two for every
      timeout. */
  lemma StepsAreBounded(n: nat, evs: seq<Event>)
    ensures var s := Run(Start(n), evs); s.steps <= 5 * |s.procs| + 2 * s.timeouts
  {
    RunCosts(Start(n), evs);
    assert Ranks(Start(n).procs) == seq(n, i => 5);
    TotalConstant(n, 5);
  }
}
