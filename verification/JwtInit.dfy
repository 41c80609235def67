/** jwt_init: every worker makes sure the JWT signing key exists before it serves requests. */
module JwtInit {
  import opened Wrappers
  import L = LockProtocol

  type KeyId = nat

  /** `Release(generated)` also carries whether this worker made the key; the two aborts are
      exceptions raised inside the lock, before and after the key was written. */
  datatype Pc =
    | Check | Acquire | Recheck | GenKey | GenPub | Release(generated: bool)
    | AbortEarly | AbortLate | CopyPub | Returned | Raised | Gone

  /** `key` and `genPub` are what the generator writes, `pub` the copy in the public key directory.
      `lost` records that a worker failed or crashed between writing the key and copying; `starts`
      counts the generations begun and `keygens` the keys written. */
  datatype Sys = Sys(
    key: Option<KeyId>, genPub: bool, pub: bool, lost: bool,
    holder: Option<nat>, procs: seq<Pc>, starts: nat, keygens: nat, timeouts: nat, steps: nat)

  /** `usable` is whether the issuer accepts a key file that is there, `ok` whether the step's
      effect succeeds, `key` the fresh random key. */
  datatype Env = Env(ok: bool, usable: bool, key: KeyId)

  datatype Event = Act(w: nat, e: Env) | Crash(w: nat) | Spawn

  /** A step or crash of a worker there is. */
  predicate OfWorker(s: Sys, ev: Event) {
    !ev.Spawn? && ev.w < |s.procs|
  }

  function Start(n: nat): Sys {
    Sys(None, false, false, false, None, seq(n, i => Check), 0, 0, 0, 0)
  }

  predicate Done(pc: Pc) {
    pc.Returned? || pc.Raised? || pc.Gone?
  }

  /** Where a worker's step takes it. */
  function Goes(s: Sys, pc: Pc, e: Env): Pc {
    match pc
    case Check => if e.usable && s.key.Some? then Returned else Acquire
    case Acquire => if s.holder.None? then Recheck else Check
    case Recheck => if s.key.Some? then Release(false) else GenKey
    case GenKey => if e.ok then GenPub else AbortEarly
    case GenPub => if e.ok then Release(true) else AbortLate
    case Release(generated) => if generated then CopyPub else Returned
    case AbortEarly => Raised
    case AbortLate => Raised
    case CopyPub => if e.ok && s.key.Some? && s.genPub then Returned else Raised
    case _ => pc
  }

  /** Between writing the key and copying the public key. */
  predicate Making(pc: Pc) {
    pc.GenPub? || pc.CopyPub? || (pc.Release? && pc.generated)
  }

  /** What the step does to the files and the lock. */
  function Effect(s: Sys, w: nat, pc: Pc, e: Env): Sys {
    match pc
    case Acquire => if s.holder.None? then s.(holder := Some(w)) else s.(timeouts := s.timeouts + 1)
    case Recheck => if s.key.Some? then s else s.(starts := s.starts + 1)
    case GenKey => if e.ok then s.(key := Some(e.key), keygens := s.keygens + 1) else s
    case GenPub => if e.ok then s.(genPub := true) else s.(lost := true)
    case Release(_) => s.(holder := None)
    case AbortEarly => s.(holder := None)
    case AbortLate => s.(holder := None)
    case CopyPub => if e.ok && s.key.Some? && s.genPub then s.(pub := true) else s.(lost := true)
    case _ => s
  }

  function Next(s: Sys, ev: Event): Sys {
    match ev
    case Spawn => s.(procs := s.procs + [Check])
    case Crash(w) =>
      if w >= |s.procs| then s
      else
        s.(procs := s.procs[w := Gone], holder := if s.holder == Some(w) then None else s.holder,
           lost := s.lost || Making(s.procs[w]))
    case Act(w, e) =>
      if w >= |s.procs| || Done(s.procs[w]) then s
      else
        var pc := s.procs[w];
        Effect(s, w, pc, e).(procs := s.procs[w := Goes(s, pc, e)], steps := s.steps + 1)
  }

  function Run(s: Sys, evs: seq<Event>): Sys
    decreases |evs|
  {
    if evs == [] then s else Run(Next(s, evs[0]), evs[1..])
  }

  lemma {:induction false} RunConcat(s: Sys, evs: seq<Event>, more: seq<Event>)
    ensures Run(s, evs + more) == Run(Run(s, evs), more)
    decreases |evs|
  {
    if evs == [] {
      assert evs + more == more;
    } else {
      RunConcat(Next(s, evs[0]), evs[1..], more);
      assert (evs + more)[1..] == evs[1..] + more;
    }
  }

  lemma RunSnoc(s: Sys, evs: seq<Event>, ev: Event)
    ensures Run(s, evs + [ev]) == Next(Run(s, evs), ev)
  {
    RunConcat(s, evs, [ev]);
    assert [ev][1..] == [];
  }

  // ---- Refinement of the shared protocol -----------------------------------------------

  function AbsPc(pc: Pc): L.Pc {
    match pc
    case Check => L.Check
    case Acquire => L.Acquire
    case Recheck => L.Recheck
    case GenKey => L.Body
    case AbortEarly => L.Body
    case GenPub => L.Release
    case Release(_) => L.Release
    case AbortLate => L.Release
    case CopyPub => L.Returned
    case Returned => L.Returned
    case Raised => L.Gone
    case Gone => L.Gone
  }

  ghost predicate SameScalars(s: Sys, g: L.Sys) {
    && g.made == s.key.Some? && g.holder == s.holder && g.timeouts == s.timeouts
    && g.starts == s.starts && g.bodies == s.keygens
  }

  ghost predicate Refines(s: Sys, g: L.Sys) {
    && SameScalars(s, g)
    && |g.procs| == |s.procs| && forall w | 0 <= w < |s.procs| :: g.procs[w] == AbsPc(s.procs[w])
  }

  /** The step of the shared protocol a step corresponds to, if it is not a step of its own. */
  function AbsEvent(s: Sys, ev: Event): Option<L.Event> {
    if ev.Spawn? then Some(L.Spawn)
    else if ev.w >= |s.procs| then None
    else
      match ev
      case Crash(w) => Some(L.Crash(w))
      case Act(w, e) =>
        match s.procs[w]
        case Check => Some(L.Act(w, e.usable && s.key.Some?))
        case GenKey => if e.ok then Some(L.Act(w, false)) else None
        case GenPub => None
        case AbortEarly => Some(L.Crash(w))
        case AbortLate => Some(L.Crash(w))
        case CopyPub => if e.ok && s.key.Some? && s.genPub then None else Some(L.Crash(w))
        case Acquire => Some(L.Act(w, false))
        case Recheck => Some(L.Act(w, false))
        case Release(_) => Some(L.Act(w, false))
        case _ => None
  }

  function AbsEvents(s: Sys, evs: seq<Event>): seq<L.Event>
    decreases |evs|
  {
    if evs == [] then []
    else
      var rest := AbsEvents(Next(s, evs[0]), evs[1..]);
      var first := AbsEvent(s, evs[0]);
      if first.Some? then [first.value] + rest else rest
  }

  lemma OnlyActorMoves(s: Sys, ev: Event)
    requires OfWorker(s, ev)
    ensures |Next(s, ev).procs| == |s.procs|
    ensures Next(s, ev).procs == s.procs[ev.w := Next(s, ev).procs[ev.w]]
  {
  }

  lemma GoesRefines(s: Sys, g: L.Sys, w: nat, e: Env)
    requires SameScalars(s, g) && w < |s.procs| && !Done(s.procs[w])
    ensures var pc, a := s.procs[w], AbsEvent(s, Act(w, e));
            AbsPc(Goes(s, pc, e)) == match a
                                     case None => AbsPc(pc)
                                     case Some(Act(_, found)) => L.Goes(g, AbsPc(pc), found)
                                     case Some(Crash(_)) => L.Gone
  {
  }

  lemma EffectRefines(s: Sys, g: L.Sys, w: nat, e: Env)
    requires SameScalars(s, g) && w < |s.procs| && !Done(s.procs[w])
    requires L.Critical(AbsPc(s.procs[w])) <==> s.holder == Some(w)
    ensures var pc, a := s.procs[w], AbsEvent(s, Act(w, e));
            SameScalars(Effect(s, w, pc, e),
                        match a
                        case None => g
                        case Some(Act(_, _)) => L.Effect(g, w, AbsPc(pc))
                        case Some(Crash(_)) => g.(holder := if g.holder == Some(w) then None else g.holder))
  {
  }

  lemma CrashRefines(s: Sys, g: L.Sys, w: nat)
    requires Refines(s, g) && w < |s.procs|
    ensures var t, h := Next(s, Crash(w)), L.Next(g, L.Crash(w));
            && |h.procs| == |t.procs| == |s.procs| && h.procs == g.procs[w := h.procs[w]]
            && h.procs[w] == AbsPc(t.procs[w])
            && SameScalars(t, h)
  {
  }

  lemma ActorRefines(s: Sys, g: L.Sys, ev: Event)
    requires Refines(s, g) && L.Inv(g) && OfWorker(s, ev)
    ensures var a := AbsEvent(s, ev);
            var t, h := Next(s, ev), if a.Some? then L.Next(g, a.value) else g;
            && |h.procs| == |t.procs| == |s.procs| && h.procs == g.procs[ev.w := h.procs[ev.w]]
            && h.procs[ev.w] == AbsPc(t.procs[ev.w])
            && SameScalars(t, h)
  {
    assert g.procs[ev.w] == AbsPc(s.procs[ev.w]);
    if ev.Crash? {
      CrashRefines(s, g, ev.w);
    } else if !Done(s.procs[ev.w]) {
      GoesRefines(s, g, ev.w, ev.e);
      EffectRefines(s, g, ev.w, ev.e);
    }
  }

  lemma NextRefines(s: Sys, g: L.Sys, ev: Event)
    requires Refines(s, g) && L.Inv(g)
    ensures var a := AbsEvent(s, ev);
            Refines(Next(s, ev), if a.Some? then L.Next(g, a.value) else g)
  {
    if OfWorker(s, ev) {
      OnlyActorMoves(s, ev);
      ActorRefines(s, g, ev);
    }
  }

  lemma {:induction false} RunRefines(s: Sys, g: L.Sys, evs: seq<Event>)
    requires Refines(s, g) && L.Inv(g)
    ensures Refines(Run(s, evs), L.Run(g, AbsEvents(s, evs))) && L.Inv(L.Run(g, AbsEvents(s, evs)))
    decreases |evs|
  {
    if evs != [] {
      var a := AbsEvent(s, evs[0]);
      var h := if a.Some? then L.Next(g, a.value) else g;
      NextRefines(s, g, evs[0]);
      if a.Some? {
        L.NextKeeps(g, a.value);
        assert AbsEvents(s, evs)[1..] == AbsEvents(Next(s, evs[0]), evs[1..]);
      }
      RunRefines(Next(s, evs[0]), h, evs[1..]);
    }
  }

  /** jwt_init is an instance of the shared protocol, whose body is the writing of the key: every
      run of the workers is a run of the protocol that makes and locks the same things. */
  lemma IsLockProtocol(n: nat, evs: seq<Event>)
    ensures Refines(Run(Start(n), evs), L.Run(L.Start(n), AbsEvents(Start(n), evs)))
  {
    RunRefines(Start(n), L.Start(n), evs);
  }

  // ---- What follows --------------------------------------------------------------------

  /** The key is generated at most once over all workers, crashes or not, and whoever returns
      normally leaves it present. */
  lemma KeyGeneratedOnce(n: nat, evs: seq<Event>)
    ensures var s := Run(Start(n), evs);
            && s.keygens <= 1
            && forall w | 0 <= w < |s.procs| && s.procs[w].Returned? :: s.key.Some?
  {
    RunRefines(Start(n), L.Start(n), evs);
    L.GuardedOnce(n, AbsEvents(Start(n), evs));
  }

  /** No crash and no failing step. */
  predicate Calm(evs: seq<Event>) {
    forall i | 0 <= i < |evs| :: !evs[i].Crash? && (evs[i].Act? ==> evs[i].e.ok)
  }

  lemma NobodyAbortsNext(s: Sys, g: L.Sys, ev: Event)
    requires Refines(s, g) && !ev.Crash? && (ev.Act? ==> ev.e.ok)
    requires forall w | 0 <= w < |s.procs| :: !s.procs[w].AbortEarly?
    ensures var a := AbsEvent(s, ev);
            (if a.Some? then L.Next(g, a.value) else g).aborted == g.aborted
    ensures forall w | 0 <= w < |Next(s, ev).procs| :: !Next(s, ev).procs[w].AbortEarly?
  {
    if OfWorker(s, ev) {
      OnlyActorMoves(s, ev);
      assert g.procs[ev.w] == AbsPc(s.procs[ev.w]);
    }
  }

  lemma {:induction false} NobodyAborts(s: Sys, g: L.Sys, evs: seq<Event>)
    requires Refines(s, g) && L.Inv(g) && Calm(evs)
    requires forall w | 0 <= w < |s.procs| :: !s.procs[w].AbortEarly?
    ensures L.Run(g, AbsEvents(s, evs)).aborted == g.aborted
    decreases |evs|
  {
    if evs != [] {
      var a := AbsEvent(s, evs[0]);
      var h := if a.Some? then L.Next(g, a.value) else g;
      assert !evs[0].Crash? && (evs[0].Act? ==> evs[0].e.ok);
      NextRefines(s, g, evs[0]);
      NobodyAbortsNext(s, g, evs[0]);
      if a.Some? {
        L.NextKeeps(g, a.value);
        assert AbsEvents(s, evs)[1..] == AbsEvents(Next(s, evs[0]), evs[1..]);
      }
      NobodyAborts(Next(s, evs[0]), h, evs[1..]);
    }
  }

  /** And in runs without crashes and failures it is not even begun twice. */
  lemma GenerationBegunOnce(n: nat, evs: seq<Event>)
    requires Calm(evs)
    ensures Run(Start(n), evs).starts <= 1
  {
    RunRefines(Start(n), L.Start(n), evs);
    NobodyAborts(Start(n), L.Start(n), evs);
    L.GuardedOnce(n, AbsEvents(Start(n), evs));
  }

  lemma KeyNextKept(s: Sys, g: L.Sys, ev: Event)
    requires Refines(s, g) && L.Inv(g) && s.key.Some?
    ensures Next(s, ev).key == s.key
  {
    if OfWorker(s, ev) {
      assert !g.procs[ev.w].Body?;
    }
  }

  lemma {:induction false} KeyKept(s: Sys, g: L.Sys, evs: seq<Event>)
    requires Refines(s, g) && L.Inv(g) && s.key.Some?
    ensures Run(s, evs).key == s.key
    decreases |evs|
  {
    if evs != [] {
      KeyNextKept(s, g, evs[0]);
      var one := evs[..1];
      assert Run(s, one) == Run(Next(s, evs[0]), one[1..]) == Next(s, evs[0]);
      RunRefines(s, g, one);
      KeyKept(Next(s, evs[0]), L.Run(g, AbsEvents(s, one)), evs[1..]);
    }
  }

  /** A key that exists is never overwritten, even with crashes, and also when the issuer finds it
      unusable: the message logged in that case says the opposite of what the code does. */
  lemma KeyIsNeverOverwritten(n: nat, evs: seq<Event>, more: seq<Event>)
    requires Run(Start(n), evs).key.Some?
    ensures Run(Run(Start(n), evs), more).key == Run(Start(n), evs).key
  {
    RunRefines(Start(n), L.Start(n), evs);
    KeyKept(Run(Start(n), evs), L.Run(L.Start(n), AbsEvents(Start(n), evs)), more);
  }

  // ---- The public key ------------------------------------------------------------------

  predicate NoneMaking(s: Sys) {
    forall w | 0 <= w < |s.procs| :: !Making(s.procs[w])
  }

  /** Of a key that is there, the public key is copied, being copied by one worker, or lost. */
  ghost predicate PubInv(s: Sys) {
    && (s.key.None? ==> !s.pub && !s.lost && NoneMaking(s))
    && (forall v, w | 0 <= v < |s.procs| && 0 <= w < |s.procs| && Making(s.procs[v]) && Making(s.procs[w]) :: v == w)
    && (forall w | 0 <= w < |s.procs| && Making(s.procs[w]) :: !s.pub && !s.lost && (s.genPub || s.procs[w].GenPub?))
    && (s.key.Some? && NoneMaking(s) ==> s.pub != s.lost)
  }

  predicate Fallen(pc: Pc) {
    pc.AbortLate? || pc.Raised? || pc.Gone?
  }

  ghost predicate LostInv(s: Sys) {
    s.lost ==> exists w :: 0 <= w < |s.procs| && Fallen(s.procs[w])
  }

  lemma LostNext(s: Sys, ev: Event)
    requires LostInv(s)
    ensures LostInv(Next(s, ev))
  {
    var t := Next(s, ev);
    if OfWorker(s, ev) {
      OnlyActorMoves(s, ev);
    }
    if s.lost {
      var w :| 0 <= w < |s.procs| && Fallen(s.procs[w]);
      assert Fallen(t.procs[w]);
    } else if t.lost {
      assert Fallen(t.procs[ev.w]);
    }
  }

  lemma PubSpawn(s: Sys)
    requires PubInv(s)
    ensures PubInv(Next(s, Spawn))
  {
    var t := Next(s, Spawn);
    assert forall w | 0 <= w < |s.procs| :: t.procs[w] == s.procs[w];
    assert NoneMaking(t) ==> NoneMaking(s);
  }

  lemma PubNext(s: Sys, ev: Event)
    requires PubInv(s) && (OfWorker(s, ev) && s.procs[ev.w].GenKey? ==> s.key.None?)
    ensures PubInv(Next(s, ev))
  {
    if ev.Spawn? {
      PubSpawn(s);
    } else if OfWorker(s, ev) {
      var t := Next(s, ev);
      OnlyActorMoves(s, ev);
      if Making(t.procs[ev.w]) {
        assert !NoneMaking(t);
      } else if NoneMaking(t) && !Making(s.procs[ev.w]) {
        assert forall w | 0 <= w < |s.procs| :: w == ev.w || t.procs[w] == s.procs[w];
        assert NoneMaking(s);
      }
    }
  }

  lemma {:induction false} PubKept(s: Sys, g: L.Sys, evs: seq<Event>)
    requires PubInv(s) && LostInv(s) && Refines(s, g) && L.Inv(g)
    ensures PubInv(Run(s, evs)) && LostInv(Run(s, evs))
    decreases |evs|
  {
    if evs != [] {
      assert OfWorker(s, evs[0]) && s.procs[evs[0].w].GenKey? ==> g.procs[evs[0].w].Body?;
      PubNext(s, evs[0]);
      LostNext(s, evs[0]);
      var one := evs[..1];
      assert Run(s, one) == Run(Next(s, evs[0]), one[1..]) == Next(s, evs[0]);
      RunRefines(s, g, one);
      PubKept(Next(s, evs[0]), L.Run(g, AbsEvents(s, one)), evs[1..]);
    }
  }

  /** With the key there and nobody on the way to copying the public key, it has been copied exactly
      when no worker was lost on that way. */
  lemma PublicKeyCopiedIff(n: nat, evs: seq<Event>)
    requires var s := Run(Start(n), evs); s.key.Some? && NoneMaking(s)
    ensures var s := Run(Start(n), evs); s.pub <==> !s.lost
  {
    PubKept(Start(n), L.Start(n), evs);
  }

  /** So when every worker has returned normally it has been copied; one of them alone may return
      before that. */
  lemma PublicKeyCopied(n: nat, evs: seq<Event>)
    requires var s := Run(Start(n), evs); s.key.Some? && forall w | 0 <= w < |s.procs| :: s.procs[w].Returned?
    ensures Run(Start(n), evs).pub
  {
    PubKept(Start(n), L.Start(n), evs);
    PublicKeyCopiedIff(n, evs);
  }

  lemma {:induction false} NobodyCopies(s: Sys, evs: seq<Event>)
    requires s.key.Some? && !s.pub && NoneMaking(s)
    requires forall w | 0 <= w < |s.procs| :: !s.procs[w].GenKey?
    ensures !Run(s, evs).pub
    decreases |evs|
  {
    if evs != [] {
      if OfWorker(s, evs[0]) {
        OnlyActorMoves(s, evs[0]);
      }
      NobodyCopies(Next(s, evs[0]), evs[1..]);
    }
  }

  /** Left alone, the worker gets to copying the public key. */
  predicate CanCopy(s: Sys, w: nat) {
    && w < |s.procs|
    && match s.procs[w]
       case Check => s.key.None? && s.holder.None?
       case Acquire => s.key.None? && s.holder.None?
       case Recheck => s.key.None?
       case GenKey => s.key.None?
       case pc => s.key.Some? && Making(pc) && (s.genPub || pc.GenPub?)
  }

  lemma {:induction false} GetsToCopying(s: Sys, w: nat) returns (evs: seq<Event>)
    requires CanCopy(s, w)
    ensures Copies(s, evs)
    decreases Rank(s.procs[w])
  {
    var act := Act(w, Env(true, true, 0));
    var t := Next(s, act);
    if s.procs[w].CopyPub? {
      evs := [act];
      assert Run(s, evs) == Run(t, evs[1..]) == t;
    } else {
      var rest := GetsToCopying(t, w);
      evs := [act] + rest;
      assert evs[1..] == rest;
    }
  }

  lemma {:induction false} NewWorkerCopies(s: Sys) returns (evs: seq<Event>)
    requires s.key.None? && (s.holder.Some? ==> s.holder.value < |s.procs|)
    ensures Copies(s, evs)
    decreases if s.holder.Some? then 1 else 0
  {
    if s.holder.None? {
      var rest := GetsToCopying(Next(s, Spawn), |s.procs|);
      evs := [Spawn] + rest;
      assert evs[1..] == rest;
    } else {
      var lost := Crash(s.holder.value);
      var rest := NewWorkerCopies(Next(s, lost));
      evs := [lost] + rest;
      assert evs[1..] == rest;
    }
  }

  ghost predicate Copies(s: Sys, evs: seq<Event>) {
    Run(s, evs).pub
  }

  /** From any reachable state some continuation has the public key exactly when it is copied already,
      or a worker is on its way from writing the key to copying, or there is no key yet: once it is
      there, whoever comes later looks no further. */
  lemma CopiedLaterIff(n: nat, evs: seq<Event>)
    ensures var s := Run(Start(n), evs);
            (exists more :: Copies(s, more))
            <==> s.pub || s.key.None? || exists w :: 0 <= w < |s.procs| && Making(s.procs[w])
  {
    var s, g := Run(Start(n), evs), L.Run(L.Start(n), AbsEvents(Start(n), evs));
    RunRefines(Start(n), L.Start(n), evs);
    PubKept(Start(n), L.Start(n), evs);
    if s.pub {
      assert Copies(s, []);
    } else if s.key.None? {
      var more := NewWorkerCopies(s);
    } else if !NoneMaking(s) {
      var w :| 0 <= w < |s.procs| && Making(s.procs[w]);
      var more := GetsToCopying(s, w);
    } else {
      forall w | 0 <= w < |s.procs| ensures !s.procs[w].GenKey? {
        assert g.procs[w] == AbsPc(s.procs[w]);
      }
      forall more ensures !Copies(s, more) {
        NobodyCopies(s, more);
      }
    }
  }

  const ACT := Act(0, Env(true, false, 7))

  lemma FirstLocks()
    ensures Run(Start(1), [ACT, ACT]) == Start(1).(procs := [Recheck], holder := Some(0), steps := 2)
  {
    assert [ACT, ACT][1..] == [ACT] && [ACT][1..] == [];
    assert Start(1).procs == [Check];
    assert Next(Start(1), ACT) == Start(1).(procs := [Acquire], steps := 1);
    assert Run(Start(1), [ACT, ACT]) == Run(Next(Next(Start(1), ACT), ACT), []);
  }

  /** A worker that is lost right after writing the key: whoever is started later, and however many,
      the public key stays missing. */
  lemma LostCopyIsReachable() returns (evs: seq<Event>)
    ensures var s := Run(Start(1), evs);
            s.key.Some? && s.procs == [Gone] && forall more :: !Run(s, more).pub
  {
    var second := [ACT, ACT, Crash(0)];
    evs := [ACT, ACT] + second;
    RunConcat(Start(1), [ACT, ACT], second);
    FirstLocks();
    var locked := Start(1).(procs := [Recheck], holder := Some(0), steps := 2);
    assert second[1..] == [ACT, Crash(0)] && second[1..][1..] == [Crash(0)] && [Crash(0)][1..] == [];
    var written := Next(Next(locked, ACT), ACT);
    assert written.procs == [GenPub];
    assert Run(locked, second) == Run(written, [Crash(0)]) == Run(Next(written, Crash(0)), []);
    forall more ensures !Run(Next(written, Crash(0)), more).pub {
      NobodyCopies(Next(written, Crash(0)), more);
    }
  }

  // ---- Bounded work --------------------------------------------------------------------

  function Rank(pc: Pc): nat {
    match pc
    case Check => 7
    case Acquire => 6
    case Recheck => 5
    case GenKey => 4
    case GenPub => 3
    case Release(_) => 2
    case AbortEarly => 1
    case AbortLate => 1
    case CopyPub => 1
    case _ => 0
  }

  function Ranks(procs: seq<Pc>): seq<nat> {
    seq(|procs|, i requires 0 <= i < |procs| => Rank(procs[i]))
  }

  lemma StepCosts(s: Sys, ev: Event)
    requires OfWorker(s, ev)
    ensures var t := Next(s, ev);
            t.steps + Rank(t.procs[ev.w]) - 2 * t.timeouts <= s.steps + Rank(s.procs[ev.w]) - 2 * s.timeouts
  {
  }

  /** What has been paid for: seven steps for every worker and two for every timeout. */
  ghost function Debt(s: Sys): int {
    s.steps + L.Total(Ranks(s.procs)) - 2 * s.timeouts - 7 * |s.procs|
  }

  lemma NextCosts(s: Sys, ev: Event)
    ensures Debt(Next(s, ev)) <= Debt(s)
  {
    var t := Next(s, ev);
    if ev.Spawn? {
      assert Ranks(t.procs) == Ranks(s.procs) + [7];
      L.TotalSnoc(Ranks(s.procs), 7);
    } else if OfWorker(s, ev) {
      OnlyActorMoves(s, ev);
      StepCosts(s, ev);
      assert Ranks(t.procs) == Ranks(s.procs)[ev.w := Rank(t.procs[ev.w])];
      L.TotalUpdate(Ranks(s.procs), ev.w, Rank(t.procs[ev.w]));
    }
  }

  lemma {:induction false} RunCosts(s: Sys, evs: seq<Event>)
    ensures Debt(Run(s, evs)) <= Debt(s)
    decreases |evs|
  {
    if evs != [] {
      NextCosts(s, evs[0]);
      RunCosts(Next(s, evs[0]), evs[1..]);
    }
  }

  /** All workers together, later ones included, take at most seven steps each plus two for every
      timeout. */
  lemma StepsAreBounded(n: nat, evs: seq<Event>)
    ensures var s := Run(Start(n), evs); s.steps <= 7 * |s.procs| + 2 * s.timeouts
  {
    RunCosts(Start(n), evs);
    assert Ranks(Start(n).procs) == seq(n, i => 7);
    L.TotalConstant(n, 7);
  }

  lemma TimeoutStep(s: Sys, w: nat, e: Env)
    requires Next(s, Act(w, e)).timeouts > s.timeouts
    ensures w < |s.procs| && s.procs[w].Acquire? && s.holder.Some?
  {
  }

  lemma TimeoutMeansHeld(n: nat, evs: seq<Event>, w: nat, e: Env)
    requires var s := Run(Start(n), evs); Next(s, Act(w, e)).timeouts > s.timeouts
    ensures var s := Run(Start(n), evs);
            exists v :: 0 <= v < |s.procs| && v != w && L.Critical(AbsPc(s.procs[v]))
  {
    var s, g := Run(Start(n), evs), L.Run(L.Start(n), AbsEvents(Start(n), evs));
    RunRefines(Start(n), L.Start(n), evs);
    TimeoutStep(s, w, e);
    var h := s.holder.value;
    assert L.Critical(g.procs[h]) && g.procs[h] == AbsPc(s.procs[h]);
    assert g.procs[w] == L.Acquire;
  }

  // ---- The function itself -------------------------------------------------------------

  predicate Foreign(ev: Event, w: nat) {
    ev.Spawn? || ev.w != w
  }

  lemma {:induction false} OthersKeep(s: Sys, w: nat, evs: seq<Event>)
    requires w < |s.procs| && forall i | 0 <= i < |evs| :: Foreign(evs[i], w)
    ensures w < |Run(s, evs).procs| && Run(s, evs).procs[w] == s.procs[w]
    ensures Run(s, evs).timeouts >= s.timeouts
    decreases |evs|
  {
    if evs != [] {
      OthersKeep(Next(s, evs[0]), w, evs[1..]);
    }
  }

  datatype Outcome = ReturnedNormally | RaisedError | StillWaiting

  /** The key files and the lock, as one worker running jwt_init sees them. `trace` records every
      step, this worker's and the others'. */
  class Host {
    var key: Option<KeyId>
    var genPub: bool
    var pub: bool
    var lost: bool
    var holder: Option<nat>
    var procs: seq<Pc>
    var starts: nat
    var keygens: nat
    var timeouts: nat
    var steps: nat
    ghost const origin: Sys
    ghost var trace: seq<Event>

    function State(): Sys
      reads this
    {
      Sys(key, genPub, pub, lost, holder, procs, starts, keygens, timeouts, steps)
    }

    /** The fields are what the recorded run of all the workers has made of them. */
    ghost predicate Valid()
      reads this
    {
      origin == Start(|origin.procs|) && State() == Run(origin, trace)
    }

    constructor (n: nat)
      ensures Valid() && State() == Start(n)
    {
      key, genPub, pub, lost, holder := None, false, false, false, None;
      procs, starts, keygens, timeouts, steps := seq(n, i => Check), 0, 0, 0, 0;
      origin, trace := Start(n), [];
    }

    /** Other workers run while this one is suspended. */
    method Others(w: nat, evs: seq<Event>)
      requires Valid() && w < |procs| && forall i | 0 <= i < |evs| :: Foreign(evs[i], w)
      modifies this
      ensures Valid() && trace == old(trace) + evs && w < |procs| && procs[w] == old(procs)[w]
      ensures timeouts >= old(timeouts)
    {
      OthersKeep(State(), w, evs);
      RunConcat(origin, trace, evs);
      var t := Run(State(), evs);
      key, genPub, pub, lost, holder := t.key, t.genPub, t.pub, t.lost, t.holder;
      procs, starts, keygens, timeouts, steps := t.procs, t.starts, t.keygens, t.timeouts, t.steps;
      trace := trace + evs;
    }

    /** This worker gets to its next step; `e` is what the environment did in the last one. */
    method Move(w: nat, pc: Pc, ghost before: Sys, ghost e: Env)
      requires w < |procs| && !Done(procs[w])
      requires before == Run(origin, trace) && origin == Start(|origin.procs|)
      requires before.procs == procs && before.steps == steps
      requires pc == Goes(before, procs[w], e) && State() == Effect(before, w, procs[w], e)
      modifies this`procs, this`steps, this`trace
      ensures Valid() && procs == old(procs)[w := pc] && trace == old(trace) + [Act(w, e)]
    {
      RunSnoc(origin, trace, Act(w, e));
      procs, steps, trace := procs[w := pc], steps + 1, trace + [Act(w, e)];
    }

    /** Tries the lock once, without waiting. */
    method TryLock(w: nat, env: nat -> Env, others: nat -> seq<Event>) returns (got: bool)
      requires Valid() && w < |procs| && procs[w] == Acquire
      requires forall k, i | 0 <= i < |others(k)| :: Foreign(others(k)[i], w)
      modifies this
      ensures Valid() && w < |procs| && procs[w] == (if got then Recheck else Check) && old(trace) <= trace
      ensures !got ==> timeouts > old(timeouts)
    {
      ghost var s := State();
      got := holder.None?;
      if got {
        holder := Some(w);
        Move(w, Recheck, s, env(1));
      } else {
        timeouts := timeouts + 1;
        Move(w, Check, s, env(1));
      }
      Others(w, others(1));
    }

    /** The try block after the lock is taken: looks for the key again and makes the pair if it is
        not there. */
    method Generate(w: nat, env: nat -> Env, others: nat -> seq<Event>) returns (end: Pc)
      requires Valid() && w < |procs| && procs[w] == Recheck
      requires forall k, i | 0 <= i < |others(k)| :: Foreign(others(k)[i], w)
      modifies this
      ensures Valid() && w < |procs| && procs[w] == end && old(trace) <= trace
      ensures end.Release? || end.AbortEarly? || end.AbortLate?
    {
      if key.Some? {
        end := Release(false);
        Move(w, end, State(), env(2));
        return;
      }
      ghost var s := State();
      starts := starts + 1;
      Move(w, GenKey, s, env(2));
      Others(w, others(2));
      end := GenerateKey(w, env, others);
    }

    method GenerateKey(w: nat, env: nat -> Env, others: nat -> seq<Event>) returns (end: Pc)
      requires Valid() && w < |procs| && procs[w] == GenKey
      requires forall k, i | 0 <= i < |others(k)| :: Foreign(others(k)[i], w)
      modifies this
      ensures Valid() && w < |procs| && procs[w] == end && old(trace) <= trace
      ensures end.Release? || end.AbortEarly? || end.AbortLate?
    {
      ghost var s := State();
      if !env(3).ok {
        end := AbortEarly;
        Move(w, end, s, env(3));
        return;
      }
      key, keygens := Some(env(3).key), keygens + 1;
      Move(w, GenPub, s, env(3));
      Others(w, others(3));
      end := GeneratePublic(w, env(4));
    }

    method GeneratePublic(w: nat, e: Env) returns (end: Pc)
      requires Valid() && w < |procs| && procs[w] == GenPub
      modifies this
      ensures Valid() && w < |procs| && procs[w] == end && old(trace) <= trace
      ensures end == if e.ok then Release(true) else AbortLate
    {
      ghost var s := State();
      if e.ok {
        genPub, end := true, Release(true);
      } else {
        lost, end := true, AbortLate;
      }
      Move(w, end, s, e);
    }

    /** The finally block, and the return or re-raise after it. */
    method Unlock(w: nat, end: Pc, ghost e: Env)
      requires Valid() && w < |procs| && procs[w] == end && (end.Release? || end.AbortEarly? || end.AbortLate?)
      modifies this
      ensures Valid() && trace == old(trace) + [Act(w, e)]
      ensures procs == old(procs)[w := if !end.Release? then Raised else if end.generated then CopyPub else Returned]
    {
      ghost var s := State();
      holder := None;
      Move(w, if !end.Release? then Raised else if end.generated then CopyPub else Returned, s, e);
    }

    /** Copies the generated public key after the lock is released. */
    method CopyPublicKey(w: nat, e: Env) returns (r: Outcome)
      requires Valid() && w < |procs| && procs[w] == CopyPub
      modifies this
      ensures Valid() && trace == old(trace) + [Act(w, e)]
      ensures procs == old(procs)[w := if r.ReturnedNormally? then Returned else Raised] && !r.StillWaiting?
      ensures r.ReturnedNormally? ==> pub
    {
      ghost var s := State();
      if e.ok && key.Some? && genPub {
        pub := true;
        Move(w, Returned, s, e);
        r := ReturnedNormally;
      } else {
        lost := true;
        Move(w, Raised, s, e);
        r := RaisedError;
      }
    }

    /** jwt_init, followed for as many attempts at the lock as given. Whatever the other workers do
        in between, a normal return leaves the key present, a key that was there is still the same,
        and no more than one was ever made. */
    method JwtInit(w: nat, attempts: nat, env: (nat, nat) -> Env, others: (nat, nat) -> seq<Event>) returns (r: Outcome)
      requires Valid() && w < |procs| && procs[w] == Check
      requires forall a, k, i | 0 <= i < |others(a, k)| :: Foreign(others(a, k)[i], w)
      modifies this
      ensures Valid() && old(trace) <= trace
      ensures r.ReturnedNormally? ==> key.Some?
      ensures old(key).Some? ==> key == old(key)
      ensures keygens <= 1
      ensures w < |procs| && procs[w] == (if r.ReturnedNormally? then Returned else if r.RaisedError? then Raised
                                          else Check)
      ensures r.StillWaiting? ==> timeouts > old(timeouts) + attempts
      ensures (old(key).Some? && env(attempts, 0).usable
               <==> r.ReturnedNormally? && trace == old(trace) + [Act(w, env(attempts, 0))])
    {
      r := Attempts(w, attempts, env, others);
      KeyGeneratedOnce(|origin.procs|, trace);
      if old(key).Some? {
        var more := trace[|old(trace)|..];
        assert trace == old(trace) + more;
        RunConcat(origin, old(trace), more);
        KeyIsNeverOverwritten(|origin.procs|, old(trace), more);
      }
    }

    method Attempts(w: nat, attempts: nat, env: (nat, nat) -> Env, others: (nat, nat) -> seq<Event>)
      returns (r: Outcome)
      requires Valid() && w < |procs| && procs[w] == Check
      requires forall a, k, i | 0 <= i < |others(a, k)| :: Foreign(others(a, k)[i], w)
      modifies this
      ensures Valid() && old(trace) <= trace
      ensures w < |procs| && procs[w] == (if r.ReturnedNormally? then Returned else if r.RaisedError? then Raised
                                          else Check)
      ensures r.StillWaiting? ==> timeouts > old(timeouts) + attempts
      ensures (old(key).Some? && env(attempts, 0).usable
               <==> r.ReturnedNormally? && trace == old(trace) + [Act(w, env(attempts, 0))])
      decreases attempts
    {
      if env(attempts, 0).usable && key.Some? {
        Move(w, Returned, State(), env(attempts, 0));
        return ReturnedNormally;
      }
      Move(w, Acquire, State(), env(attempts, 0));
      Others(w, others(attempts, 0));
      var got := TryLock(w, (k: nat) => env(attempts, k), (k: nat) => others(attempts, k));
      if !got {
        if attempts == 0 {
          return StillWaiting;
        }
        r := Attempts(w, attempts - 1, env, others);
        return;
      }
      r := WithLock(w, (k: nat) => env(attempts, k), (k: nat) => others(attempts, k));
    }

    /** From having the lock to the end. */
    method WithLock(w: nat, env: nat -> Env, others: nat -> seq<Event>) returns (r: Outcome)
      requires Valid() && w < |procs| && procs[w] == Recheck
      requires forall k, i | 0 <= i < |others(k)| :: Foreign(others(k)[i], w)
      modifies this
      ensures Valid() && old(trace) <= trace && !r.StillWaiting?
      ensures w < |procs| && procs[w] == (if r.ReturnedNormally? then Returned else Raised)
    {
      var end := Generate(w, env, others);
      Unlock(w, end, env(5));
      if end == Release(true) {
        Others(w, others(5));
        r := CopyPublicKey(w, env(6));
      } else {
        r := if end.Release? then ReturnedNormally else RaisedError;
      }
    }
  }
}
