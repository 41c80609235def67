/** Login codes: looked up, then marked used, then answered with a token of the stored claims. */
module LoginCodes {
  import opened Wrappers
  import opened Claims
  import Codes

  type Time = nat

  datatype Row = Row(claims: Claims, usedOn: Option<Time>, deleted: bool)

  type Table = map<string, Row>

  datatype Error = NotFound | TokenReuse | CommitFailed | NoFreeCode

  predicate Unused(rows: Table, code: string) {
    code in rows && !rows[code].deleted && rows[code].usedOn.None?
  }

  predicate Marked(rows: Table, code: string) {
    code in rows && rows[code].usedOn.Some?
  }

  function AfterCreate(rows: Table, code: string, claims: Claims): Table {
    rows[code := Row(claims, None, false)]
  }

  function AfterUse(rows: Table, code: string, now: Time, commitOk: bool): Table {
    if commitOk && Unused(rows, code) then rows[code := rows[code].(usedOn := Some(now))] else rows
  }

  // ---- The methods ---------------------------------------------------------------------

  class LoginCodes {
    var rows: Table

    constructor (rows: Table)
      ensures this.rows == rows
    {
      this.rows := rows;
    }

    /** LoginCode.create_for_claims */
    method CreateForClaims(claims: Claims, draw: nat -> string, commitOk: bool) returns (r: Result<string, Error>)
      modifies this
      ensures r.Ok? ==> r.value !in old(rows) && rows == old(rows)[r.value := Row(claims, None, false)]
      ensures r.Err? ==> rows == old(rows) && (r.error.NoFreeCode? || r.error.CommitFailed?)
      ensures r == Err(CommitFailed) ==>
                !commitOk || exists k | 0 <= k <= 100 :: draw(k) in rows && rows[draw(k)].deleted
      ensures r == Err(NoFreeCode) <==>
              (forall k | 0 <= k <= 100 :: draw(k) in old(rows) && !old(rows)[draw(k)].deleted)
    {
      var code := Codes.GenerateUnusedCode(draw, set c | c in rows && !rows[c].deleted);
      if code.Err? {
        return Err(NoFreeCode);
      }
      if !commitOk || code.value in rows {
        return Err(CommitFailed);
      }
      rows := rows[code.value := Row(claims, None, false)];
      r := Ok(code.value);
    }

    /** LoginCode.use_code. A code that is not found, or whose row is deleted, falls through the
        handler and fails on the row it does not have. */
    method UseCode(code: string, now: Time, commitOk: bool) returns (r: Result<Claims, Error>)
      modifies this
      ensures r.Ok? <==> Unused(old(rows), code) && commitOk
      ensures r.Ok? ==> r.value == old(rows)[code].claims
      ensures r == Err(NotFound) <==> code !in old(rows) || old(rows)[code].deleted
      ensures r == Err(TokenReuse) <==> code in old(rows) && !old(rows)[code].deleted && old(rows)[code].usedOn.Some?
      ensures rows == if r.Ok? then old(rows)[code := Row(r.value, Some(now), false)] else old(rows)
    {
      if code !in rows || rows[code].deleted {
        return Err(NotFound);
      }
      if rows[code].usedOn.Some? {
        return Err(TokenReuse);
      }
      if !commitOk {
        return Err(CommitFailed);
      }
      rows := rows[code := rows[code].(usedOn := Some(now))];
      r := Ok(rows[code].claims);
    }
  }

  // ---- Any number of requests, interleaved ---------------------------------------------

  datatype Pc =
    | Lookup(code: string)
    | Mark(code: string)
    | Answered(code: string, claims: Claims)
    | Failed

  datatype Sys = Sys(rows: Table, reqs: map<nat, Pc>)

  datatype Event =
    | Create(code: string, claims: Claims)
    | Start(id: nat, code: string)
    | Act(id: nat, ok: bool, now: Time)
    | Crash(id: nat)

  /** The mark is written whenever the row was read unused, whatever it says by then. */
  function Next(s: Sys, ev: Event): Sys {
    match ev
    case Create(code, claims) =>
      if code in s.rows then s else s.(rows := AfterCreate(s.rows, code, claims))
    case Start(id, code) =>
      if id in s.reqs then s else s.(reqs := s.reqs[id := Lookup(code)])
    case Crash(id) =>
      if id !in s.reqs || s.reqs[id].Answered? then s else s.(reqs := s.reqs[id := Failed])
    case Act(id, ok, now) =>
      if id !in s.reqs then s
      else
        match s.reqs[id]
        case Lookup(code) => s.(reqs := s.reqs[id := if Unused(s.rows, code) then Mark(code) else Failed])
        case Mark(code) =>
          if !ok || code !in s.rows then s.(reqs := s.reqs[id := Failed])
          else
            Sys(s.rows[code := s.rows[code].(usedOn := Some(now))], s.reqs[id := Answered(code, s.rows[code].claims)])
        case Answered(_, _) => s
        case Failed => s
  }

  function Run(s: Sys, evs: seq<Event>): Sys
    decreases |evs|
  {
    if evs == [] then s else Run(Next(s, evs[0]), evs[1..])
  }

  /** Rows stay, their claims never change, and a mark is never taken off. */
  predicate Later(rows: Table, later: Table) {
    forall c | c in rows ::
      && c in later && later[c].claims == rows[c].claims && later[c].deleted == rows[c].deleted
      && (rows[c].usedOn.Some? ==> later[c].usedOn.Some?)
  }

  predicate AnsweredInv(s: Sys) {
    forall r | r in s.reqs && s.reqs[r].Answered? ::
      Marked(s.rows, s.reqs[r].code) && s.rows[s.reqs[r].code].claims == s.reqs[r].claims
  }

  lemma NextKeeps(s: Sys, ev: Event)
    requires AnsweredInv(s)
    ensures AnsweredInv(Next(s, ev)) && Later(s.rows, Next(s, ev).rows)
  {
  }

  lemma {:induction false} RunKeeps(s: Sys, evs: seq<Event>)
    requires AnsweredInv(s)
    ensures AnsweredInv(Run(s, evs)) && Later(s.rows, Run(s, evs).rows)
    decreases |evs|
  {
    if evs != [] {
      NextKeeps(s, evs[0]);
      RunKeeps(Next(s, evs[0]), evs[1..]);
    }
  }

  /** Under any interleaving a request that is answered gets exactly the claims its code was made
      with, and the code is marked used for good. */
  lemma AnswerIsStoredClaims(rows: Table, evs: seq<Event>, r: nat, more: seq<Event>)
    requires var s := Run(Sys(rows, map[]), evs); r in s.reqs && s.reqs[r].Answered?
    ensures var s := Run(Sys(rows, map[]), evs);
            var code := s.reqs[r].code;
            var end := Run(s, more);
            && Marked(end.rows, code) && end.rows[code].claims == s.reqs[r].claims
            && (code in rows ==> s.reqs[r].claims == rows[code].claims)
  {
    RunKeeps(Sys(rows, map[]), evs);
    RunKeeps(Run(Sys(rows, map[]), evs), more);
  }

  /** So a request answered for a code that a creation in the same run made got exactly the claims
      given to that creation. */
  lemma AnswerIsClaimsGiven(rows: Table, before: seq<Event>, code: string, claims: Claims, after: seq<Event>, r: nat)
    requires code !in Run(Sys(rows, map[]), before).rows
    requires var s := Run(Sys(rows, map[]), before + [Create(code, claims)] + after);
             r in s.reqs && s.reqs[r].Answered? && s.reqs[r].code == code
    ensures var s := Run(Sys(rows, map[]), before + [Create(code, claims)] + after); s.reqs[r].claims == claims
  {
    var start, s := Sys(rows, map[]), Run(Sys(rows, map[]), before);
    RunConcat(start, before + [Create(code, claims)], after);
    RunConcat(start, before, [Create(code, claims)]);
    RunOne(s, Create(code, claims));
    RunKeeps(start, before);
    NextKeeps(s, Create(code, claims));
    RunKeeps(Next(s, Create(code, claims)), after);
  }

  lemma {:induction false} RunConcat(s: Sys, evs: seq<Event>, more: seq<Event>)
    ensures Run(s, evs + more) == Run(Run(s, evs), more)
    decreases |evs|
  {
    if evs == [] {
      assert evs + more == more;
    } else {
      RunConcat(Next(s, evs[0]), evs[1..], more);
      assert (evs + more)[1..] == evs[1..] + more;
    }
  }

  lemma RunOne(s: Sys, ev: Event)
    ensures Run(s, [ev]) == Next(s, ev)
  {
    assert [ev][1..] == [];
  }

  lemma RunThree(s: Sys, a: Event, b: Event, c: Event)
    ensures Run(s, [a, b, c]) == Next(Next(Next(s, a), b), c)
  {
    assert [a, b, c][1..] == [b, c] && [b, c][1..] == [c] && [c][1..] == [];
    assert Run(Next(Next(s, a), b), [c]) == Run(Next(Next(Next(s, a), b), c), []);
  }

  // ---- Who can still use a marked code -------------------------------------------------

  predicate AnsweredFor(s: Sys, r: nat, code: string) {
    r in s.reqs && s.reqs[r].Answered? && s.reqs[r].code == code
  }

  /** It has read the code unused and not committed yet. */
  predicate AboutToMark(s: Sys, r: nat, code: string) {
    r in s.reqs && s.reqs[r] == Mark(code)
  }

  function MarkOf(s: Sys, code: string): Option<Time> {
    if code in s.rows then s.rows[code].usedOn else None
  }

  /** Once a code is marked, no request that has not already read it unused is ever answered. */
  lemma {:induction false} LateRequestGetsNothing(s: Sys, evs: seq<Event>, code: string, r: nat)
    requires Marked(s.rows, code) && !AboutToMark(s, r, code) && !AnsweredFor(s, r, code)
    ensures var end := Run(s, evs);
            Marked(end.rows, code) && !AboutToMark(end, r, code) && !AnsweredFor(end, r, code)
    decreases |evs|
  {
    if evs != [] {
      LateRequestGetsNothing(Next(s, evs[0]), evs[1..], code, r);
    }
  }

  ghost predicate Answers(s: Sys, evs: seq<Event>, r: nat, code: string) {
    AnsweredFor(Run(s, evs), r, code)
  }

  ghost predicate MovesMark(s: Sys, evs: seq<Event>, code: string) {
    MarkOf(Run(s, evs), code) != MarkOf(s, code)
  }

  /** The exact boundary: of a marked code, a request not answered yet can still be answered iff it
      has read the code unused and not committed yet. */
  lemma AnswerableIff(s: Sys, code: string, r: nat)
    requires Marked(s.rows, code) && !AnsweredFor(s, r, code)
    ensures (exists evs :: Answers(s, evs, r, code)) <==> AboutToMark(s, r, code)
  {
    if AboutToMark(s, r, code) {
      RunOne(s, Act(r, true, 0));
      assert Answers(s, [Act(r, true, 0)], r, code);
    } else {
      forall evs ensures !Answers(s, evs, r, code) {
        LateRequestGetsNothing(s, evs, code, r);
      }
    }
  }

  lemma {:induction false} MarkStays(s: Sys, evs: seq<Event>, code: string)
    requires Marked(s.rows, code) && forall r :: !AboutToMark(s, r, code)
    ensures MarkOf(Run(s, evs), code) == MarkOf(s, code)
    decreases |evs|
  {
    if evs != [] {
      var t := Next(s, evs[0]);
      assert evs[0].Act? ==> !AboutToMark(s, evs[0].id, code);
      forall r ensures !AboutToMark(t, r, code) {
        assert !AboutToMark(s, r, code);
      }
      MarkStays(t, evs[1..], code);
    }
  }

  /** used_on is final exactly when no request is left that has read the code unused and not
      committed yet. */
  lemma MarkMovesIff(s: Sys, code: string)
    requires Marked(s.rows, code)
    ensures (exists evs :: MovesMark(s, evs, code)) <==> exists r :: AboutToMark(s, r, code)
  {
    if exists r :: AboutToMark(s, r, code) {
      var r :| AboutToMark(s, r, code);
      var later := Act(r, true, MarkOf(s, code).value + 1);
      RunOne(s, later);
      assert MovesMark(s, [later], code);
    } else {
      forall evs ensures !MovesMark(s, evs, code) {
        MarkStays(s, evs, code);
      }
    }
  }

  /** Two requests that start on the same unused code. */
  const OVERLAP := [Start(0, "c"), Start(1, "c"), Act(0, true, 0)]
    + [Act(1, true, 0), Act(0, true, 10), Act(1, true, 20)]

  /** So two requests that overlap are both answered, and the second moves the mark. */
  lemma OverlapAnswersTwice(claims: Claims)
    ensures var s := Run(Sys(map["c" := Row(claims, None, false)], map[]), OVERLAP);
            && s.reqs == map[0 := Answered("c", claims), 1 := Answered("c", claims)]
            && MarkOf(s, "c") == Some(20)
  {
    var start := Sys(map["c" := Row(claims, None, false)], map[]);
    var half := Sys(start.rows, map[0 := Mark("c"), 1 := Lookup("c")]);
    RunConcat(start, [Start(0, "c"), Start(1, "c"), Act(0, true, 0)],
              [Act(1, true, 0), Act(0, true, 10), Act(1, true, 20)]);
    RunThree(start, Start(0, "c"), Start(1, "c"), Act(0, true, 0));
    assert Next(Next(Next(start, Start(0, "c")), Start(1, "c")), Act(0, true, 0)) == half;
    RunThree(half, Act(1, true, 0), Act(0, true, 10), Act(1, true, 20));
  }

  // ---- One request at a time -----------------------------------------------------------

  /** Calls of CreateForClaims and UseCode; `ok` says whether the commit goes through. */
  datatype Call = Make(code: string, claims: Claims) | Use(code: string, now: Time, ok: bool)

  /** The steps of one call with nothing in between; a use is request `id`. */
  function Steps(id: nat, call: Call): seq<Event> {
    match call
    case Make(code, claims) => [Create(code, claims)]
    case Use(code, now, ok) => [Start(id, code), Act(id, true, now), Act(id, ok, now)]
  }

  function Script(calls: seq<Call>): seq<Event> {
    if calls == [] then [] else Script(calls[..|calls| - 1]) + Steps(|calls| - 1, calls[|calls| - 1])
  }

  function After(rows: Table, calls: seq<Call>): Sys {
    Run(Sys(rows, map[]), Script(calls))
  }

  /** A use without interleaving is what UseCode does. */
  lemma UseAlone(s: Sys, id: nat, code: string, now: Time, ok: bool)
    requires id !in s.reqs
    ensures Run(s, Steps(id, Use(code, now, ok)))
         == Sys(AfterUse(s.rows, code, now, ok),
                s.reqs[id := if ok && Unused(s.rows, code) then Answered(code, s.rows[code].claims) else Failed])
  {
    RunThree(s, Start(id, code), Act(id, true, now), Act(id, ok, now));
    var read := Next(Next(s, Start(id, code)), Act(id, true, now));
    assert read == Sys(s.rows, s.reqs[id := if Unused(s.rows, code) then Mark(code) else Failed]);
  }

  predicate AllDone(s: Sys, n: nat) {
    forall r | r in s.reqs :: r < n && (s.reqs[r].Answered? || s.reqs[r].Failed?)
  }

  ghost predicate OneAnswer(s: Sys, code: string) {
    forall r, q :: AnsweredFor(s, r, code) && AnsweredFor(s, q, code) ==> r == q
  }

  ghost predicate WasAnswered(s: Sys, code: string) {
    exists r :: AnsweredFor(s, r, code)
  }

  /** Serially every code is answered at most once, and it has been iff it was marked meanwhile. */
  lemma {:induction false} SerialUseIsSingle(rows: Table, calls: seq<Call>, code: string)
    ensures var s := After(rows, calls);
            && AllDone(s, |calls|) && OneAnswer(s, code)
            && (WasAnswered(s, code) <==> Marked(s.rows, code) && !Marked(rows, code))
            && (Marked(rows, code) ==> Marked(s.rows, code))
  {
    if calls != [] {
      var init, call := calls[..|calls| - 1], calls[|calls| - 1];
      SerialUseIsSingle(rows, init, code);
      RunConcat(Sys(rows, map[]), Script(init), Steps(|init|, call));
      CallKeepsSingle(After(rows, init), rows, |init|, call, code);
    }
  }

  lemma CallKeepsSingle(s: Sys, rows: Table, n: nat, call: Call, code: string)
    requires AllDone(s, n) && OneAnswer(s, code) && (Marked(rows, code) ==> Marked(s.rows, code))
    requires WasAnswered(s, code) <==> Marked(s.rows, code) && !Marked(rows, code)
    ensures var t := Run(s, Steps(n, call));
            && AllDone(t, n + 1) && OneAnswer(t, code) && (Marked(rows, code) ==> Marked(t.rows, code))
            && (WasAnswered(t, code) <==> Marked(t.rows, code) && !Marked(rows, code))
  {
    var t := Run(s, Steps(n, call));
    if call.Use? {
      UseAlone(s, n, call.code, call.now, call.ok);
      assert forall r | r != n :: AnsweredFor(t, r, code) <==> AnsweredFor(s, r, code);
      assert AnsweredFor(t, n, code) <==> call.code == code && call.ok && Unused(s.rows, code);
    } else {
      RunOne(s, Create(call.code, call.claims));
      assert forall r :: AnsweredFor(t, r, code) <==> AnsweredFor(s, r, code);
    }
  }

  /** A mark left by calls made one at a time is final, whatever comes after them. */
  lemma SerialMarkIsWriteOnce(rows: Table, calls: seq<Call>, evs: seq<Event>, code: string)
    requires Marked(After(rows, calls).rows, code)
    ensures MarkOf(Run(After(rows, calls), evs), code) == MarkOf(After(rows, calls), code)
  {
    var s := After(rows, calls);
    SerialUseIsSingle(rows, calls, code);
    assert forall r :: !AboutToMark(s, r, code);
    MarkStays(s, evs, code);
  }
}
