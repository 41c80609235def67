/** Single-use nonces: JWT exchange and CSR signing share one table whose token column is unique. */
module Nonces {
  import opened Wrappers
  import opened Claims

  /** The table: each token with whether its row is marked deleted. */
  type Seen = map<Value, bool>

  datatype Error = Forbidden | TokenReuse | CommitFailed | SignFailed

  predicate Used(seen: Seen, nonce: Value) {
    nonce in seen && !seen[nonce]
  }

  /** The unique column refuses a token that is there in any form. */
  function AfterSpend(seen: Seen, token: Value, commitOk: bool): Seen {
    if commitOk && token !in seen then seen[token := false] else seen
  }

  function AfterExchange(seen: Seen, payload: Claims, commitOk: bool): Seen {
    if "nonce" in payload then AfterSpend(seen, payload["nonce"], commitOk) else seen
  }

  /** The request gets as far as having the CA sign. */
  predicate Signs(seen: Seen, payload: Claims, signOk: bool) {
    Has(payload, "csr") && Has(payload, "nonce") && signOk && !Used(seen, payload["nonce"])
  }

  function AfterSign(seen: Seen, payload: Claims, signOk: bool, commitOk: bool): Seen {
    if Signs(seen, payload, signOk) then AfterSpend(seen, payload["nonce"], commitOk) else seen
  }

  // ---- The methods ---------------------------------------------------------------------

  class SeenTokens {
    var rows: Seen

    constructor (rows: Seen)
      ensures this.rows == rows
    {
      this.rows := rows;
    }

    /** SeenToken.use_token: returns only after its own insert was committed. */
    method UseToken(token: Value, commitOk: bool) returns (r: Result<(), Error>)
      modifies this
      ensures r.Ok? <==> commitOk && token !in old(rows)
      ensures rows == if r.Ok? then old(rows)[token := false] else old(rows)
      ensures token in old(rows) && !old(rows)[token] ==> r == Err(TokenReuse)
    {
      if token in rows && !rows[token] {
        return Err(TokenReuse);
      }
      if !commitOk || token in rows {
        return Err(CommitFailed);
      }
      rows := rows[token := false];
      r := Ok(());
    }

    /** exchange_token: the nonce is spent before the admin session claim is checked. */
    method ExchangeToken(payload: Claims, commitOk: bool, stamp: Claims) returns (r: Result<Claims, Error>)
      modifies this
      ensures (r.Ok? <==> && "nonce" in payload && commitOk && payload["nonce"] !in old(rows)
                          && "anon_admin_session" in payload && payload["anon_admin_session"] !in FALSY)
      ensures r.Ok? ==> forall k | k in stamp :: k in r.value && r.value[k] == stamp[k]
      ensures r.Ok? ==> forall k: string | k !in stamp ::
                && (k in r.value <==> k in payload && k !in {"iat", "exp", "iss", "aud", "nonce"})
                && (k in r.value ==> r.value[k] == payload[k])
      ensures rows == AfterExchange(old(rows), payload, commitOk)
    {
      if "nonce" !in payload {
        return Err(Forbidden);
      }
      var used := UseToken(payload["nonce"], commitOk);
      if used.Err? {
        return Err(used.error);
      }
      if !IsAdmin(payload) {
        return Err(Forbidden);
      }
      r := Ok(Issue(Copied(payload), stamp));
    }

    /** return_ca_and_sign_csr: the certificate is signed before the nonce is spent. */
    method SignCsr(payload: Claims, signOk: bool, commitOk: bool) returns (r: Result<(), Error>, signed: bool)
      modifies this
      ensures (signed <==> && "csr" in payload && payload["csr"] !in FALSY
                           && "nonce" in payload && payload["nonce"] !in FALSY && signOk
                           && (payload["nonce"] in old(rows) ==> old(rows)[payload["nonce"]]))
      ensures r.Ok? <==> signed && commitOk && payload["nonce"] !in old(rows)
      ensures r.Ok? ==> rows == old(rows)[payload["nonce"] := false]
      ensures rows == AfterSign(old(rows), payload, signOk, commitOk)
    {
      signed := false;
      if !Has(payload, "csr") || !Has(payload, "nonce") {
        return Err(Forbidden), signed;
      }
      var nonce := payload["nonce"];
      if nonce in rows && !rows[nonce] {
        return Err(Forbidden), signed;
      }
      if !signOk {
        return Err(SignFailed), signed;
      }
      signed := true;
      r := UseToken(nonce, commitOk);
    }
  }

  // ---- Any number of requests, interleaved ---------------------------------------------

  datatype Pc =
    | ExchangeLookup(payload: Claims)
    | ExchangeInsert(payload: Claims)
    | ExchangeCheck(payload: Claims)
    | SignLookup(payload: Claims)
    | Signing(payload: Claims)
    | SpendLookup(payload: Claims)
    | SpendInsert(payload: Claims)
    | Succeeded(nonce: Value)
    | Failed

  /** `signatures` lists the nonces for which the CA has signed, in order. */
  datatype Sys = Sys(seen: Seen, reqs: map<nat, Pc>, signatures: seq<Value>)

  datatype Event = Start(id: nat, payload: Claims, signing: bool) | Act(id: nat, ok: bool) | Crash(id: nat)

  function Next(s: Sys, ev: Event): Sys {
    match ev
    case Start(id, payload, signing) =>
      if id in s.reqs then s
      else s.(reqs := s.reqs[id := if signing then SignLookup(payload) else ExchangeLookup(payload)])
    case Crash(id) =>
      if id !in s.reqs || s.reqs[id].Succeeded? then s else s.(reqs := s.reqs[id := Failed])
    case Act(id, ok) =>
      if id !in s.reqs then s
      else
        match s.reqs[id]
        case ExchangeLookup(p) =>
          Goto(s, id, if "nonce" !in p || Used(s.seen, p["nonce"]) then Failed else ExchangeInsert(p))
        case ExchangeInsert(p) => Insert(s, id, p, ok, ExchangeCheck(p))
        case ExchangeCheck(p) =>
          Goto(s, id, if "nonce" in p && IsAdmin(p) then Succeeded(p["nonce"]) else Failed)
        case SignLookup(p) =>
          Goto(s, id, if !Has(p, "csr") || !Has(p, "nonce") || Used(s.seen, p["nonce"]) then Failed else Signing(p))
        case Signing(p) =>
          if ok && "nonce" in p then Goto(s, id, SpendLookup(p)).(signatures := s.signatures + [p["nonce"]])
          else Goto(s, id, Failed)
        case SpendLookup(p) =>
          Goto(s, id, if "nonce" !in p || Used(s.seen, p["nonce"]) then Failed else SpendInsert(p))
        case SpendInsert(p) =>
          Insert(s, id, p, ok, if "nonce" in p then Succeeded(p["nonce"]) else Failed)
        case Succeeded(_) => s
        case Failed => s
  }

  function Goto(s: Sys, id: nat, pc: Pc): Sys {
    s.(reqs := s.reqs[id := pc])
  }

  /** The commit of a new row: the unique column refuses a token that is there in any form. */
  function Insert(s: Sys, id: nat, p: Claims, ok: bool, after: Pc): Sys {
    if !ok || "nonce" !in p || p["nonce"] in s.seen then Goto(s, id, Failed)
    else Sys(s.seen[p["nonce"] := false], s.reqs[id := after], s.signatures)
  }

  function Run(s: Sys, evs: seq<Event>): Sys
    decreases |evs|
  {
    if evs == [] then s else Run(Next(s, evs[0]), evs[1..])
  }

  /** The nonce a request has spent. */
  function Holds(pc: Pc): Option<Value> {
    match pc
    case ExchangeCheck(p) => if "nonce" in p then Some(p["nonce"]) else None
    case Succeeded(n) => Some(n)
    case _ => None
  }

  ghost predicate Inv(s: Sys) {
    && (forall r | r in s.reqs && Holds(s.reqs[r]).Some? :: Holds(s.reqs[r]).value in s.seen)
    && (forall r, q | r in s.reqs && q in s.reqs && r != q && Holds(s.reqs[r]).Some? ::
          Holds(s.reqs[r]) != Holds(s.reqs[q]))
  }

  /** A step touches one request, and a nonce it newly holds was not in the table before. */
  lemma ActTouchesOne(s: Sys, id: nat, ok: bool)
    requires id in s.reqs
    ensures var t := Next(s, Act(id, ok));
            && t.reqs.Keys == s.reqs.Keys && (forall r | r in s.reqs && r != id :: t.reqs[r] == s.reqs[r])
            && s.seen.Keys <= t.seen.Keys
            && (Holds(t.reqs[id]).Some? ==>
                  || Holds(t.reqs[id]) == Holds(s.reqs[id])
                  || (Holds(t.reqs[id]).value !in s.seen && Holds(t.reqs[id]).value in t.seen))
  {
  }

  lemma NextKeeps(s: Sys, ev: Event)
    requires Inv(s)
    ensures Inv(Next(s, ev))
  {
    if ev.Act? && ev.id in s.reqs {
      ActTouchesOne(s, ev.id, ev.ok);
    }
  }

  lemma {:induction false} RunKeeps(s: Sys, evs: seq<Event>)
    requires Inv(s)
    ensures Inv(Run(s, evs))
    decreases |evs|
  {
    if evs != [] {
      NextKeeps(s, evs[0]);
      RunKeeps(Next(s, evs[0]), evs[1..]);
    }
  }

  /** Whatever the table held at the start and however the requests interleave, crash or lose their
      commits, at most one exchange or signing request succeeds per nonce. */
  lemma NonceSucceedsAtMostOnce(seen: Seen, evs: seq<Event>, r: nat, q: nat)
    requires var s := Run(Sys(seen, map[], []), evs);
             && r in s.reqs && q in s.reqs && s.reqs[r].Succeeded? && s.reqs[q].Succeeded?
             && s.reqs[r].nonce == s.reqs[q].nonce
    ensures r == q
  {
    RunKeeps(Sys(seen, map[], []), evs);
  }

  /** Once a nonce is in the table no request that has not already spent it ever succeeds with it. */
  lemma {:induction false} SpentNonceStaysSpent(s: Sys, evs: seq<Event>, nonce: Value, r: nat)
    requires nonce in s.seen && (r in s.reqs ==> Holds(s.reqs[r]) != Some(nonce))
    ensures var end := Run(s, evs);
            nonce in end.seen && (r in end.reqs ==> end.reqs[r] != Succeeded(nonce))
    decreases |evs|
  {
    if evs != [] {
      SpentNonceStaysSpent(Next(s, evs[0]), evs[1..], nonce, r);
    }
  }

  // ---- How often the CA signs for a nonce ----------------------------------------------

  function Signed(s: Sys, nonce: Value): nat {
    multiset(s.signatures)[nonce]
  }

  /** It has looked the nonce up, found it unused, and not asked the CA yet. */
  predicate AboutToSign(s: Sys, r: nat, nonce: Value) {
    r in s.reqs && s.reqs[r].Signing? && "nonce" in s.reqs[r].payload && s.reqs[r].payload["nonce"] == nonce
  }

  lemma {:induction false} NobodyMoreSigns(s: Sys, evs: seq<Event>, nonce: Value)
    requires Used(s.seen, nonce) && forall r :: !AboutToSign(s, r, nonce)
    ensures Signed(Run(s, evs), nonce) == Signed(s, nonce)
    decreases |evs|
  {
    if evs != [] {
      var t := Next(s, evs[0]);
      assert evs[0].Act? ==> !AboutToSign(s, evs[0].id, nonce);
      forall r ensures !AboutToSign(t, r, nonce) {
        assert !AboutToSign(s, r, nonce);
      }
      NobodyMoreSigns(t, evs[1..], nonce);
    }
  }

  ghost predicate SignsMore(s: Sys, evs: seq<Event>, nonce: Value) {
    Signed(Run(s, evs), nonce) > Signed(s, nonce)
  }

  lemma AboutToSignSigns(s: Sys, r: nat, nonce: Value)
    requires AboutToSign(s, r, nonce)
    ensures SignsMore(s, [Act(r, true)], nonce)
  {
    assert [Act(r, true)][1..] == [];
    assert Run(s, [Act(r, true)]) == Next(s, Act(r, true));
  }

  /** The exact boundary: once a nonce is used, the CA can still sign for it again iff some request
      has looked it up before that and not asked the CA yet. */
  lemma SignsAgainIff(s: Sys, nonce: Value)
    requires Used(s.seen, nonce)
    ensures (exists evs :: SignsMore(s, evs, nonce)) <==> exists r :: AboutToSign(s, r, nonce)
  {
    if exists r :: AboutToSign(s, r, nonce) {
      var r :| AboutToSign(s, r, nonce);
      AboutToSignSigns(s, r, nonce);
    } else {
      forall evs ensures !SignsMore(s, evs, nonce) {
        NobodyMoreSigns(s, evs, nonce);
      }
    }
  }

  // ---- One request at a time -----------------------------------------------------------

  lemma {:induction false} RunConcat(s: Sys, evs: seq<Event>, more: seq<Event>)
    ensures Run(s, evs + more) == Run(Run(s, evs), more)
    decreases |evs|
  {
    if evs == [] {
      assert evs + more == more;
    } else {
      RunConcat(Next(s, evs[0]), evs[1..], more);
      assert (evs + more)[1..] == evs[1..] + more;
    }
  }

  lemma RunTwo(s: Sys, a: Event, b: Event, rest: seq<Event>)
    ensures Run(s, [a, b] + rest) == Run(Next(Next(s, a), b), rest)
  {
    assert ([a, b] + rest)[1..][1..] == rest;
  }

  /** Calls of the two routes; the flags say whether signing and the commit go through. */
  datatype Call =
    | ExchangeCall(payload: Claims, commitOk: bool)
    | SignCall(payload: Claims, signOk: bool, commitOk: bool)

  /** The steps of one call, request `id`, with nothing in between. */
  function Steps(id: nat, call: Call): seq<Event> {
    match call
    case ExchangeCall(p, ok) => [Start(id, p, false), Act(id, true)] + [Act(id, ok), Act(id, true)]
    case SignCall(p, signOk, ok) =>
      [Start(id, p, true), Act(id, true)] + ([Act(id, signOk), Act(id, true)] + [Act(id, ok)])
  }

  function Script(calls: seq<Call>): seq<Event> {
    if calls == [] then [] else Script(calls[..|calls| - 1]) + Steps(|calls| - 1, calls[|calls| - 1])
  }

  function After(seen: Seen, calls: seq<Call>): Sys {
    Run(Sys(seen, map[], []), Script(calls))
  }

  function Looked(s: Sys, id: nat, p: Claims): Sys {
    Goto(s, id, if "nonce" !in p || Used(s.seen, p["nonce"]) then Failed else ExchangeInsert(p))
  }

  lemma ExchangeLooks(s: Sys, id: nat, p: Claims)
    requires id !in s.reqs
    ensures Next(Next(s, Start(id, p, false)), Act(id, true)) == Looked(s, id, p)
  {
  }

  /** An exchange without interleaving is what ExchangeToken does. */
  lemma ExchangeAlone(s: Sys, id: nat, p: Claims, ok: bool)
    requires id !in s.reqs
    ensures Run(s, Steps(id, ExchangeCall(p, ok)))
         == Sys(AfterExchange(s.seen, p, ok),
                s.reqs[id := if "nonce" in p && ok && p["nonce"] !in s.seen && IsAdmin(p) then Succeeded(p["nonce"])
                       else Failed],
                s.signatures)
  {
    var read := Looked(s, id, p);
    RunTwo(s, Start(id, p, false), Act(id, true), [Act(id, ok), Act(id, true)]);
    ExchangeLooks(s, id, p);
    RunTwo(read, Act(id, ok), Act(id, true), []);
    assert [Act(id, ok), Act(id, true)] + [] == [Act(id, ok), Act(id, true)];
  }

  /** A signing without interleaving is what SignCsr does. */
  lemma SignAlone(s: Sys, id: nat, p: Claims, signOk: bool, ok: bool)
    requires id !in s.reqs
    ensures Run(s, Steps(id, SignCall(p, signOk, ok)))
         == Sys(AfterSign(s.seen, p, signOk, ok),
                s.reqs[id := if Signs(s.seen, p, signOk) && ok && p["nonce"] !in s.seen then Succeeded(p["nonce"])
                       else Failed],
                if Signs(s.seen, p, signOk) then s.signatures + [p["nonce"]] else s.signatures)
  {
    var read, asked := LookedUp(s, id, p), Asked(s, id, p, signOk);
    RunTwo(s, Start(id, p, true), Act(id, true), [Act(id, signOk), Act(id, true)] + [Act(id, ok)]);
    LookAndAsk(s, id, p, signOk);
    RunTwo(read, Act(id, signOk), Act(id, true), [Act(id, ok)]);
    assert [Act(id, ok)][1..] == [];
    assert Run(Next(asked, Act(id, true)), [Act(id, ok)]) == Next(Next(asked, Act(id, true)), Act(id, ok));
    if Signs(s.seen, p, signOk) {
      SpendAlone(asked, id, p, ok);
    }
  }

  function LookedUp(s: Sys, id: nat, p: Claims): Sys {
    Goto(s, id, if Signs(s.seen, p, true) then Signing(p) else Failed)
  }

  function Asked(s: Sys, id: nat, p: Claims, signOk: bool): Sys {
    if Signs(s.seen, p, signOk) then Goto(s, id, SpendLookup(p)).(signatures := s.signatures + [p["nonce"]])
    else Goto(s, id, Failed)
  }

  lemma LookAndAsk(s: Sys, id: nat, p: Claims, signOk: bool)
    requires id !in s.reqs
    ensures Next(Next(s, Start(id, p, true)), Act(id, true)) == LookedUp(s, id, p)
    ensures Next(LookedUp(s, id, p), Act(id, signOk)) == Asked(s, id, p, signOk)
  {
    assert s.reqs[id := SignLookup(p)][id := LookedUp(s, id, p).reqs[id]] == LookedUp(s, id, p).reqs;
    assert LookedUp(s, id, p).reqs[id := Asked(s, id, p, signOk).reqs[id]] == Asked(s, id, p, signOk).reqs;
  }

  /** And the spending of the nonce in it what UseToken does. */
  lemma SpendAlone(s: Sys, id: nat, p: Claims, ok: bool)
    requires id in s.reqs && s.reqs[id] == SpendLookup(p) && "nonce" in p
    ensures Next(Next(s, Act(id, true)), Act(id, ok))
         == Sys(AfterSpend(s.seen, p["nonce"], ok),
                s.reqs[id := if ok && p["nonce"] !in s.seen then Succeeded(p["nonce"]) else Failed],
                s.signatures)
  {
    assert Next(s, Act(id, true)) == Goto(s, id, if Used(s.seen, p["nonce"]) then Failed else SpendInsert(p));
  }

  /** The call asks the CA if the nonce is not used by then. */
  predicate Tries(call: Call, nonce: Value) {
    call.SignCall? && Signs(map[], call.payload, call.signOk) && call.payload["nonce"] == nonce
  }

  /** And it spends the nonce if that is not in the table by then. */
  predicate Spends(call: Call, nonce: Value) {
    call.commitOk && (Tries(call, nonce)
                      || (call.ExchangeCall? && "nonce" in call.payload && call.payload["nonce"] == nonce))
  }

  /** The nonce is used before call number `k`: at the start already, or by an earlier call. */
  predicate UsedBefore(seen: Seen, calls: seq<Call>, k: nat, nonce: Value) {
    Used(seen, nonce) || (nonce !in seen && exists i | 0 <= i < k && i < |calls| :: Spends(calls[i], nonce))
  }

  /** Any two calls that ask the CA have the nonce used before the second one. */
  ghost predicate SpentBetween(seen: Seen, calls: seq<Call>, nonce: Value) {
    forall j, k | 0 <= j < k < |calls| && Tries(calls[j], nonce) && Tries(calls[k], nonce) ::
      UsedBefore(seen, calls, k, nonce)
  }

  ghost predicate NeverFree(seen: Seen, calls: seq<Call>, nonce: Value) {
    forall j | 0 <= j < |calls| && Tries(calls[j], nonce) :: UsedBefore(seen, calls, j, nonce)
  }

  predicate AllDone(s: Sys, n: nat) {
    forall r | r in s.reqs :: r < n && (s.reqs[r].Succeeded? || s.reqs[r].Failed?)
  }

  lemma CallAlone(s: Sys, id: nat, call: Call, nonce: Value)
    requires AllDone(s, id)
    ensures var t := Run(s, Steps(id, call));
            && AllDone(t, id + 1)
            && (nonce in t.seen <==> nonce in s.seen || Spends(call, nonce))
            && (Used(t.seen, nonce) <==> Used(s.seen, nonce) || (nonce !in s.seen && Spends(call, nonce)))
            && Signed(t, nonce) == Signed(s, nonce) + if Tries(call, nonce) && !Used(s.seen, nonce) then 1 else 0
  {
    match call
    case ExchangeCall(p, ok) => ExchangeAlone(s, id, p, ok);
    case SignCall(p, signOk, ok) => SignAlone(s, id, p, signOk, ok);
  }

  lemma UsedBeforeNext(seen: Seen, calls: seq<Call>, call: Call, nonce: Value)
    ensures forall k | 0 <= k <= |calls| ::
            UsedBefore(seen, calls + [call], k, nonce) == UsedBefore(seen, calls, k, nonce)
    ensures (UsedBefore(seen, calls + [call], |calls| + 1, nonce)
             <==> UsedBefore(seen, calls, |calls|, nonce) || (nonce !in seen && Spends(call, nonce)))
    ensures forall k | 0 <= k <= |calls| && UsedBefore(seen, calls, k, nonce) :: UsedBefore(seen, calls, |calls|, nonce)
  {
    var more := calls + [call];
    assert forall i | 0 <= i < |calls| :: more[i] == calls[i];
    assert more[|calls|] == call;
  }

  lemma NeverFreeNext(seen: Seen, calls: seq<Call>, call: Call, nonce: Value)
    ensures (NeverFree(seen, calls + [call], nonce)
             <==> NeverFree(seen, calls, nonce) && (Tries(call, nonce) ==> UsedBefore(seen, calls, |calls|, nonce)))
  {
    UsedBeforeNext(seen, calls, call, nonce);
    var more := calls + [call];
    assert forall i | 0 <= i < |calls| :: more[i] == calls[i];
    assert more[|calls|] == call;
  }

  lemma PairsNext(seen: Seen, calls: seq<Call>, call: Call, nonce: Value)
    ensures var free := Tries(call, nonce) && !UsedBefore(seen, calls, |calls|, nonce);
            (SpentBetween(seen, calls + [call], nonce)
             <==> SpentBetween(seen, calls, nonce) && (free ==> NeverFree(seen, calls, nonce)))
  {
    UsedBeforeNext(seen, calls, call, nonce);
    var more := calls + [call];
    assert forall i | 0 <= i < |calls| :: more[i] == calls[i];
    assert more[|calls|] == call;
  }

  /** What a series of calls made one at a time has done about a nonce. */
  ghost predicate Tally(s: Sys, seen: Seen, calls: seq<Call>, nonce: Value) {
    && AllDone(s, |calls|)
    && (Used(s.seen, nonce) <==> UsedBefore(seen, calls, |calls|, nonce))
    && (nonce in seen ==> nonce in s.seen)
    && (nonce in s.seen ==> nonce in seen || UsedBefore(seen, calls, |calls|, nonce))
    && (Signed(s, nonce) == 0 <==> NeverFree(seen, calls, nonce))
    && (Signed(s, nonce) <= 1 <==> SpentBetween(seen, calls, nonce))
  }

  lemma TallyNext(s: Sys, seen: Seen, calls: seq<Call>, call: Call, nonce: Value)
    requires Tally(s, seen, calls, nonce)
    ensures Tally(Run(s, Steps(|calls|, call)), seen, calls + [call], nonce)
  {
    CallAlone(s, |calls|, call, nonce);
    UsedBeforeNext(seen, calls, call, nonce);
    NeverFreeNext(seen, calls, call, nonce);
    PairsNext(seen, calls, call, nonce);
  }

  lemma AfterNext(seen: Seen, calls: seq<Call>, call: Call)
    ensures After(seen, calls + [call]) == Run(After(seen, calls), Steps(|calls|, call))
  {
    assert (calls + [call])[..|calls|] == calls;
    RunConcat(Sys(seen, map[], []), Script(calls), Steps(|calls|, call));
  }

  lemma {:induction false} SerialSignatures(seen: Seen, calls: seq<Call>, nonce: Value)
    ensures Tally(After(seen, calls), seen, calls, nonce)
  {
    if calls != [] {
      var init, call := calls[..|calls| - 1], calls[|calls| - 1];
      SerialSignatures(seen, init, nonce);
      AfterNext(seen, init, call);
      TallyNext(After(seen, init), seen, init, call, nonce);
      assert calls == init + [call];
    }
  }

  /** Of requests that do not overlap, the CA signs at most once for a nonce exactly when of any two
      that ask it, the nonce was used before the second: at the start, or by an earlier request whose
      commit went through. So a second signature takes a lost commit. */
  lemma OneSignatureIff(seen: Seen, calls: seq<Call>, nonce: Value)
    ensures Signed(After(seen, calls), nonce) <= 1 <==> SpentBetween(seen, calls, nonce)
  {
    SerialSignatures(seen, calls, nonce);
  }

  // ---- Two ways to two signatures ------------------------------------------------------

  const NONCE := Str("n")

  const RACING: Claims := map["csr" := Bool(true), "nonce" := NONCE]

  function Both(pc: Pc, signatures: seq<Value>): Sys {
    Sys(map[], map[0 := pc, 1 := pc], signatures)
  }

  /** Request 0 takes a step, then request 1. */
  function Turns(n: nat): seq<Event> {
    if n == 0 then [] else [Act(0, true), Act(1, true)] + Turns(n - 1)
  }

  /** Two racing requests can both have the CA sign before either spends the nonce, and then only
      one of them returns its certificate. */
  lemma TwoSignaturesOneSuccess()
    ensures var s := Run(Sys(map[], map[], []), [Start(0, RACING, true), Start(1, RACING, true)] + Turns(4));
            s.signatures == [NONCE, NONCE] && s.reqs == map[0 := Succeeded(NONCE), 1 := Failed]
  {
    RunTwo(Sys(map[], map[], []), Start(0, RACING, true), Start(1, RACING, true), Turns(4));
    RaceToSpend();
    RaceToInsert();
  }

  /** So can two that do not overlap, when the first one's commit is lost. */
  lemma LostSpendSignsTwice()
    ensures var s := After(map[], [SignCall(RACING, true, false), SignCall(RACING, true, true)]);
            s.signatures == [NONCE, NONCE] && s.reqs == map[0 := Failed, 1 := Succeeded(NONCE)]
  {
    var first, second := SignCall(RACING, true, false), SignCall(RACING, true, true);
    FirstSpendIsLost();
    assert [first, second][..1] == [first];
    RunConcat(Sys(map[], map[], []), Script([first]), Steps(1, second));
    SignAlone(Sys(map[], map[0 := Failed], [NONCE]), 1, RACING, true, true);
    assert Signs(map[], RACING, true) && RACING["nonce"] == NONCE;
  }

  lemma FirstSpendIsLost()
    ensures After(map[], [SignCall(RACING, true, false)]) == Sys(map[], map[0 := Failed], [NONCE])
  {
    var first := SignCall(RACING, true, false);
    assert Signs(map[], RACING, true) && RACING["nonce"] == NONCE;
    assert [first][..0] == [];
    assert Script([first]) == Steps(0, first);
    SignAlone(Sys(map[], map[], []), 0, RACING, true, false);
  }

  lemma RaceToSpend()
    ensures Run(Both(SignLookup(RACING), []), Turns(4)) == Run(Both(SpendLookup(RACING), [NONCE, NONCE]), Turns(2))
  {
    assert Has(RACING, "csr") && Has(RACING, "nonce") && RACING["nonce"] == NONCE;
    TurnBoth(Both(SignLookup(RACING), []), 4, Both(Signing(RACING), []));
    TurnBoth(Both(Signing(RACING), []), 3, Both(SpendLookup(RACING), [NONCE, NONCE]));
  }

  lemma RaceToInsert()
    ensures Run(Both(SpendLookup(RACING), [NONCE, NONCE]), Turns(2))
         == Sys(map[NONCE := false], map[0 := Succeeded(NONCE), 1 := Failed], [NONCE, NONCE])
  {
    TurnBoth(Both(SpendLookup(RACING), [NONCE, NONCE]), 2, Both(SpendInsert(RACING), [NONCE, NONCE]));
    TurnBoth(Both(SpendInsert(RACING), [NONCE, NONCE]), 1,
             Sys(map[NONCE := false], map[0 := Succeeded(NONCE), 1 := Failed], [NONCE, NONCE]));
  }

  lemma TurnBoth(s: Sys, n: nat, next: Sys)
    requires n > 0 && Next(Next(s, Act(0, true)), Act(1, true)) == next
    ensures Run(s, Turns(n)) == Run(next, Turns(n - 1))
  {
    assert Turns(n)[1..][1..] == Turns(n - 1);
  }
}
