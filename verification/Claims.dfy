/** JWT claims: which survive exchange and refresh, and where an admin session claim in any issued
    token or stored login code comes from. */
module Claims {
  import opened Wrappers

  datatype Value = Str(s: string) | Bool(b: bool) | Num(n: int) | Null | Nested(size: nat)

  type Claims = map<string, Value>

  const COPY_EXCLUDE: set<string> := {"iat", "exp", "iss", "aud", "nonce"}

  const ANON_SESSION := "anon_admin_session"

  predicate Truthy(v: Value) {
    match v
    case Str(s) => s != ""
    case Bool(b) => b
    case Num(n) => n != 0
    case Null => false
    case Nested(size) => size > 0
  }

  /** What Python takes for false. */
  const FALSY: set<Value> := {Str(""), Bool(false), Num(0), Null, Nested(0)}

  predicate Has(c: Claims, key: string) {
    key in c && Truthy(c[key])
  }

  predicate IsAdmin(c: Claims) {
    Has(c, ANON_SESSION)
  }

  /** The comprehension that copies a payload into a fresh token. */
  function Copied(c: Claims): Claims {
    map k | k in c && k !in COPY_EXCLUDE :: c[k]
  }

  /** The issuer stamps the token; it adds only registered claims of section 4.1 of RFC 7519. */
  predicate Stamp(added: Claims) {
    added.Keys <= COPY_EXCLUDE - {"nonce"}
  }

  function Issue(c: Claims, added: Claims): Claims {
    c + added
  }

  function Refresh(c: Claims, added: Claims): Claims {
    Issue(Copied(c), added)
  }

  function RefreshChain(c: Claims, stamps: seq<Claims>): Claims {
    if stamps == [] then c
    else Refresh(RefreshChain(c, stamps[..|stamps| - 1]), stamps[|stamps| - 1])
  }

  /** A chain of refreshes, however long, keeps every claim but the excluded ones as it was, and
      its tokens carry no nonce, so they can never be exchanged again; the others are the last stamp's. */
  lemma {:induction false} RefreshPreserves(c: Claims, stamps: seq<Claims>)
    requires forall i | 0 <= i < |stamps| :: Stamp(stamps[i])
    ensures forall k: string | k !in {"iat", "exp", "iss", "aud", "nonce"} ::
              && (k in RefreshChain(c, stamps) <==> k in c)
              && (k in c ==> RefreshChain(c, stamps)[k] == c[k])
    ensures stamps != [] ==> forall k: string | k in {"iat", "exp", "iss", "aud"} ::
              var last := stamps[|stamps| - 1];
              && (k in RefreshChain(c, stamps) <==> k in last)
              && (k in last ==> RefreshChain(c, stamps)[k] == last[k])
    ensures stamps != [] ==> "nonce" !in RefreshChain(c, stamps)
    ensures IsAdmin(RefreshChain(c, stamps)) <==> IsAdmin(c)
  {
    if stamps != [] {
      var init, last := stamps[..|stamps| - 1], stamps[|stamps| - 1];
      RefreshPreserves(c, init);
    }
    assert |ANON_SESSION| == 18;
  }

  lemma CopiedAdmin(c: Claims)
    ensures IsAdmin(Copied(c)) <==> IsAdmin(c)
  {
    assert ANON_SESSION !in COPY_EXCLUDE by {
      assert |ANON_SESSION| == 18;
    }
  }

  // ---- Everything issued or stored, and what it was made from --------------------------

  datatype Kind = Token | Code

  /** `parent` is the item whose bearer caused this one; the items present at the start and the
      external tokens that were accepted have none. */
  datatype Item = Item(kind: Kind, claims: Claims, parent: Option<nat>)

  /** A request that makes a token or a code. */
  datatype Op =
    | Accept(claims: Claims)                          // a token of an external issuer verifies
    | Exchange(token: nat, stamp: Claims)             // /jwt/exchange, the nonce being unused
    | RefreshOp(token: nat, stamp: Claims)            // /jwt/refresh
    | Generate(token: nat, claims: Claims)            // /code/generate
    | Redeem(code: nat, stamp: Claims)                // /code/exchange
    | AddAdmin(token: nat, callsign: string)          // /firstuser/add-admin: a code for the new admin
    | Enroll(callsign: string, stamp: Claims)         // the enrollment routes: a token for the callsign

  predicate Is(items: seq<Item>, i: nat, kind: Kind) {
    i < |items| && items[i].kind == kind
  }

  /** The item the request makes, if the route lets it. */
  function Made(items: seq<Item>, op: Op): Option<Item> {
    match op
    case Accept(claims) => Some(Item(Token, claims, None))
    case Exchange(t, stamp) =>
      if Is(items, t, Token) && "nonce" in items[t].claims && IsAdmin(items[t].claims) && Stamp(stamp) then
        Some(Item(Token, Issue(Copied(items[t].claims), stamp), Some(t)))
      else None
    case RefreshOp(t, stamp) =>
      if Is(items, t, Token) && Stamp(stamp) then Some(Item(Token, Refresh(items[t].claims, stamp), Some(t)))
      else None
    case Generate(t, claims) =>
      if Is(items, t, Token) && IsAdmin(items[t].claims) then Some(Item(Code, claims, Some(t))) else None
    case Redeem(c, stamp) =>
      if Is(items, c, Code) && Stamp(stamp) then Some(Item(Token, Issue(items[c].claims, stamp), Some(c))) else None
    case AddAdmin(t, callsign) =>
      if Is(items, t, Token) && IsAdmin(items[t].claims) then
        Some(Item(Code, map["sub" := Str(callsign)], Some(t)))
      else None
    case Enroll(callsign, stamp) =>
      if Stamp(stamp) then Some(Item(Token, Issue(map["sub" := Str(callsign)], stamp), None)) else None
  }

  function RunOps(items: seq<Item>, ops: seq<Op>): seq<Item> {
    if ops == [] then items
    else
      var prev := RunOps(items, ops[..|ops| - 1]);
      var made := Made(prev, ops[|ops| - 1]);
      if made.Some? then prev + [made.value] else prev
  }

  /** Parents come earlier, and an item with an admin session and a parent has a parent with one. */
  predicate Descends(items: seq<Item>) {
    forall i | 0 <= i < |items| && items[i].parent.Some? ::
      items[i].parent.value < i && (IsAdmin(items[i].claims) ==> IsAdmin(items[items[i].parent.value].claims))
  }

  predicate AllRoots(items: seq<Item>) {
    forall i | 0 <= i < |items| :: items[i].parent.None?
  }

  lemma SubIsNoAdmin(callsign: string, stamp: Claims)
    requires Stamp(stamp)
    ensures !IsAdmin(map["sub" := Str(callsign)]) && !IsAdmin(Issue(map["sub" := Str(callsign)], stamp))
  {
    assert |ANON_SESSION| == 18;
  }

  lemma IssueAdmin(c: Claims, stamp: Claims)
    requires Stamp(stamp)
    ensures IsAdmin(Issue(c, stamp)) <==> IsAdmin(c)
  {
    assert |ANON_SESSION| == 18;
  }

  lemma MadeDescends(items: seq<Item>, op: Op)
    requires Made(items, op).Some?
    ensures var m := Made(items, op).value;
            && (m.parent.Some? ==> m.parent.value < |items|)
            && (m.parent.Some? && IsAdmin(m.claims) ==> IsAdmin(items[m.parent.value].claims))
            && (m.parent.None? && IsAdmin(m.claims) ==> op.Accept?)
  {
    match op
    case Accept(_) =>
    case Exchange(t, stamp) => IssueAdmin(Copied(items[t].claims), stamp); CopiedAdmin(items[t].claims);
    case RefreshOp(t, stamp) => IssueAdmin(Copied(items[t].claims), stamp); CopiedAdmin(items[t].claims);
    case Generate(_, _) =>
    case Redeem(c, stamp) => IssueAdmin(items[c].claims, stamp);
    case AddAdmin(_, callsign) => SubIsNoAdmin(callsign, map[]);
    case Enroll(callsign, stamp) => SubIsNoAdmin(callsign, stamp);
  }

  lemma {:induction false} RunDescends(items: seq<Item>, ops: seq<Op>)
    requires Descends(items)
    ensures Descends(RunOps(items, ops)) && items <= RunOps(items, ops)
  {
    if ops != [] {
      var init := ops[..|ops| - 1];
      RunDescends(items, init);
      var prev := RunOps(items, init);
      if Made(prev, ops[|ops| - 1]).Some? {
        MadeDescends(prev, ops[|ops| - 1]);
      }
    }
  }

  /** Follow the parents to the item everything was made from. */
  function Root(items: seq<Item>, i: nat): (r: nat)
    requires Descends(items) && i < |items|
    ensures r <= i && items[r].parent.None?
    ensures IsAdmin(items[i].claims) ==> IsAdmin(items[r].claims)
  {
    if items[i].parent.None? then i else Root(items, items[i].parent.value)
  }

  /** The item was there at the start, or a request accepted it from an external issuer. */
  predicate Given(start: seq<Item>, ops: seq<Op>, items: seq<Item>, r: nat) {
    r < |items| && (r < |start| || exists k | 0 <= k < |ops| :: ops[k].Accept? && ops[k].claims == items[r].claims)
  }

  lemma {:induction false} AdminRootsAreGiven(start: seq<Item>, ops: seq<Op>, r: nat)
    requires AllRoots(start) && r < |RunOps(start, ops)|
    requires RunOps(start, ops)[r].parent.None? && IsAdmin(RunOps(start, ops)[r].claims)
    ensures Given(start, ops, RunOps(start, ops), r)
  {
    if ops != [] {
      var init, last := ops[..|ops| - 1], ops[|ops| - 1];
      var prev := RunOps(start, init);
      if r < |prev| {
        AdminRootsAreGiven(start, init, r);
        if r >= |start| {
          var k :| 0 <= k < |init| && init[k].Accept? && init[k].claims == prev[r].claims;
          assert ops[k] == init[k];
        }
      } else {
        MadeDescends(prev, last);
        assert ops[|ops| - 1].Accept?;
      }
    }
  }

  /** Every admin session in an issued token or a stored code goes back, through items that all
      carry one, to a token or code present at the start or to an accepted external token. */
  lemma AdminSessionsTraceBack(start: seq<Item>, ops: seq<Op>, i: nat)
    requires AllRoots(start) && i < |RunOps(start, ops)|
    requires IsAdmin(RunOps(start, ops)[i].claims)
    ensures Descends(RunOps(start, ops))
    ensures var items := RunOps(start, ops);
            IsAdmin(items[Root(items, i)].claims) && Given(start, ops, items, Root(items, i))
  {
    RunDescends(start, ops);
    AdminRootsAreGiven(start, ops, Root(RunOps(start, ops), i));
  }

  /** The two have the same claims, apart from these. */
  ghost predicate SameClaims(from: Claims, to: Claims, but: set<string>) {
    forall k | k !in but :: (k in to <==> k in from) && (k in from ==> to[k] == from[k])
  }

  /** Who gets an item, of which kind, and with which claims: an exchange takes an admin session and a
      nonce, a refresh any token; both pass on all claims but the registered ones and the nonce.
      Making a code takes an admin session and stores just the claims asked for, or the new admin's
      callsign. A code's token has all its claims but the registered ones. */
  lemma WhatIsMade(items: seq<Item>, op: Op)
    ensures var m := Made(items, op);
            match op
            case Accept(claims) => m == Some(Item(Token, claims, None))
            case Exchange(t, stamp) =>
              && (m.Some? <==>
                  && t < |items| && items[t].kind == Token && Stamp(stamp) && "nonce" in items[t].claims
                  && "anon_admin_session" in items[t].claims && items[t].claims["anon_admin_session"] !in FALSY)
              && (m.Some? ==> m.value.kind == Token && m.value.parent == Some(t)
                              && SameClaims(items[t].claims, m.value.claims, {"iat", "exp", "iss", "aud", "nonce"})
                              && "nonce" !in m.value.claims)
            case RefreshOp(t, stamp) =>
              && (m.Some? <==> t < |items| && items[t].kind == Token && Stamp(stamp))
              && (m.Some? ==> m.value.kind == Token && m.value.parent == Some(t)
                              && SameClaims(items[t].claims, m.value.claims, {"iat", "exp", "iss", "aud", "nonce"})
                              && "nonce" !in m.value.claims)
            case Generate(t, claims) =>
              && (m.Some? <==>
                  && t < |items| && items[t].kind == Token
                  && "anon_admin_session" in items[t].claims && items[t].claims["anon_admin_session"] !in FALSY)
              && (m.Some? ==> m.value == Item(Code, claims, Some(t)))
            case Redeem(c, stamp) =>
              && (m.Some? <==> c < |items| && items[c].kind == Code && Stamp(stamp))
              && (m.Some? ==> m.value.kind == Token && m.value.parent == Some(c)
                              && SameClaims(items[c].claims, m.value.claims, {"iat", "exp", "iss", "aud"}))
            case AddAdmin(t, callsign) =>
              && (m.Some? <==>
                  && t < |items| && items[t].kind == Token
                  && "anon_admin_session" in items[t].claims && items[t].claims["anon_admin_session"] !in FALSY)
              && (m.Some? ==> m.value == Item(Code, map["sub" := Str(callsign)], Some(t)))
            case Enroll(callsign, stamp) =>
              && (m.Some? <==> Stamp(stamp))
              && (m.Some? ==> m.value.kind == Token && m.value.parent == None
                              && SameClaims(map["sub" := Str(callsign)], m.value.claims, {"iat", "exp", "iss", "aud"}))
  {
  }

  // ---- Where any other claim comes from ------------------------------------------------

  /** The request brings the claim in, rather than passing it on: an external token has it, the holder
      of an admin session asks for it, or it is the callsign of a new admin or enrollment. */
  predicate BringsIn(prev: seq<Item>, op: Op, k: string, v: Value) {
    match op
    case Accept(claims) => k in claims && claims[k] == v
    case Generate(t, claims) => Is(prev, t, Token) && IsAdmin(prev[t].claims) && k in claims && claims[k] == v
    case AddAdmin(t, callsign) => Is(prev, t, Token) && IsAdmin(prev[t].claims) && k == "sub" && v == Str(callsign)
    case Enroll(callsign, _) => k == "sub" && v == Str(callsign)
    case _ => false
  }

  /** It was in an item present at the start, or some request has brought it in. */
  ghost predicate BroughtIn(start: seq<Item>, ops: seq<Op>, k: string, v: Value) {
    || (exists j | 0 <= j < |start| :: k in start[j].claims && start[j].claims[k] == v)
    || (exists n | 0 <= n < |ops| :: BringsIn(RunOps(start, ops[..n]), ops[n], k, v))
  }

  lemma BroughtInStays(start: seq<Item>, ops: seq<Op>, op: Op, k: string, v: Value)
    requires BroughtIn(start, ops, k, v)
    ensures BroughtIn(start, ops + [op], k, v)
  {
    if n :| 0 <= n < |ops| && BringsIn(RunOps(start, ops[..n]), ops[n], k, v) {
      assert (ops + [op])[..n] == ops[..n] && (ops + [op])[n] == ops[n];
    }
  }

  lemma PassedOnOrBroughtIn(prev: seq<Item>, op: Op, k: string)
    requires Made(prev, op).Some? && k in Made(prev, op).value.claims && k !in {"iat", "exp", "iss", "aud"}
    ensures var v := Made(prev, op).value.claims[k];
            || BringsIn(prev, op, k, v)
            || exists j | 0 <= j < |prev| :: k in prev[j].claims && prev[j].claims[k] == v
  {
    WhatIsMade(prev, op);
  }

  /** Nobody has a claim that nobody gave: whatever an issued token or stored code says, registered
      claims aside, was said by an item present at the start, by an external token, by the claims the
      holder of an admin session made a code for, or is the callsign somebody was enrolled under. */
  lemma {:induction false} ClaimsTraceBack(start: seq<Item>, ops: seq<Op>, i: nat, k: string)
    requires i < |RunOps(start, ops)| && k in RunOps(start, ops)[i].claims && k !in {"iat", "exp", "iss", "aud"}
    ensures BroughtIn(start, ops, k, RunOps(start, ops)[i].claims[k])
  {
    if ops != [] {
      var init, last := ops[..|ops| - 1], ops[|ops| - 1];
      var prev, v := RunOps(start, init), RunOps(start, ops)[i].claims[k];
      assert ops == init + [last];
      if exists j | 0 <= j < |prev| :: k in prev[j].claims && prev[j].claims[k] == v {
        var j :| 0 <= j < |prev| && k in prev[j].claims && prev[j].claims[k] == v;
        ClaimsTraceBack(start, init, j, k);
        BroughtInStays(start, init, last, k, v);
      } else {
        PassedOnOrBroughtIn(prev, last, k);
        assert ops[..|init|] == init && BringsIn(RunOps(start, ops[..|init|]), ops[|init|], k, v);
      }
    }
  }

  /** What is exchanged or refreshed can never be exchanged again; what a code gives can be,
      exactly when the code was made with a nonce and an admin session. */
  lemma ExchangeableAgain(items: seq<Item>, op: Op, stamp: Claims)
    requires Made(items, op).Some? && Stamp(stamp)
    ensures var now := items + [Made(items, op).value];
            && (op.Exchange? || op.RefreshOp? ==> Made(now, Exchange(|items|, stamp)).None?)
            && (op.Redeem? ==>
                  (Made(now, Exchange(|items|, stamp)).Some?
                   <==> "nonce" in items[op.code].claims && IsAdmin(items[op.code].claims)))
  {
    if op.Redeem? {
      IssueAdmin(items[op.code].claims, op.stamp);
    }
  }
}
