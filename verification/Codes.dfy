/** Random codes: how they are generated, how many there are, and the loop that looks for an
    unused one. */
module Codes {
  import opened Wrappers

  const CODE_MAX_ATTEMPTS := 100

  /** ascii_uppercase + digits */
  const ALPHABET := Range('A', 'Z') + Range('0', '9')

  /** What is left once 0 is written O and 1 is written I. */
  const CLEAR := Range('A', 'Z') + Range('2', '9')

  function Range(lo: char, hi: char): set<char> {
    set c: char | Between(lo, c, hi)
  }

  predicate Between(lo: char, c: char, hi: char) {
    lo <= c <= hi
  }

  // ---- Generation ----------------------------------------------------------------------

  function Replace(s: string, from: char, to: char): (r: string)
    ensures |r| == |s| && forall i | 0 <= i < |s| :: r[i] == if s[i] == from then to else s[i]
  {
    seq(|s|, i requires 0 <= i < |s| => if s[i] == from then to else s[i])
  }

  function Unconfused(code: string): string {
    Replace(Replace(code, '0', 'O'), '1', 'I')
  }

  function Plain(c: char): char {
    if c == '0' then 'O' else if c == '1' then 'I' else c
  }

  lemma UnconfusedAt(code: string, i: nat)
    requires i < |code|
    ensures |Unconfused(code)| == |code| && Unconfused(code)[i] == Plain(code[i])
  {
  }

  /** All strings of length n over an alphabet. */
  ghost function Words(alpha: set<char>, n: nat): set<string> {
    if n == 0 then {""} else Prepend(alpha, Words(alpha, n - 1))
  }

  ghost function Prepend(heads: set<char>, tails: set<string>): set<string> {
    set c, s | c in heads && s in tails :: [c] + s
  }

  lemma {:induction false} WordsAre(alpha: set<char>, n: nat, s: string)
    ensures s in Words(alpha, n) <==> |s| == n && forall i | 0 <= i < n :: s[i] in alpha
  {
    if n > 0 {
      if s in Words(alpha, n) {
        var c, t :| c in alpha && t in Words(alpha, n - 1) && s == [c] + t;
        WordsAre(alpha, n - 1, t);
      } else if |s| == n {
        WordsAre(alpha, n - 1, s[1..]);
        assert s == [s[0]] + s[1..];
      }
    }
  }

  /** generate_code: `choice` is the random choice made at each position. */
  method GenerateCode(size: nat, avoidConfusion: bool, choice: nat -> char) returns (code: string)
    requires forall i | 0 <= i < size :: choice(i) in ALPHABET
    ensures code in Words(if avoidConfusion then CLEAR else ALPHABET, size)
    ensures |code| == size && forall i | 0 <= i < size ::
              code[i] == if !avoidConfusion then choice(i)
                         else if choice(i) == '0' then 'O' else if choice(i) == '1' then 'I' else choice(i)
  {
    code := "";
    for k := 0 to size
      invariant |code| == k && forall i | 0 <= i < k :: code[i] == choice(i)
    {
      code := code + [choice(k)];
    }
    if avoidConfusion {
      code := Unconfused(code);
    }
    WordsAre(if avoidConfusion then CLEAR else ALPHABET, size, code);
  }

  // ---- Counting ------------------------------------------------------------------------

  ghost function Pow(b: nat, n: nat): nat {
    if n == 0 then 1 else b * Pow(b, n - 1)
  }

  lemma {:induction false} RangeSize(lo: char, hi: char)
    requires lo <= hi < 'a'
    ensures |Range(lo, hi)| == hi as int - lo as int + 1
    decreases hi as int
  {
    if lo == hi {
      assert Range(lo, hi) == {lo};
    } else {
      var prev := (hi as int - 1) as char;
      RangeSize(lo, prev);
      assert Range(lo, hi) == Range(lo, prev) + {hi};
    }
  }

  lemma AlphabetSizes()
    ensures |ALPHABET| == 36 && |CLEAR| == 34
  {
    RangeSize('A', 'Z');
    RangeSize('0', '9');
    RangeSize('2', '9');
    assert Range('A', 'Z') !! Range('0', '9') && Range('A', 'Z') !! Range('2', '9');
  }

  lemma PrependHas(heads: set<char>, tails: set<string>, s: string)
    ensures s in Prepend(heads, tails) <==> s != "" && s[0] in heads && s[1..] in tails
  {
    if s in Prepend(heads, tails) {
      var c, t :| c in heads && t in tails && s == [c] + t;
      assert ([c] + t)[1..] == t;
    } else if s != "" {
      assert s == [s[0]] + s[1..];
    }
  }

  lemma {:induction false} PrependOneSize(c: char, tails: set<string>)
    ensures |Prepend({c}, tails)| == |tails|
  {
    if tails == {} {
      assert Prepend({c}, tails) == {};
    } else {
      var t :| t in tails;
      PrependOneSize(c, tails - {t});
      forall s ensures s in Prepend({c}, tails) <==> s in Prepend({c}, tails - {t}) + {[c] + t} {
        PrependHas({c}, tails, s);
        PrependHas({c}, tails - {t}, s);
      }
      assert Prepend({c}, tails) == Prepend({c}, tails - {t}) + {[c] + t};
      assert [c] + t !in Prepend({c}, tails - {t}) by {
        PrependHas({c}, tails - {t}, [c] + t);
        assert ([c] + t)[1..] == t;
      }
    }
  }

  lemma PrependSplit(heads: set<char>, c: char, tails: set<string>)
    requires c in heads
    ensures Prepend(heads, tails) == Prepend(heads - {c}, tails) + Prepend({c}, tails)
    ensures Prepend(heads - {c}, tails) !! Prepend({c}, tails)
  {
    forall s
      ensures s in Prepend(heads, tails) <==> s in Prepend(heads - {c}, tails) || s in Prepend({c}, tails)
      ensures s !in Prepend(heads - {c}, tails) || s !in Prepend({c}, tails)
    {
      PrependHas(heads, tails, s);
      PrependHas(heads - {c}, tails, s);
      PrependHas({c}, tails, s);
    }
  }

  lemma {:induction false} PrependSize(heads: set<char>, tails: set<string>)
    ensures |Prepend(heads, tails)| == |heads| * |tails|
  {
    if heads == {} {
      assert Prepend(heads, tails) == {};
    } else {
      var c :| c in heads;
      PrependSize(heads - {c}, tails);
      PrependOneSize(c, tails);
      PrependSplit(heads, c, tails);
      assert |heads| * |tails| == (|heads - {c}| + 1) * |tails|;
    }
  }

  lemma {:induction false} WordsSize(alpha: set<char>, n: nat)
    ensures |Words(alpha, n)| == Pow(|alpha|, n)
  {
    if n > 0 {
      WordsSize(alpha, n - 1);
      PrependSize(alpha, Words(alpha, n - 1));
    }
  }

  function Ambiguous(code: string): nat {
    if code == "" then 0 else (if code[0] in {'O', 'I'} then 1 else 0) + Ambiguous(code[1..])
  }

  /** The raw draws that come out as `code`. */
  ghost function Draws(code: string): set<string> {
    set r | r in Words(ALPHABET, |code|) && Unconfused(r) == code
  }

  ghost function Sources(c: char): set<char> {
    set d | d in ALPHABET && Plain(d) == c
  }

  lemma SourcesSize(c: char)
    requires c in CLEAR
    ensures |Sources(c)| == if c in {'O', 'I'} then 2 else 1
  {
    if c == 'O' {
      assert Sources(c) == {'O', '0'};
    } else if c == 'I' {
      assert Sources(c) == {'I', '1'};
    } else {
      assert Sources(c) == {c};
    }
  }

  lemma UnconfusedCons(c: char, r: string)
    ensures Unconfused([c] + r) == [Plain(c)] + Unconfused(r)
  {
    var left, right := Unconfused([c] + r), [Plain(c)] + Unconfused(r);
    forall i | 0 <= i < |left| ensures left[i] == right[i] {
      UnconfusedAt([c] + r, i);
      if i > 0 { UnconfusedAt(r, i - 1); }
    }
  }

  lemma DrawsCons(c: char, s: string)
    ensures Draws([c] + s) == Prepend(Sources(c), Draws(s))
  {
    assert ([c] + s)[1..] == s;
    forall r ensures r in Draws([c] + s) <==> r in Prepend(Sources(c), Draws(s)) {
      PrependHas(Sources(c), Draws(s), r);
      PrependHas(ALPHABET, Words(ALPHABET, |s|), r);
      if r != "" {
        assert r == [r[0]] + r[1..];
        UnconfusedCons(r[0], r[1..]);
        assert ([Plain(r[0])] + Unconfused(r[1..]))[1..] == Unconfused(r[1..]);
      } else {
        assert Unconfused(r) == "";
      }
    }
  }

  /** A code with k letters among O and I comes from exactly 2^k raw draws. */
  lemma {:induction false} DrawsCount(code: string)
    requires code in Words(CLEAR, |code|)
    ensures |Draws(code)| == Pow(2, Ambiguous(code))
  {
    WordsAre(CLEAR, |code|, code);
    if code == "" {
      assert Unconfused("") == "";
      assert Draws(code) == {""};
    } else {
      var c, s := code[0], code[1..];
      assert code == [c] + s;
      WordsAre(CLEAR, |s|, s);
      DrawsCount(s);
      DrawsCons(c, s);
      SourcesSize(c);
      PrependSize(Sources(c), Draws(s));
    }
  }

  /** What is ever generated: exactly the n-letter strings over the 34 clear symbols. */
  lemma OutputsAreClearWords(n: nat, code: string)
    ensures (exists r :: r in Words(ALPHABET, n) && Unconfused(r) == code) <==> code in Words(CLEAR, n)
  {
    WordsAre(CLEAR, n, code);
    if code in Words(CLEAR, n) {
      WordsAre(ALPHABET, n, code);
      forall i | 0 <= i < n ensures Unconfused(code)[i] == code[i] {
        UnconfusedAt(code, i);
      }
      assert Unconfused(code) == code;
    }
    forall r | r in Words(ALPHABET, n) && Unconfused(r) == code ensures code in Words(CLEAR, n) {
      WordsAre(ALPHABET, n, r);
      forall i | 0 <= i < n ensures code[i] in CLEAR {
        UnconfusedAt(r, i);
      }
    }
  }

  ghost function TotalDraws(codes: set<string>): nat {
    if codes == {} then 0
    else
      var c :| c in codes;
      Pow(2, Ambiguous(c)) + TotalDraws(codes - {c})
  }

  ghost function DrawsOf(n: nat, codes: set<string>): set<string> {
    set r | r in Words(ALPHABET, n) && Unconfused(r) in codes
  }

  lemma DrawsSplit(n: nat, codes: set<string>, c: string)
    requires c in codes && |c| == n
    ensures DrawsOf(n, codes) == DrawsOf(n, codes - {c}) + Draws(c)
    ensures DrawsOf(n, codes - {c}) !! Draws(c)
  {
  }

  lemma {:induction false} DrawsInto(n: nat, codes: set<string>)
    requires codes <= Words(CLEAR, n)
    ensures |DrawsOf(n, codes)| == TotalDraws(codes)
  {
    if codes == {} {
      assert DrawsOf(n, codes) == {};
    } else {
      var c :| c in codes && TotalDraws(codes) == Pow(2, Ambiguous(c)) + TotalDraws(codes - {c});
      DrawsInto(n, codes - {c});
      WordsAre(CLEAR, n, c);
      DrawsCount(c);
      DrawsSplit(n, codes, c);
    }
  }

  /** The draws of all codes add up to all raw draws, 36^n of them. */
  lemma DrawsAddUp(n: nat)
    ensures TotalDraws(Words(CLEAR, n)) == Pow(36, n)
  {
    DrawsInto(n, Words(CLEAR, n));
    forall r | r in Words(ALPHABET, n) ensures Unconfused(r) in Words(CLEAR, n) {
      OutputsAreClearWords(n, Unconfused(r));
    }
    assert DrawsOf(n, Words(CLEAR, n)) == Words(ALPHABET, n);
    WordsSize(ALPHABET, n);
    AlphabetSizes();
  }

  /** While fewer than 34^n codes are in use some code is free. */
  lemma FreeCodeExists(n: nat, used: set<string>)
    requires |used| < Pow(34, n)
    ensures exists code :: code in Words(CLEAR, n) && code !in used
  {
    WordsSize(CLEAR, n);
    AlphabetSizes();
    if Words(CLEAR, n) <= used {
      SubsetSize(Words(CLEAR, n), used);
    }
  }

  lemma {:induction false} SubsetSize(a: set<string>, b: set<string>)
    requires a <= b
    ensures |a| <= |b|
  {
    if a != {} {
      var x :| x in a;
      SubsetSize(a - {x}, b - {x});
    }
  }

  // ---- Looking for an unused code ------------------------------------------------------

  /** _generate_unused_code: `draw` gives the code of each attempt, `found` the codes whose lookup
      returns a row that is not deleted. A code that only a deleted row has counts as unused,
      because Deleted is a NotFound. The result is the first draw not found; it gives up only when
      all of the first 101 draws are found. */
  method GenerateUnusedCode(draw: nat -> string, found: set<string>) returns (r: Result<string, ()>)
    ensures r.Err? <==> forall k | 0 <= k <= 100 :: draw(k) in found
    ensures r.Ok? ==> exists k | 0 <= k <= 100 ::
              r.value == draw(k) && draw(k) !in found && forall j | 0 <= j < k :: draw(j) in found
  {
    var attempt := 0;
    while true
      invariant 0 <= attempt <= CODE_MAX_ATTEMPTS
      invariant forall k | 0 <= k < attempt :: draw(k) in found
      decreases CODE_MAX_ATTEMPTS + 1 - attempt
    {
      attempt := attempt + 1;
      var code := draw(attempt - 1);
      if code !in found {
        return Ok(code);
      }
      if attempt > CODE_MAX_ATTEMPTS {
        return Err(());
      }
    }
  }
}
