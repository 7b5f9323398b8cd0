/** Public context keys (app/public_context_keys.py): the bounded breadth-first
    decoding of a key and the checks made on everything it can decode to. The two
    percent decoders are parameters: the results hold for any two functions. */
module KeyDecoder {
  import opened Sequences

  const DEPTH: nat := 8

  datatype Decoders = Decoders(unquote: string -> string, unquotePlus: string -> string)

  function Decoded(f: Decoders, s: string): set<string> {
    {f.unquote(s), f.unquotePlus(s)}
  }

  /** Strings reached by exactly `n` decodes. */
  function Level(f: Decoders, raw: string, n: nat): set<string> {
    if n == 0 then {raw} else set s, d | s in Level(f, raw, n - 1) && d in Decoded(f, s) :: d
  }

  /** Strings reached by exactly `n` decodes each of which changed the string. */
  function Changed(f: Decoders, raw: string, n: nat): set<string> {
    if n == 0 then {raw} else set s, d | s in Changed(f, raw, n - 1) && d in Decoded(f, s) && d != s :: d
  }

  /** By any number of decodes. */
  ghost predicate Reachable(f: Decoders, raw: string, s: string) {
    exists n: nat :: s in Level(f, raw, n)
  }

  ghost predicate WithinBudget(f: Decoders, raw: string, s: string) {
    exists n: nat :: n <= DEPTH && s in Changed(f, raw, n)
  }

  /** Nothing still changes after the last decode the budget allows. */
  predicate Settles(f: Decoders, raw: string) {
    Changed(f, raw, DEPTH + 1) == {}
  }

  // ---- The work list -------------------------------------------------------------------------------

  function Power(n: nat): nat { if n == 0 then 1 else 2 * Power(n - 1) }

  lemma {:induction false} PowerPositive(n: nat)
    ensures Power(n) >= 1
  {
    if n > 0 { PowerPositive(n - 1); }
  }

  type Item = (string, nat)

  /** What an entry can still cost: itself and everything decoded from it. */
  function Weight(depth: nat): int {
    if depth > DEPTH then 0 else Power(DEPTH + 1 - depth) - 1
  }

  function Work(pending: seq<Item>): int {
    if pending == [] then 0 else Weight(pending[0].1) + Work(pending[1..])
  }

  lemma {:induction false} WorkNatural(pending: seq<Item>)
    ensures Work(pending) >= 0
  {
    if pending != [] {
      WorkNatural(pending[1..]);
      if pending[0].1 <= DEPTH { PowerPositive(DEPTH + 1 - pending[0].1); }
    }
  }

  lemma {:induction false} WorkConcat(a: seq<Item>, b: seq<Item>)
    ensures Work(a + b) == Work(a) + Work(b)
    decreases |a|
  {
    if a == [] {
      assert a + b == b;
    } else {
      assert (a + b)[1..] == a[1..] + b;
      WorkConcat(a[1..], b);
    }
  }

  /** Replacing an entry by at most two of the next depth lowers the work. */
  lemma WorkFalls(rest: seq<Item>, more: seq<Item>, depth: nat)
    requires depth < DEPTH && |more| <= 2 && forall x :: x in more ==> x.1 == depth + 1
    ensures Work(rest + more) < Weight(depth) + Work(rest)
  {
    WorkConcat(rest, more);
    PowerPositive(DEPTH - depth);
    if |more| == 2 {
      assert more[0] in more && more[1] in more;
      assert Work(more[1..][1..]) == 0;
      assert Work(more[1..]) == Weight(depth + 1);
    } else if |more| == 1 {
      assert more[0] in more;
      assert more[1..] == [];
    }
  }

  /** The changed decodings of a string at the next depth, in either order: the
      source walks a set. */
  method Successors(f: Decoders, s: string, depth: nat) returns (more: seq<Item>)
    ensures |more| <= 2
    ensures forall x :: x in more <==> x.1 == depth + 1 && x.0 in Decoded(f, s) && x.0 != s
  {
    var a, b := f.unquote(s), f.unquotePlus(s);
    if * { a, b := b, a; }
    more := if a != s then [(a, depth + 1)] else [];
    if b != a && b != s { more := more + [(b, depth + 1)]; }
  }

  ghost predicate Known(done: set<Item>, pending: seq<Item>, x: Item) {
    x in done || x in pending
  }

  /** Every entry was reached at its depth, and whatever follows from a finished
      entry is known. */
  ghost predicate Explored(f: Decoders, raw: string, done: set<Item>, pending: seq<Item>) {
    && Known(done, pending, (raw, 0))
    && (forall x: Item :: Known(done, pending, x) ==> x.1 <= DEPTH && x.0 in Changed(f, raw, x.1))
    && (forall x: Item, d :: x in done && x.1 < DEPTH && d in Decoded(f, x.0) && d != x.0 ==> Known(done, pending, (d, x.1 + 1)))
  }

  lemma ExploredStep(f: Decoders, raw: string, done: set<Item>, pending: seq<Item>, more: seq<Item>)
    requires pending != [] && Explored(f, raw, done, pending)
    requires if pending[0].1 < DEPTH
             then forall x :: x in more <==> x.1 == pending[0].1 + 1 && x.0 in Decoded(f, pending[0].0) && x.0 != pending[0].0
             else more == []
    ensures Explored(f, raw, done + {pending[0]}, pending[1..] + more)
  {
    hide Decoded;
    var x := pending[0];
    var done', pending' := done + {x}, pending[1..] + more;
    assert pending == [x] + pending[1..];
    assert forall y :: Known(done', pending', y) <==> Known(done, pending, y) || y in more;
    assert Known(done, pending, x);
    forall y | y in more ensures y.1 <= DEPTH && y.0 in Changed(f, raw, y.1) {
    }
  }

  lemma {:induction false} ExploredAll(f: Decoders, raw: string, done: set<Item>, n: nat, s: string)
    requires Explored(f, raw, done, []) && n <= DEPTH && s in Changed(f, raw, n)
    ensures (s, n) in done
  {
    assert Known(done, [], (raw, 0));
    if n > 0 {
      var s' :| s' in Changed(f, raw, n - 1) && s in Decoded(f, s') && s != s';
      ExploredAll(f, raw, done, n - 1, s');
      assert Known(done, [], (s, (s', n - 1).1 + 1));
    }
  }

  ghost predicate Collected(done: set<Item>, candidates: seq<string>) {
    NoDup(candidates) && forall s :: s in candidates <==> s != "" && exists n :: (s, n) in done
  }

  lemma CollectedStep(done: set<Item>, candidates: seq<string>, x: Item)
    requires Collected(done, candidates)
    ensures Collected(done + {x}, if x.0 != "" && x.0 !in candidates then candidates + [x.0] else candidates)
  {
    var done' := done + {x};
    var candidates' := if x.0 != "" && x.0 !in candidates then candidates + [x.0] else candidates;
    assert x in done';
    forall s ensures s in candidates' <==> s != "" && exists n :: (s, n) in done' {
      if s in candidates {
        var n :| (s, n) in done;
        assert (s, n) in done';
      }
      if s == x.0 { assert (s, x.1) in done'; }
    }
  }

  ghost predicate StillChanging(f: Decoders, done: set<Item>) {
    exists x :: x in done && x.1 == DEPTH && exists d :: d in Decoded(f, x.0) && d != x.0
  }

  lemma StillChangingStep(f: Decoders, done: set<Item>, x: Item)
    ensures StillChanging(f, done + {x}) <==>
              StillChanging(f, done) || (x.1 == DEPTH && (f.unquote(x.0) != x.0 || f.unquotePlus(x.0) != x.0))
  {
    var done' := done + {x};
    assert x in done';
    if StillChanging(f, done) {
      var y :| y in done && y.1 == DEPTH && exists d :: d in Decoded(f, y.0) && d != y.0;
      assert y in done';
    }
    assert f.unquote(x.0) in Decoded(f, x.0) && f.unquotePlus(x.0) in Decoded(f, x.0);
  }

  /** What the finished search means. */
  lemma SearchExact(f: Decoders, raw: string, done: set<Item>, candidates: seq<string>)
    requires Explored(f, raw, done, []) && Collected(done, candidates)
    ensures forall s :: s in candidates <==> s != "" && WithinBudget(f, raw, s)
    ensures StillChanging(f, done) <==> !Settles(f, raw)
  {
    hide Decoded, Changed;
    forall n: nat, s | n <= DEPTH && s in Changed(f, raw, n) ensures (s, n) in done {
      ExploredAll(f, raw, done, n, s);
    }
    forall x | x in done ensures x.1 <= DEPTH && x.0 in Changed(f, raw, x.1) {
      assert Known(done, [], x);
    }
    forall s, n | (s, n) in done ensures WithinBudget(f, raw, s) {
      assert (s, n).1 <= DEPTH && s in Changed(f, raw, n);
    }
    LastLevel(f, raw);
    if StillChanging(f, done) {
      var x :| x in done && x.1 == DEPTH && exists d :: d in Decoded(f, x.0) && d != x.0;
      assert x.0 in Changed(f, raw, DEPTH);
    }
    if !Settles(f, raw) {
      var s, d :| s in Changed(f, raw, DEPTH) && d in Decoded(f, s) && d != s;
      assert (s, DEPTH) in done;
    }
  }

  lemma LastLevel(f: Decoders, raw: string)
    ensures !Settles(f, raw) <==> exists s, d :: s in Changed(f, raw, DEPTH) && d in Decoded(f, s) && d != s
  {
    hide Decoded;
    var last := Changed(f, raw, DEPTH + 1);
    assert last == set s, d | s in Changed(f, raw, DEPTH) && d in Decoded(f, s) && d != s :: d;
    if d' :| d' in last {
      var s, d :| s in Changed(f, raw, DEPTH) && d in Decoded(f, s) && d != s && d == d';
    }
    if s, d :| s in Changed(f, raw, DEPTH) && d in Decoded(f, s) && d != s {
      assert d in last;
    }
  }

  /** The bounded decoding: the candidates are the non-empty strings reached by at
      most eight changing decodes, and the budget is exhausted exactly when some
      string still changes after them. */
  method Candidates(f: Decoders, raw: string) returns (candidates: seq<string>, exhausted: bool)
    ensures NoDup(candidates)
    ensures forall s :: s in candidates <==> s != "" && WithinBudget(f, raw, s)
    ensures exhausted <==> !Settles(f, raw)
  {
    candidates, exhausted := [], false;
    var pending: seq<Item> := [(raw, 0)];
    ghost var done: set<Item> := {};
    Begin(f, raw);
    hide Explored, Collected, StillChanging, Changed, Decoded, WithinBudget, Settles, NoDup, Work, Weight;
    while pending != []
      invariant Explored(f, raw, done, pending)
      invariant Collected(done, candidates)
      invariant exhausted <==> StillChanging(f, done)
      decreases Work(pending)
    {
      var (current, depth) := pending[0];
      CollectedStep(done, candidates, pending[0]);
      StillChangingStep(f, done, pending[0]);
      WorkSplits(pending);
      if current != "" && current !in candidates { candidates := candidates + [current]; }
      var more: seq<Item> := [];
      if depth >= DEPTH {
        if f.unquote(current) != current || f.unquotePlus(current) != current { exhausted := true; }
        AtLimit(f, raw, done, pending);
      } else {
        more := Successors(f, current, depth);
        WorkFalls(pending[1..], more, depth);
      }
      ExploredStep(f, raw, done, pending, more);
      done := done + {pending[0]};
      assert pending[1..] + [] == pending[1..];
      WorkNatural(pending[1..] + more);
      pending := pending[1..] + more;
    }
    SearchExact(f, raw, done, candidates);
    CollectedDistinct(done, candidates);
  }

  lemma Begin(f: Decoders, raw: string)
    ensures Explored(f, raw, {}, [(raw, 0)]) && Collected({}, []) && !StillChanging(f, {})
  {
    assert Known({}, [(raw, 0)], (raw, 0));
  }

  lemma WorkSplits(pending: seq<Item>)
    requires pending != []
    ensures Work(pending) == Weight(pending[0].1) + Work(pending[1..])
  {
  }

  lemma AtLimit(f: Decoders, raw: string, done: set<Item>, pending: seq<Item>)
    requires pending != [] && Explored(f, raw, done, pending) && pending[0].1 >= DEPTH
    ensures pending[0].1 == DEPTH && Weight(DEPTH) == 1
  {
    assert Known(done, pending, pending[0]);
    assert Power(1) == 2;
  }

  lemma CollectedDistinct(done: set<Item>, candidates: seq<string>)
    requires Collected(done, candidates)
    ensures NoDup(candidates)
  {
  }

  // ---- Any number of decodes -------------------------------------------------------------------------

  lemma {:induction false} LevelChanged(f: Decoders, raw: string, n: nat, s: string)
    requires s in Level(f, raw, n)
    ensures exists m: nat :: m <= n && s in Changed(f, raw, m)
  {
    if n == 0 {
      assert s in Changed(f, raw, 0);
    } else {
      var s' :| s' in Level(f, raw, n - 1) && s in Decoded(f, s');
      LevelChanged(f, raw, n - 1, s');
      var m: nat :| m <= n - 1 && s' in Changed(f, raw, m);
      if s != s' { assert s in Changed(f, raw, m + 1); }
    }
  }

  lemma {:induction false} ChangedLevel(f: Decoders, raw: string, n: nat)
    ensures Changed(f, raw, n) <= Level(f, raw, n)
  {
    if n > 0 { ChangedLevel(f, raw, n - 1); }
  }

  lemma {:induction false} ChangedVanishes(f: Decoders, raw: string, n: nat, m: nat)
    requires Changed(f, raw, n) == {} && n <= m
    ensures Changed(f, raw, m) == {}
    decreases m
  {
    if m > n { ChangedVanishes(f, raw, n, m - 1); }
  }

  /** With the budget not exhausted, eight decodes reach all that any number reaches. */
  lemma BudgetSuffices(f: Decoders, raw: string, s: string)
    requires Settles(f, raw)
    ensures WithinBudget(f, raw, s) <==> Reachable(f, raw, s)
  {
    if WithinBudget(f, raw, s) {
      var n: nat :| n <= DEPTH && s in Changed(f, raw, n);
      ChangedLevel(f, raw, n);
    }
    if Reachable(f, raw, s) {
      var n: nat :| s in Level(f, raw, n);
      LevelChanged(f, raw, n, s);
      var m: nat :| m <= n && s in Changed(f, raw, m);
      if m > DEPTH { ChangedVanishes(f, raw, DEPTH + 1, m); }
    }
  }

  lemma {:induction false} ChangedShift(f: Decoders, raw: string, d: string, n: nat)
    requires d in Decoded(f, raw) && d != raw
    ensures Changed(f, d, n) <= Changed(f, raw, n + 1)
  {
    if n == 0 {
      assert raw in Changed(f, raw, 0);
    } else {
      ChangedShift(f, raw, d, n - 1);
      forall x | x in Changed(f, d, n) ensures x in Changed(f, raw, n + 1) {
        var s :| s in Changed(f, d, n - 1) && x in Decoded(f, s) && x != s;
        assert s in Changed(f, raw, n);
      }
    }
  }

  lemma {:induction false} LevelShift(f: Decoders, raw: string, d: string, n: nat)
    requires d in Decoded(f, raw)
    ensures Level(f, d, n) <= Level(f, raw, n + 1)
  {
    if n == 0 {
      assert raw in Level(f, raw, 0);
    } else {
      LevelShift(f, raw, d, n - 1);
      forall x | x in Level(f, d, n) ensures x in Level(f, raw, n + 1) {
        var s :| s in Level(f, d, n - 1) && x in Decoded(f, s);
        assert s in Level(f, raw, n);
      }
    }
  }

  lemma OneDecode(f: Decoders, raw: string, d: string)
    requires d in Decoded(f, raw) && Settles(f, raw)
    ensures Settles(f, d)
    ensures forall s :: Reachable(f, d, s) ==> Reachable(f, raw, s)
  {
    hide Decoded, Changed, Level;
    if d != raw {
      ChangedShift(f, raw, d, DEPTH + 1);
      ChangedVanishes(f, raw, DEPTH + 1, DEPTH + 2);
    }
    forall s | Reachable(f, d, s) ensures Reachable(f, raw, s) {
      var n: nat :| s in Level(f, d, n);
      LevelShift(f, raw, d, n);
      assert s in Level(f, raw, n + 1);
    }
  }

  // ---- The checks ------------------------------------------------------------------------------------

  /** White space, normalisation and tokenisation of a string, the aliases refused
      outright, the token sequences refused anywhere, and the final sanitiser. */
  datatype Rules = Rules(white: char -> bool, normalise: string -> string, tokens: string -> seq<string>,
                         aliases: set<string>, sequences: seq<seq<string>>, sanitised: string -> bool)

  /** The string without white space at its ends. */
  function Strip(rules: Rules, s: string): string {
    if s == "" then ""
    else if rules.white(s[0]) then Strip(rules, s[1..])
    else if rules.white(s[|s| - 1]) then Strip(rules, s[..|s| - 1])
    else s
  }

  predicate RefusedAlias(rules: Rules, normalized: string) {
    normalized in rules.aliases || "provenance" <= normalized || "summary" <= normalized
  }

  predicate StandsAt(tokens: seq<string>, sequence: seq<string>, i: nat) {
    i + |sequence| <= |tokens| && tokens[i..i + |sequence|] == sequence
  }

  /** Some refused sequence occurs in the tokens, contiguously. */
  predicate RefusedTokens(rules: Rules, tokens: seq<string>) {
    exists sequence :: sequence in rules.sequences && exists i :: 0 <= i <= |tokens| && StandsAt(tokens, sequence, i)
  }

  /** A string that must not be reachable from a public key. */
  predicate Refused(rules: Rules, s: string) {
    || (rules.normalise(s) != "" && RefusedAlias(rules, rules.normalise(s)))
    || (rules.tokens(s) != [] && RefusedTokens(rules, rules.tokens(s)))
  }

  /** Images of the candidates without repetition, the empty image left out. */
  method Images<T(==,!new)>(candidates: seq<string>, image: string -> T, none: T) returns (images: seq<T>)
    ensures NoDup(images)
    ensures forall x :: x in images <==> x != none && exists c :: c in candidates && image(c) == x
  {
    images := [];
    for i := 0 to |candidates|
      invariant NoDup(images)
      invariant forall x :: x in images <==> x != none && exists c :: c in candidates[..i] && image(c) == x
    {
      assert candidates[..i + 1] == candidates[..i] + [candidates[i]];
      ghost var before := images;
      var x := image(candidates[i]);
      if x != none && x !in images { images := images + [x]; }
      forall y ensures y in images <==> y != none && exists c :: c in candidates[..i + 1] && image(c) == y {
        if c :| c in candidates[..i] && image(c) == y { assert c in candidates[..i + 1]; }
        if y == x { assert candidates[i] in candidates[..i + 1]; }
      }
    }
    assert candidates[..|candidates|] == candidates;
  }

  /** The checks of a key before the sanitiser. */
  ghost predicate Acceptable(f: Decoders, rules: Rules, key: string) {
    Settles(f, key) && forall s :: s != "" && Reachable(f, key, s) ==> !Refused(rules, s)
  }

  lemma CandidatesDecide(f: Decoders, rules: Rules, key: string, candidates: seq<string>)
    requires Settles(f, key)
    requires forall s :: s in candidates <==> s != "" && WithinBudget(f, key, s)
    ensures Acceptable(f, rules, key) <==> forall s :: s in candidates ==> !Refused(rules, s)
  {
    hide Refused, WithinBudget, Reachable, Settles;
    forall s ensures WithinBudget(f, key, s) <==> Reachable(f, key, s) {
      BudgetSuffices(f, key, s);
    }
  }

  /** Whether a key may be shown: nothing it decodes to, however often, is refused. */
  method IsPublicKey(f: Decoders, rules: Rules, value: string) returns (ok: bool)
    ensures var key := Strip(rules, value);
            ok <==> key != "" && Acceptable(f, rules, key) && rules.sanitised(key)
  {
    var key := Strip(rules, value);
    if key == "" { return false; }
    var candidates, exhausted := Candidates(f, key);
    hide Settles, WithinBudget, RefusedAlias, RefusedTokens, Strip;
    if exhausted { return false; }
    var normalized := Images(candidates, rules.normalise, "");
    var tokens := Images(candidates, rules.tokens, []);
    CandidatesDecide(f, rules, key, candidates);
    if exists x :: x in normalized && RefusedAlias(rules, x) { return false; }
    if exists t :: t in tokens && RefusedTokens(rules, t) { return false; }
    assert forall s :: s in candidates ==> !Refused(rules, s);
    return rules.sanitised(key);
  }

  /** An acceptable key stays acceptable after any number of further decodes. */
  lemma {:induction false} AcceptableForever(f: Decoders, rules: Rules, key: string, n: nat, s: string)
    requires Acceptable(f, rules, key) && s in Level(f, key, n)
    ensures Acceptable(f, rules, s)
  {
    if n > 0 {
      var s' :| s' in Level(f, key, n - 1) && s in Decoded(f, s');
      AcceptableForever(f, rules, key, n - 1, s');
      hide Refused, Reachable, Settles, Decoded, Level;
      OneDecode(f, s', s);
    }
  }

  // ---- White space ------------------------------------------------------------------------------------

  predicate Blank(rules: Rules, s: string) {
    forall i :: 0 <= i < |s| ==> rules.white(s[i])
  }

  /** What percent decoding, normalisation and tokenisation do with white space around a
      string: the decoders leave it there, the other two do not see it. */
  ghost predicate BlankLaws(f: Decoders, rules: Rules) {
    && (forall pre, s, suf :: Blank(rules, pre) && Blank(rules, suf) ==>
          && f.unquote(Pad(pre, s, suf)) == Pad(pre, f.unquote(s), suf)
          && f.unquotePlus(Pad(pre, s, suf)) == Pad(pre, f.unquotePlus(s), suf)
          && rules.normalise(Pad(pre, s, suf)) == rules.normalise(s)
          && rules.tokens(Pad(pre, s, suf)) == rules.tokens(s))
    && rules.normalise("") == "" && rules.tokens("") == []
  }

  function Pad(pre: string, s: string, suf: string): string {
    pre + s + suf
  }

  lemma PadInjective(pre: string, s: string, t: string, suf: string)
    requires Pad(pre, s, suf) == Pad(pre, t, suf)
    ensures s == t
  {
    var p := Pad(pre, s, suf);
    assert s == p[|pre|..|p| - |suf|] && t == p[|pre|..|p| - |suf|];
  }

  lemma {:induction false} StripPads(rules: Rules, s: string) returns (pre: string, suf: string)
    ensures Blank(rules, pre) && Blank(rules, suf) && s == Pad(pre, Strip(rules, s), suf)
    decreases |s|
  {
    if s == "" {
      pre, suf := "", "";
    } else if rules.white(s[0]) {
      pre, suf := StripPads(rules, s[1..]);
      pre := [s[0]] + pre;
      assert s == [s[0]] + s[1..];
    } else if rules.white(s[|s| - 1]) {
      pre, suf := StripPads(rules, s[..|s| - 1]);
      suf := suf + [s[|s| - 1]];
      assert s == s[..|s| - 1] + [s[|s| - 1]];
    } else {
      pre, suf := "", "";
    }
  }

  lemma DecodedPadded(f: Decoders, rules: Rules, pre: string, s: string, suf: string)
    requires BlankLaws(f, rules) && Blank(rules, pre) && Blank(rules, suf)
    ensures Decoded(f, Pad(pre, s, suf)) == set d | d in Decoded(f, s) :: Pad(pre, d, suf)
  {
    hide Pad, Blank;
  }

  lemma {:induction false} LevelPadded(f: Decoders, rules: Rules, pre: string, s: string, suf: string, n: nat)
    requires BlankLaws(f, rules) && Blank(rules, pre) && Blank(rules, suf)
    ensures forall y :: y in Level(f, Pad(pre, s, suf), n) <==> exists x :: x in Level(f, s, n) && y == Pad(pre, x, suf)
  {
    hide BlankLaws, Blank, Pad, Decoded;
    if n > 0 {
      LevelPadded(f, rules, pre, s, suf, n - 1);
      forall y ensures y in Level(f, Pad(pre, s, suf), n) <==> exists x :: x in Level(f, s, n) && y == Pad(pre, x, suf) {
        if y in Level(f, Pad(pre, s, suf), n) {
          var y' :| y' in Level(f, Pad(pre, s, suf), n - 1) && y in Decoded(f, y');
          var x' :| x' in Level(f, s, n - 1) && y' == Pad(pre, x', suf);
          DecodedPadded(f, rules, pre, x', suf);
          var x :| x in Decoded(f, x') && y == Pad(pre, x, suf);
          assert x in Level(f, s, n);
        }
        if x :| x in Level(f, s, n) && y == Pad(pre, x, suf) {
          var x' :| x' in Level(f, s, n - 1) && x in Decoded(f, x');
          DecodedPadded(f, rules, pre, x', suf);
          assert Pad(pre, x', suf) in Level(f, Pad(pre, s, suf), n - 1) && y in Decoded(f, Pad(pre, x', suf));
        }
      }
    }
  }

  lemma {:induction false} ChangedPadded(f: Decoders, rules: Rules, pre: string, s: string, suf: string, n: nat)
    requires BlankLaws(f, rules) && Blank(rules, pre) && Blank(rules, suf)
    ensures forall y :: y in Changed(f, Pad(pre, s, suf), n) <==> exists x :: x in Changed(f, s, n) && y == Pad(pre, x, suf)
  {
    hide BlankLaws, Blank, Pad, Decoded;
    if n > 0 {
      ChangedPadded(f, rules, pre, s, suf, n - 1);
      forall y ensures y in Changed(f, Pad(pre, s, suf), n) <==> exists x :: x in Changed(f, s, n) && y == Pad(pre, x, suf) {
        if y in Changed(f, Pad(pre, s, suf), n) {
          var y' :| y' in Changed(f, Pad(pre, s, suf), n - 1) && y in Decoded(f, y') && y != y';
          var x' :| x' in Changed(f, s, n - 1) && y' == Pad(pre, x', suf);
          DecodedPadded(f, rules, pre, x', suf);
          var x :| x in Decoded(f, x') && y == Pad(pre, x, suf);
          assert x in Changed(f, s, n);
        }
        if x :| x in Changed(f, s, n) && y == Pad(pre, x, suf) {
          var x' :| x' in Changed(f, s, n - 1) && x in Decoded(f, x') && x != x';
          DecodedPadded(f, rules, pre, x', suf);
          if Pad(pre, x, suf) == Pad(pre, x', suf) { PadInjective(pre, x, x', suf); }
          assert Pad(pre, x', suf) in Changed(f, Pad(pre, s, suf), n - 1) && y in Decoded(f, Pad(pre, x', suf));
        }
      }
    }
  }

  lemma SettlesPadded(f: Decoders, rules: Rules, pre: string, s: string, suf: string)
    requires BlankLaws(f, rules) && Blank(rules, pre) && Blank(rules, suf)
    ensures Settles(f, Pad(pre, s, suf)) <==> Settles(f, s)
  {
    hide BlankLaws, Blank, Pad, Changed;
    ChangedPadded(f, rules, pre, s, suf, DEPTH + 1);
    var padded, plain := Changed(f, Pad(pre, s, suf), DEPTH + 1), Changed(f, s, DEPTH + 1);
    if x :| x in plain { assert Pad(pre, x, suf) in padded; }
  }

  lemma RefusedPadded(f: Decoders, rules: Rules, pre: string, s: string, suf: string)
    requires BlankLaws(f, rules) && Blank(rules, pre) && Blank(rules, suf)
    ensures Refused(rules, Pad(pre, s, suf)) <==> Refused(rules, s)
    ensures !Refused(rules, "")
  {
    hide RefusedAlias, RefusedTokens, Pad, Blank;
  }

  /** White space around a key makes no difference to the checks. */
  lemma PaddedAlike(f: Decoders, rules: Rules, pre: string, s: string, suf: string)
    requires BlankLaws(f, rules) && Blank(rules, pre) && Blank(rules, suf)
    ensures Acceptable(f, rules, Pad(pre, s, suf)) <==> Acceptable(f, rules, s)
  {
    hide BlankLaws, Blank, Refused, Settles, Level;
    SettlesPadded(f, rules, pre, s, suf);
    forall x ensures Reachable(f, s, x) ==> Reachable(f, Pad(pre, s, suf), Pad(pre, x, suf)) {
      if n: nat :| x in Level(f, s, n) {
        LevelPadded(f, rules, pre, s, suf, n);
        assert Pad(pre, x, suf) in Level(f, Pad(pre, s, suf), n);
      }
    }
    forall y | Reachable(f, Pad(pre, s, suf), y) ensures exists x :: Reachable(f, s, x) && y == Pad(pre, x, suf) {
      var n: nat :| y in Level(f, Pad(pre, s, suf), n);
      LevelPadded(f, rules, pre, s, suf, n);
      var x :| x in Level(f, s, n) && y == Pad(pre, x, suf);
      assert Reachable(f, s, x);
    }
    hide Reachable;
    RefusedPadded(f, rules, pre, s, suf);
    forall x ensures Refused(rules, Pad(pre, x, suf)) <==> Refused(rules, x) { RefusedPadded(f, rules, pre, x, suf); }
    assert forall x :: x != "" ==> Pad(pre, x, suf) != "";
  }

  /** A key that passes the checks still passes them after any number of further decodes,
      though every check strips its key first. */
  lemma PublicForever(f: Decoders, rules: Rules, value: string, n: nat, s: string)
    requires BlankLaws(f, rules) && Acceptable(f, rules, Strip(rules, value)) && s in Level(f, value, n)
    ensures Acceptable(f, rules, Strip(rules, s))
  {
    hide BlankLaws, Blank, Acceptable, Strip, Level, Pad;
    var pre, suf := StripPads(rules, value);
    PaddedAlike(f, rules, pre, Strip(rules, value), suf);
    AcceptableForever(f, rules, value, n, s);
    pre, suf := StripPads(rules, s);
    PaddedAlike(f, rules, pre, Strip(rules, s), suf);
  }
}
