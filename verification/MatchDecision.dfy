/** Which rule a file goes to, told on the list of rules alone: no filter, sort or narrowing
    appears here, only which rules match and what they say. */
module MatchDecision {
  import opened Text
  import opened FileService
  import opened CbosClient
  import opened UploadMatching
  import LaneState

  // ---- what a pattern, a name and an operator mean ----

  ghost predicate StartsWith(s: string, part: string) {
    exists rest: string :: s == part + rest
  }

  ghost predicate EndsWith(s: string, part: string) {
    exists front: string :: s == front + part
  }

  ghost predicate Contains(s: string, part: string) {
    exists front: string, rest: string :: s == front + part + rest
  }

  /** The operator as it is read: case, spaces and underscores do not count. */
  function Word(operator: string): string {
    Without(Without(Upper(Strip(operator)), ' '), '_')
  }

  lemma ContainsIsOccurs(s: string, part: string)
    ensures Contains(s, part) <==> Occurs(part, s)
  {
    if front: string, rest: string :| s == front + part + rest {
      assert OccursAt(part, s, |front|);
    }
    if i :| 0 <= i <= |s| && OccursAt(part, s, i) {
      assert s == s[..i] + part + s[i + |part|..];
    }
  }

  lemma EndsWithIs(s: string, part: string)
    ensures EndsWith(s, part) <==> |part| <= |s| && s[|s| - |part|..] == part
  {
    if |part| <= |s| && s[|s| - |part|..] == part {
      assert s == s[..|s| - |part|] + part;
    }
  }

  lemma StartsWithIs(s: string, part: string)
    ensures StartsWith(s, part) <==> part <= s
  {
    if part <= s {
      assert s == part + s[|part|..];
    }
  }

  /** What each operator asks of the name, letters compared without case; an operator CBOS
      has not used before asks that the pattern occur. */
  lemma OperatorsMean(pattern: string, operator: string, name: string)
    ensures var p, n, holds := Lower(pattern), Lower(name), PatternMatches(pattern, operator, name);
            && (Word(operator) in {"EQUALS", "EQUAL", "="} ==> (holds <==> n == p))
            && (Word(operator) == "STARTSWITH" ==> (holds <==> StartsWith(n, p)))
            && (Word(operator) == "ENDSWITH" ==> (holds <==> EndsWith(n, p)))
            && (Word(operator) !in {"EQUALS", "EQUAL", "=", "STARTSWITH", "ENDSWITH"} ==> (holds <==> Contains(n, p)))
  {
    StartsWithIs(Lower(name), Lower(pattern));
    EndsWithIs(Lower(name), Lower(pattern));
    ContainsIsOccurs(Lower(name), Lower(pattern));
    hide Lower, Upper, Strip, Without, Occurs, StartsWith, EndsWith, Contains;
  }

  /** A spelling with spaces, underscores or other case is the same operator. */
  lemma {:induction false} WithoutTakesAll(s: string, c: char)
    ensures c !in Without(s, c)
    ensures c !in s ==> Without(s, c) == s
  {
    if |s| > 0 {
      WithoutTakesAll(s[1..], c);
      assert s == [s[0]] + s[1..];
    }
  }

  // ---- the two halves of a file name ----

  /** A name with a suffix is its stem, a dot, and what follows the last dot. */
  lemma NameInTwo(base: string, ext: string)
    requires base != "" && ext != "" && '.' !in ext
    ensures Stem(base + ['.'] + ext) == base && Extension(base + ['.'] + ext) == Upper(ext)
  {
    var name := base + ['.'] + ext;
    LastDot(base, ext, |name|);
    assert name[..|base|] == base && name[|base|..][1..] == ext;
  }

  lemma {:induction false} LastDot(base: string, ext: string, i: nat)
    requires base != "" && ext != "" && '.' !in ext && |base| < i <= |base| + 1 + |ext|
    ensures DotIndex(base + ['.'] + ext, i) == |base|
  {
    var name := base + ['.'] + ext;
    if i - 1 > |base| {
      assert name[i - 1] == ext[i - 2 - |base|];
      LastDot(base, ext, i - 1);
    }
  }

  /** A number put into a name keeps its extension, so the copy still goes where it would. */
  lemma NumberedKeepsExtension(base: string, ext: string, k: nat)
    requires base != "" && ext != "" && '.' !in ext
    ensures var name := Numbered(base + ['.'] + ext, k);
            && name == base + "_" + Dec(k) + "." + ext
            && Extension(name) == Extension(base + ['.'] + ext) && Stem(name) == base + "_" + Dec(k)
  {
    hide Dec, Upper, Stem, Extension;
    NumberedIs(base, ext, k);
    NameInTwo(base, ext);
    NameInTwo(base + "_" + Dec(k), ext);
  }

  lemma NumberedIs(base: string, ext: string, k: nat)
    requires base != "" && ext != "" && '.' !in ext
    ensures Numbered(base + ['.'] + ext, k) == (base + "_" + Dec(k)) + ['.'] + ext
  {
    hide Dec, DotIndex, Extension;
    var name := base + ['.'] + ext;
    NameInTwo(base, ext);
    assert |Stem(name)| == |base|;
    assert name == Stem(name) + Suffix(name);
    assert Suffix(name) == name[|base|..] == ['.'] + ext;
  }

  /** The last dot among the first i characters. */
  ghost predicate LastDotAt(name: string, k: int, i: nat) {
    0 <= k < i <= |name| && name[k] == '.' && forall j :: k < j < i ==> name[j] != '.'
  }

  lemma {:induction false} NoDot(name: string, i: nat)
    requires i <= |name| && forall k :: LastDotAt(name, k, i) ==> k == 0 || k == |name| - 1
    ensures DotIndex(name, i) == |name|
  {
    if i > 0 && name[i - 1] == '.' {
      assert LastDotAt(name, i - 1, i);
    } else if i > 0 {
      var h: nat := i - 1;
      forall k | LastDotAt(name, k, h) ensures k == 0 || k == |name| - 1 {
        assert LastDotAt(name, k, i);
      }
      NoDot(name, h);
    }
  }

  /** There is no extension when there is no dot, or when the last one opens or ends the
      name. */
  lemma NameInOne(name: string)
    requires forall k :: LastDotAt(name, k, |name|) ==> k == 0 || k == |name| - 1
    ensures Stem(name) == name && Extension(name) == ""
  {
    NoDot(name, |name|);
  }

  // ---- the rule that wins ----

  /** A matching rule that no matching rule is longer than. */
  ghost predicate Best(rules: seq<UploadRule>, fileName: string, i: nat) {
    && i < |rules| && Matches(rules[i], fileName)
    && forall j :: 0 <= j < |rules| && Matches(rules[j], fileName) ==> |rules[j].pattern| <= |rules[i].pattern|
  }

  /** The rule is for files with this file's extension. */
  ghost predicate OwnExtension(r: UploadRule, fileName: string) {
    Extension(fileName) != "" && r.extension == Extension(fileName)
  }

  /** The rule's label names the exchange the file came from. */
  ghost predicate NamesExchange(r: UploadRule, exchange: Option<string>) {
    exchange.Some? && exchange.value != "" && Contains(Upper(r.name), Upper(exchange.value))
  }

  /** Among the best, those for the file's own extension, when there are any. */
  ghost predicate Pooled(rules: seq<UploadRule>, fileName: string, i: nat) {
    && Best(rules, fileName, i)
    && ((exists j: nat :: j < |rules| && Best(rules, fileName, j) && OwnExtension(rules[j], fileName)) ==>
          OwnExtension(rules[i], fileName))
  }

  /** Among those, the ones that name the exchange, when there are any. */
  ghost predicate Finalist(rules: seq<UploadRule>, fileName: string, exchange: Option<string>, i: nat) {
    && Pooled(rules, fileName, i)
    && ((exists j: nat :: j < |rules| && Pooled(rules, fileName, j) && NamesExchange(rules[j], exchange)) ==>
          NamesExchange(rules[i], exchange))
  }

  ghost predicate OnlyFinalist(rules: seq<UploadRule>, fileName: string, exchange: Option<string>, i: nat) {
    && Finalist(rules, fileName, exchange, i)
    && forall j: nat :: Finalist(rules, fileName, exchange, j) ==> j == i
  }

  // ---- how a filter tells ----

  lemma {:induction false} FilterTwo(p: UploadRule -> bool, rs: seq<UploadRule>, i: nat, j: nat)
    requires i < j < |rs| && p(rs[i]) && p(rs[j])
    ensures |Filter(p, rs)| >= 2
  {
    var init := rs[..|rs| - 1];
    assert init[i] == rs[i];
    if j < |init| {
      assert init[j] == rs[j];
      FilterTwo(p, init, i, j);
    } else {
      assert init[i] in Filter(p, init);
    }
  }

  lemma {:induction false} FilterOnly(p: UploadRule -> bool, rs: seq<UploadRule>, i: nat)
    requires i < |rs| && p(rs[i]) && forall j :: 0 <= j < |rs| && p(rs[j]) ==> j == i
    ensures Filter(p, rs) == [rs[i]]
  {
    var init := rs[..|rs| - 1];
    forall j | 0 <= j < |init| && p(init[j]) ensures j == i {
      assert init[j] == rs[j];
    }
    if i < |init| {
      assert init[i] == rs[i];
      FilterOnly(p, init, i);
    } else {
      NoneThere(p, init);
    }
  }

  lemma {:induction false} NoneThere(p: UploadRule -> bool, rs: seq<UploadRule>)
    requires forall j :: 0 <= j < |rs| ==> !p(rs[j])
    ensures Filter(p, rs) == []
  {
    if |rs| > 0 {
      NoneThere(p, rs[..|rs| - 1]);
    }
  }

  lemma FilterOne(p: UploadRule -> bool, rs: seq<UploadRule>, i: nat)
    requires i < |rs| && p(rs[i])
    ensures |Filter(p, rs)| >= 1
    ensures |Filter(p, rs)| == 1 <==> forall j :: 0 <= j < |rs| && p(rs[j]) ==> j == i
    ensures |Filter(p, rs)| == 1 ==> Filter(p, rs) == [rs[i]]
  {
    if j :| 0 <= j < |rs| && p(rs[j]) && j != i {
      FilterTwo(p, rs, if i < j then i else j, if i < j then j else i);
    } else {
      FilterOnly(p, rs, i);
    }
  }

  lemma {:induction false} FilterTwice(p: UploadRule -> bool, q: UploadRule -> bool, both: UploadRule -> bool,
      rs: seq<UploadRule>)
    requires forall r :: r in rs ==> (both(r) <==> p(r) && q(r))
    ensures Filter(q, Filter(p, rs)) == Filter(both, rs)
  {
    if |rs| > 0 {
      var init, last := rs[..|rs| - 1], rs[|rs| - 1];
      assert forall r :: r in init ==> r in rs;
      FilterTwice(p, q, both, init);
      if p(last) {
        assert (Filter(p, init) + [last])[..|Filter(p, init)|] == Filter(p, init);
      }
    }
  }

  /** Narrowing keeps those that satisfy q when any does, and all of them when none does. */
  lemma NarrowIs(p: UploadRule -> bool, q: UploadRule -> bool, both: UploadRule -> bool, rs: seq<UploadRule>)
    requires forall r :: r in rs ==> (both(r) <==> p(r) && ((exists x :: x in rs && p(x) && q(x)) ==> q(r)))
    ensures Narrow(Filter(p, rs), q) == Filter(both, rs)
  {
    var kept := (r: UploadRule) => p(r) && q(r);
    FilterTwice(p, q, kept, rs);
    if x :| x in rs && p(x) && q(x) {
      assert x in Filter(kept, rs);
      FilterSame(kept, both, rs);
    } else {
      FilterNone(kept, rs);
      FilterSame(p, both, rs);
    }
  }

  lemma {:induction false} FilterNone(p: UploadRule -> bool, rs: seq<UploadRule>)
    requires forall r :: r in rs ==> !p(r)
    ensures Filter(p, rs) == []
  {
    if |rs| > 0 {
      FilterNone(p, rs[..|rs| - 1]);
    }
  }

  lemma {:induction false} FilterSame(p: UploadRule -> bool, q: UploadRule -> bool, rs: seq<UploadRule>)
    requires forall r :: r in rs ==> (p(r) <==> q(r))
    ensures Filter(p, rs) == Filter(q, rs)
  {
    if |rs| > 0 {
      assert forall r :: r in rs[..|rs| - 1] ==> r in rs;
      FilterSame(p, q, rs[..|rs| - 1]);
    }
  }

  // ---- the decision, told ----

  ghost predicate Tie(r: UploadRule, fileName: string, n: nat) {
    Matches(r, fileName) && |r.pattern| == n
  }

  /** The same three sieves on rules instead of places, for a known top length. */
  ghost predicate InPool(rules: seq<UploadRule>, fileName: string, n: nat, r: UploadRule) {
    && Tie(r, fileName, n)
    && ((exists x :: x in rules && Tie(x, fileName, n) && OwnExtension(x, fileName)) ==> OwnExtension(r, fileName))
  }

  ghost predicate InFinal(rules: seq<UploadRule>, fileName: string, exchange: Option<string>, n: nat, r: UploadRule) {
    && InPool(rules, fileName, n, r)
    && ((exists x :: x in rules && InPool(rules, fileName, n, x) && NamesExchange(x, exchange)) ==>
          NamesExchange(r, exchange))
  }

  /** Why the sieves agree: the best rules are those that tie at the top length. */
  lemma BestIsTie(rules: seq<UploadRule>, fileName: string, n: nat, i: nat)
    requires TopLength(rules, fileName, n)
    ensures Best(rules, fileName, i) <==> i < |rules| && Tie(rules[i], fileName, n)
  {
    var w :| Candidate(w, rules, fileName) && |w.pattern| == n;
    var k :| 0 <= k < |rules| && rules[k] == w;
    if i < |rules| && Tie(rules[i], fileName, n) {
      forall j | 0 <= j < |rules| && Matches(rules[j], fileName) ensures |rules[j].pattern| <= n {
        assert Candidate(rules[j], rules, fileName);
      }
    }
    if Best(rules, fileName, i) {
      assert Candidate(rules[i], rules, fileName);
    }
  }

  lemma PooledIsInPool(rules: seq<UploadRule>, fileName: string, n: nat, i: nat)
    requires TopLength(rules, fileName, n)
    ensures Pooled(rules, fileName, i) <==> i < |rules| && InPool(rules, fileName, n, rules[i])
  {
    hide Best, Tie, OwnExtension;
    BestIsTie(rules, fileName, n, i);
    if j: nat :| j < |rules| && Best(rules, fileName, j) && OwnExtension(rules[j], fileName) {
      BestIsTie(rules, fileName, n, j);
    }
    if x :| x in rules && Tie(x, fileName, n) && OwnExtension(x, fileName) {
      var j :| 0 <= j < |rules| && rules[j] == x;
      BestIsTie(rules, fileName, n, j);
    }
  }

  lemma FinalistIsInFinal(rules: seq<UploadRule>, fileName: string, exchange: Option<string>, n: nat, i: nat)
    requires TopLength(rules, fileName, n)
    ensures Finalist(rules, fileName, exchange, i) <==>
              i < |rules| && InFinal(rules, fileName, exchange, n, rules[i])
  {
    hide Pooled, InPool, NamesExchange;
    PooledIsInPool(rules, fileName, n, i);
    if j: nat :| j < |rules| && Pooled(rules, fileName, j) && NamesExchange(rules[j], exchange) {
      PooledIsInPool(rules, fileName, n, j);
    }
    if x :| x in rules && InPool(rules, fileName, n, x) && NamesExchange(x, exchange) {
      var j :| 0 <= j < |rules| && rules[j] == x;
      PooledIsInPool(rules, fileName, n, j);
    }
  }

  /** The tie-breaker with its two tests given by what they ask. */
  lemma TieBreakIs(tied: seq<UploadRule>, extension: string, exchange: Option<string>, own: UploadRule -> bool,
      names: UploadRule -> bool)
    requires forall r :: r in tied ==> (own(r) <==> extension != "" && r.extension == extension)
    requires forall r :: r in tied ==>
               (names(r) <==> exchange.Some? && exchange.value != "" && Occurs(Upper(exchange.value), Upper(r.name)))
    ensures var left := Narrow(Narrow(tied, own), names);
            Disambiguate(tied, extension, exchange)
              == if |left| == 1 then Matched(left[0]) else FileRejected(AmbiguousUploadRule)
  {
    hide Occurs, Upper;
    var byExt := (r: UploadRule) => r.extension != "" && r.extension == extension;
    var byExch := (r: UploadRule) => exchange.Some? && Occurs(Upper(exchange.value), Upper(r.name));
    var pool := if extension != "" then Narrow(tied, byExt) else tied;
    var narrowed := if exchange.Some? && exchange.value != "" then Narrow(pool, byExch) else pool;
    assert Disambiguate(tied, extension, exchange) ==
           if extension != "" && |Filter(byExt, tied)| == 1 then Matched(Filter(byExt, tied)[0])
           else if |narrowed| == 1 then Matched(narrowed[0]) else FileRejected(AmbiguousUploadRule);
    if extension != "" {
      FilterSame(byExt, own, tied);
    } else {
      FilterNone(own, tied);
    }
    assert pool == Narrow(tied, own);
    if exchange.Some? && exchange.value != "" {
      FilterSame(byExch, names, pool);
    } else {
      FilterNone(names, pool);
    }
    assert narrowed == Narrow(pool, names);
    if |pool| == 1 {
      NarrowOne(pool, names);
    }
  }

  lemma NarrowOne(pool: seq<UploadRule>, p: UploadRule -> bool)
    requires |pool| == 1
    ensures Narrow(pool, p) == pool
  {
    assert pool[..0] == [] && Filter(p, pool[..0]) == [] && pool == [] + [pool[0]];
  }

  /** What is left after both sieves decides: one rule wins, several are ambiguous. */
  lemma SelectByFinal(rules: seq<UploadRule>, fileName: string, exchange: Option<string>, n: nat,
      final: UploadRule -> bool)
    requires TopLength(rules, fileName, n)
    requires forall r :: r in rules ==> (final(r) <==> InFinal(rules, fileName, exchange, n, r))
    ensures var left := Filter(final, rules);
            SelectRule(fileName, rules, exchange)
              == if |left| == 1 then Matched(left[0]) else FileRejected(AmbiguousUploadRule)
  {
    hide SelectRule, Disambiguate, Matches, TopLength, Occurs, Upper, Contains, Extension, Narrow;
    var tie := (r: UploadRule) => Matches(r, fileName) && |r.pattern| == n;
    var own := (r: UploadRule) => Extension(fileName) != "" && r.extension == Extension(fileName);
    var names := (r: UploadRule) =>
      exchange.Some? && exchange.value != "" && Occurs(Upper(exchange.value), Upper(r.name));
    var tied := Tied(rules, fileName, n);
    assert tied == Filter(tie, rules);
    SelectByTied(fileName, rules, exchange, n);
    TieBreakIs(tied, Extension(fileName), exchange, own, names);
    LeftIsFinal(rules, fileName, exchange, n, tie, own, names, final);
    if |tied| == 1 {
      NarrowOne(tied, own);
      NarrowOne(tied, names);
    }
  }

  lemma LeftIsFinal(rules: seq<UploadRule>, fileName: string, exchange: Option<string>, n: nat,
      tie: UploadRule -> bool, own: UploadRule -> bool, names: UploadRule -> bool, final: UploadRule -> bool)
    requires forall r :: tie(r) <==> Tie(r, fileName, n)
    requires forall r :: own(r) <==> OwnExtension(r, fileName)
    requires forall r :: names(r) <==>
               exchange.Some? && exchange.value != "" && Occurs(Upper(exchange.value), Upper(r.name))
    requires forall r :: r in rules ==> (final(r) <==> InFinal(rules, fileName, exchange, n, r))
    ensures Narrow(Narrow(Filter(tie, rules), own), names) == Filter(final, rules)
  {
    hide Tie, OwnExtension, Occurs, Upper, Contains, Narrow;
    var pooled := (r: UploadRule) => tie(r) && ((exists x :: x in rules && tie(x) && own(x)) ==> own(r));
    NarrowIs(tie, own, pooled, rules);
    forall r | r in rules ensures pooled(r) <==> InPool(rules, fileName, n, r) {
    }
    forall r ensures names(r) <==> NamesExchange(r, exchange) {
      if exchange.Some? {
        ContainsIsOccurs(Upper(r.name), Upper(exchange.value));
      }
    }
    NarrowIs(pooled, names, final, rules);
  }

  lemma FinalistMatches(rules: seq<UploadRule>, fileName: string, exchange: Option<string>, i: nat)
    requires Finalist(rules, fileName, exchange, i)
    ensures i < |rules| && Matches(rules[i], fileName) && Candidate(rules[i], rules, fileName)
  {
    hide Matches, NamesExchange, OwnExtension;
  }

  /** Some rule always gets through both sieves. */
  lemma SomeFinal(rules: seq<UploadRule>, fileName: string, exchange: Option<string>, n: nat) returns (k: nat)
    requires TopLength(rules, fileName, n)
    ensures k < |rules| && InFinal(rules, fileName, exchange, n, rules[k])
  {
    hide Matches, NamesExchange, OwnExtension;
    var r :| Candidate(r, rules, fileName) && |r.pattern| == n;
    if x :| x in rules && Tie(x, fileName, n) && OwnExtension(x, fileName) {
      r := x;
    }
    if x :| x in rules && InPool(rules, fileName, n, x) && NamesExchange(x, exchange) {
      r := x;
    }
    k :| 0 <= k < |rules| && rules[k] == r;
  }

  lemma SelectedAmong(fileName: string, rules: seq<UploadRule>, exchange: Option<string>, n: nat) returns (k: nat)
    requires TopLength(rules, fileName, n)
    ensures k < |rules| && Finalist(rules, fileName, exchange, k)
    ensures SelectRule(fileName, rules, exchange)
              == if OnlyFinalist(rules, fileName, exchange, k) then Matched(rules[k])
                 else FileRejected(AmbiguousUploadRule)
  {
    hide TopLength, InFinal, Finalist, SelectRule;
    var final := (r: UploadRule) => InFinal(rules, fileName, exchange, n, r);
    k := SomeFinal(rules, fileName, exchange, n);
    SelectByFinal(rules, fileName, exchange, n, final);
    FilterOne(final, rules, k);
    forall j: nat ensures Finalist(rules, fileName, exchange, j) <==> j < |rules| && final(rules[j]) {
      FinalistIsInFinal(rules, fileName, exchange, n, j);
    }
  }

  /** Which rule a file goes to: the only finalist, whichever order the rules come in; no
      finalist means that no rule matches, and several that the tie cannot be broken. */
  lemma SelectedIff(fileName: string, rules: seq<UploadRule>, exchange: Option<string>)
    ensures forall i: nat :: OnlyFinalist(rules, fileName, exchange, i) ==>
              i < |rules| && SelectRule(fileName, rules, exchange) == Matched(rules[i])
    ensures SelectRule(fileName, rules, exchange).Matched? <==>
              exists k: nat :: OnlyFinalist(rules, fileName, exchange, k)
    ensures SelectRule(fileName, rules, exchange) == FileRejected(NoMatchingUploadRule) <==>
              forall k :: 0 <= k < |rules| ==> !Matches(rules[k], fileName)
    ensures SelectRule(fileName, rules, exchange) == FileRejected(AmbiguousUploadRule) <==>
              exists k: nat, l: nat ::
                k != l && Finalist(rules, fileName, exchange, k) && Finalist(rules, fileName, exchange, l)
  {
    hide Matches, SelectRule, Finalist, Candidate;
    if w :| Candidate(w, rules, fileName) {
      var n := TopLengthExists(rules, fileName, w);
      var k := SelectedAmong(fileName, rules, exchange, n);
      FinalistMatches(rules, fileName, exchange, k);
    } else {
      NoneMatches(fileName, rules, exchange);
      forall k: nat ensures !Finalist(rules, fileName, exchange, k) {
        if Finalist(rules, fileName, exchange, k) {
          FinalistMatches(rules, fileName, exchange, k);
        }
      }
      forall k | 0 <= k < |rules| ensures !Matches(rules[k], fileName) {
        MatchingIsCandidate(fileName, rules, k);
      }
    }
  }

  lemma MatchingIsCandidate(fileName: string, rules: seq<UploadRule>, k: nat)
    requires k < |rules|
    ensures Matches(rules[k], fileName) <==> Candidate(rules[k], rules, fileName)
  {
    hide Matches;
  }

  /** The whole verdict: the only finalist, unless its columns are wrong. */
  lemma MatchIff(fileName: string, rules: seq<UploadRule>, exchange: Option<string>, sniff: Sniff, validate: bool,
      i: nat)
    ensures OnlyFinalist(rules, fileName, exchange, i) ==>
              i < |rules|
                && MatchFile(fileName, rules, exchange, sniff, validate) == ColumnCheck(rules[i], sniff, validate)
    ensures (forall k: nat :: !OnlyFinalist(rules, fileName, exchange, k)) ==>
              MatchFile(fileName, rules, exchange, sniff, validate)
                == if forall k :: 0 <= k < |rules| ==> !Matches(rules[k], fileName)
                   then FileRejected(NoMatchingUploadRule) else FileRejected(AmbiguousUploadRule)
  {
    hide Matches, SelectRule, Finalist, ColumnCheck, OnlyFinalist;
    SelectedIff(fileName, rules, exchange);
    OnlyTwoRejections(fileName, rules, exchange);
  }

  lemma OnlyTwoRejections(fileName: string, rules: seq<UploadRule>, exchange: Option<string>)
    ensures SelectRule(fileName, rules, exchange).FileRejected? ==>
              SelectRule(fileName, rules, exchange).why in {NoMatchingUploadRule, AmbiguousUploadRule}
  {
    hide Matches;
  }

  /** In a run, a file is matched on its name and on the exchange the manifest gives it; "NA"
      names no exchange. */
  lemma FileVerdictIff(run: LaneState.Run, f: LaneState.ListedFile, rules: seq<UploadRule>, i: nat)
    requires run.rules == Some(rules) && f.path != []
    ensures var name, exchange := f.path[|f.path| - 1], if f.exchange == "NA" then None else Some(f.exchange);
            && (OnlyFinalist(rules, name, exchange, i) ==>
                  && i < |rules|
                  && LaneState.VerdictOn(run, f)
                       == ColumnCheck(rules[i], LaneState.SniffOf(run.sniffs, f.path), run.validate))
            && ((forall k: nat :: !OnlyFinalist(rules, name, exchange, k)) ==>
                 LaneState.VerdictOn(run, f).FileRejected?)
  {
    hide Matches, OnlyFinalist, ColumnCheck, MatchFile;
    var exchange := if f.exchange == "NA" then None else Some(f.exchange);
    MatchIff(f.path[|f.path| - 1], rules, exchange, LaneState.SniffOf(run.sniffs, f.path), run.validate, i);
  }
}
