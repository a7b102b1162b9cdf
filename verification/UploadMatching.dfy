/** app/services/upload_matching.py: which UploadID a file belongs to, and the local
    column check. The column widths sniffed from the file are an input. */
module UploadMatching {
  import opened Text
  import opened FileService
  import opened CbosClient

  datatype Rejection = NoMatchingUploadRule | AmbiguousUploadRule | EmptyFile | ColumnCountMismatch

  datatype Verdict = Matched(rule: UploadRule) | FileRejected(why: Rejection)

  /** Widths per delimiter tried; None when the file is not delimited text. */
  type Sniff = Option<seq<seq<int>>>

  function Without(s: string, c: char): string {
    if |s| == 0 then [] else (if s[0] == c then [] else [s[0]]) + Without(s[1..], c)
  }

  predicate PatternMatches(rawPattern: string, operator: string, rawName: string) {
    var op := Without(Without(Upper(Strip(operator)), ' '), '_');
    var pattern, name := Lower(rawPattern), Lower(rawName);
    if op in {"EQUALS", "EQUAL", "="} then pattern == name
    else if op == "STARTSWITH" then pattern <= name
    else if op == "ENDSWITH" then |pattern| <= |name| && name[|name| - |pattern|..] == pattern
    else Occurs(pattern, name)
  }

  predicate Matches(r: UploadRule, fileName: string) {
    PatternMatches(Upper(r.pattern), r.operator, Upper(Stem(fileName)))
  }

  function Extension(fileName: string): string {
    var s := Suffix(fileName);
    Upper(if |s| > 0 && s[0] == '.' then s[1..] else s)
  }

  // ---- filters and the in-place sort ----

  function Filter(p: UploadRule -> bool, rs: seq<UploadRule>): (f: seq<UploadRule>)
    ensures forall r :: r in f <==> r in rs && p(r)
  {
    if |rs| == 0 then [] else
      var rest := Filter(p, rs[..|rs| - 1]);
      assert rs == rs[..|rs| - 1] + [rs[|rs| - 1]];
      if p(rs[|rs| - 1]) then rest + [rs[|rs| - 1]] else rest
  }

  ghost predicate LongestFirst(rs: seq<UploadRule>) {
    forall i, j :: 0 <= i < j < |rs| ==> |rs[i].pattern| >= |rs[j].pattern|
  }

  lemma HeadOnTop(h: UploadRule, t: seq<UploadRule>)
    requires LongestFirst(t) && forall r :: r in t ==> |h.pattern| >= |r.pattern|
    ensures LongestFirst([h] + t)
  {
  }

  function Insert(r: UploadRule, rs: seq<UploadRule>): seq<UploadRule> {
    if |rs| == 0 || |r.pattern| > |rs[0].pattern| then [r] + rs
    else [rs[0]] + Insert(r, rs[1..])
  }

  lemma {:induction false} InsertSorted(r: UploadRule, rs: seq<UploadRule>)
    requires LongestFirst(rs)
    ensures LongestFirst(Insert(r, rs))
    ensures multiset(Insert(r, rs)) == multiset(rs) + multiset{r}
    ensures forall x :: x in Insert(r, rs) ==> x == r || x in rs
  {
    if |rs| == 0 || |r.pattern| > |rs[0].pattern| {
      HeadOnTop(r, rs);
    } else {
      InsertSorted(r, rs[1..]);
      HeadOnTop(rs[0], Insert(r, rs[1..]));
      assert rs == [rs[0]] + rs[1..];
    }
  }

  /** list.sort(key=len(pattern), reverse=True) */
  function SortByLength(rs: seq<UploadRule>): (s: seq<UploadRule>)
    ensures LongestFirst(s) && multiset(s) == multiset(rs)
  {
    if |rs| == 0 then [] else
      var sorted := SortByLength(rs[..|rs| - 1]);
      assert rs == rs[..|rs| - 1] + [rs[|rs| - 1]];
      InsertSorted(rs[|rs| - 1], sorted);
      Insert(rs[|rs| - 1], sorted)
  }

  // ---- the decision ----

  /** Keep the narrower pool when it is not empty. */
  function Narrow(pool: seq<UploadRule>, p: UploadRule -> bool): seq<UploadRule> {
    var kept := Filter(p, pool);
    if kept == [] then pool else kept
  }

  function Disambiguate(tied: seq<UploadRule>, extension: string, exchange: Option<string>): Verdict {
    var byExt := (r: UploadRule) => r.extension != "" && r.extension == extension;
    var pool := if extension != "" then Narrow(tied, byExt) else tied;
    if extension != "" && |Filter(byExt, tied)| == 1 then Matched(Filter(byExt, tied)[0])
    else
      var byExch := (r: UploadRule) => exchange.Some? && Occurs(Upper(exchange.value), Upper(r.name));
      var narrowed := if exchange.Some? && exchange.value != "" then Narrow(pool, byExch) else pool;
      if |narrowed| == 1 then Matched(narrowed[0]) else FileRejected(AmbiguousUploadRule)
  }

  function SelectRule(fileName: string, rules: seq<UploadRule>, exchange: Option<string>): Verdict {
    var candidates := SortByLength(Filter((r: UploadRule) => Matches(r, fileName), rules));
    if candidates == [] then FileRejected(NoMatchingUploadRule)
    else
      var topLen := |candidates[0].pattern|;
      var tied := Filter((r: UploadRule) => |r.pattern| == topLen, candidates);
      if |tied| == 1 then Matched(tied[0]) else Disambiguate(tied, Extension(fileName), exchange)
  }

  /** Rejects only on evidence: an empty file, or visible columns none of the right width. */
  function ColumnCheck(rule: UploadRule, sniff: Sniff, validate: bool): Verdict {
    if !validate || rule.columnCount.None? || sniff.None? then Matched(rule)
    else if forall i :: 0 <= i < |sniff.value| ==> sniff.value[i] == [] then FileRejected(EmptyFile)
    else if exists i :: 0 <= i < |sniff.value| && rule.columnCount.value in sniff.value[i] then Matched(rule)
    else if forall i :: 0 <= i < |sniff.value| ==> forall w :: w in sniff.value[i] ==> w == 1 then Matched(rule)
    else FileRejected(ColumnCountMismatch)
  }

  function MatchFile(fileName: string, rules: seq<UploadRule>, exchange: Option<string>, sniff: Sniff,
      validate: bool): Verdict {
    var v := SelectRule(fileName, rules, exchange);
    if v.Matched? then ColumnCheck(v.rule, sniff, validate) else v
  }

  // ---- what a pattern and the column check ask for ----

  lemma LowerOfUpper(s: string)
    ensures Lower(Upper(s)) == Lower(s)
  {
  }

  /** Matching ignores case on both sides, as CBOS's own collation does. */
  lemma CaseIsIgnored(pattern: string, operator: string, name: string, other: string)
    requires Lower(name) == Lower(other)
    ensures PatternMatches(pattern, operator, name) == PatternMatches(Upper(pattern), operator, other)
  {
    LowerOfUpper(pattern);
    hide Lower, Upper, Strip, Without;
  }

  lemma SliceOccurs(part: string, s: string, i: nat)
    requires i + |part| <= |s| && s[i..i + |part|] == part
    ensures Occurs(part, s)
  {
    assert OccursAt(part, s, i);
  }

  /** Whatever the operator, a match means that the pattern occurs in the name; an equal
      name satisfies them all. */
  lemma OperatorsNarrowContains(pattern: string, operator: string, name: string)
    ensures PatternMatches(pattern, operator, name) ==> Occurs(Lower(pattern), Lower(name))
    ensures Lower(pattern) == Lower(name) ==> PatternMatches(pattern, operator, name)
  {
    var p, n := Lower(pattern), Lower(name);
    hide Lower, Upper, Strip, Without;
    if p <= n {
      SliceOccurs(p, n, 0);
    }
    if |p| <= |n| && n[|n| - |p|..] == p {
      SliceOccurs(p, n, |n| - |p|);
    }
  }

  /** An empty pattern takes any file, except under EQUALS. */
  lemma EmptyPatternTakesAll(operator: string, name: string)
    ensures PatternMatches("", operator, name) <==>
              name == "" || Without(Without(Upper(Strip(operator)), ' '), '_') !in {"EQUALS", "EQUAL", "="}
  {
    hide Upper, Strip, Without;
    SliceOccurs("", Lower(name), 0);
  }

  ghost predicate SomeWidth(sniff: seq<seq<int>>, w: int) {
    exists i :: 0 <= i < |sniff| && w in sniff[i]
  }

  /** The column check rejects only on evidence: it saw the file, no line has the declared
      width under any delimiter, and it saw no line at all or one with a real column. */
  lemma ColumnCheckOnEvidence(rule: UploadRule, sniff: Sniff, validate: bool)
    ensures ColumnCheck(rule, sniff, validate).FileRejected? <==>
              && validate && rule.columnCount.Some? && sniff.Some?
              && !SomeWidth(sniff.value, rule.columnCount.value)
              && ((forall w :: !SomeWidth(sniff.value, w)) || exists w :: SomeWidth(sniff.value, w) && w != 1)
    ensures ColumnCheck(rule, sniff, validate) == FileRejected(EmptyFile) <==>
              && validate && rule.columnCount.Some? && sniff.Some?
              && forall w :: !SomeWidth(sniff.value, w)
    ensures ColumnCheck(rule, sniff, validate) in
              {Matched(rule), FileRejected(EmptyFile), FileRejected(ColumnCountMismatch)}
  {
    if sniff.Some? {
      var s := sniff.value;
      if forall i :: 0 <= i < |s| ==> s[i] == [] {
        forall w ensures !SomeWidth(s, w) {
        }
      } else {
        var i :| 0 <= i < |s| && s[i] != [];
        assert SomeWidth(s, s[i][0]);
        if i, w :| 0 <= i < |s| && w in s[i] && w != 1 {
          assert SomeWidth(s, w);
        }
      }
    }
  }

  // ---- order does not matter ----

  lemma {:induction false} FilterCounts(p: UploadRule -> bool, rs: seq<UploadRule>, r: UploadRule)
    ensures multiset(Filter(p, rs))[r] == if p(r) then multiset(rs)[r] else 0
  {
    if |rs| > 0 {
      FilterCounts(p, rs[..|rs| - 1], r);
      assert rs == rs[..|rs| - 1] + [rs[|rs| - 1]];
    }
  }

  lemma FilterPermutes(p: UploadRule -> bool, rs: seq<UploadRule>, ss: seq<UploadRule>)
    requires multiset(rs) == multiset(ss)
    ensures multiset(Filter(p, rs)) == multiset(Filter(p, ss))
    ensures |Filter(p, rs)| == |Filter(p, ss)|
    ensures |Filter(p, rs)| == 1 ==> Filter(p, rs) == Filter(p, ss)
  {
    var f, g := Filter(p, rs), Filter(p, ss);
    forall r ensures multiset(f)[r] == multiset(g)[r] {
      FilterCounts(p, rs, r);
      FilterCounts(p, ss, r);
    }
    SameBag(f, g);
  }

  lemma SameBag(f: seq<UploadRule>, g: seq<UploadRule>)
    requires multiset(f) == multiset(g)
    ensures |f| == |g|
    ensures |f| == 1 ==> f == g
    ensures forall r :: r in f <==> r in g
  {
    assert |multiset(f)| == |f| && |multiset(g)| == |g|;
    forall r ensures r in f <==> r in g {
      assert r in f <==> r in multiset(f);
    }
    if |f| == 1 {
      assert f[0] in g;
    }
  }

  lemma NarrowPermutes(f: seq<UploadRule>, g: seq<UploadRule>, p: UploadRule -> bool)
    requires multiset(f) == multiset(g)
    ensures multiset(Narrow(f, p)) == multiset(Narrow(g, p))
  {
    FilterPermutes(p, f, g);
  }

  lemma DisambiguatePermutes(f: seq<UploadRule>, g: seq<UploadRule>, extension: string, exchange: Option<string>)
    requires multiset(f) == multiset(g)
    ensures Disambiguate(f, extension, exchange) == Disambiguate(g, extension, exchange)
  {
    var byExt := (r: UploadRule) => r.extension != "" && r.extension == extension;
    var byExch := (r: UploadRule) => exchange.Some? && Occurs(Upper(exchange.value), Upper(r.name));
    FilterPermutes(byExt, f, g);
    NarrowPermutes(f, g, byExt);
    var pf := if extension != "" then Narrow(f, byExt) else f;
    var pg := if extension != "" then Narrow(g, byExt) else g;
    NarrowPermutes(pf, pg, byExch);
    var nf := if exchange.Some? && exchange.value != "" then Narrow(pf, byExch) else pf;
    var ng := if exchange.Some? && exchange.value != "" then Narrow(pg, byExch) else pg;
    SameBag(nf, ng);
    assert Disambiguate(f, extension, exchange) ==
           if extension != "" && |Filter(byExt, f)| == 1 then Matched(Filter(byExt, f)[0])
           else if |nf| == 1 then Matched(nf[0]) else FileRejected(AmbiguousUploadRule);
    assert Disambiguate(g, extension, exchange) ==
           if extension != "" && |Filter(byExt, g)| == 1 then Matched(Filter(byExt, g)[0])
           else if |ng| == 1 then Matched(ng[0]) else FileRejected(AmbiguousUploadRule);
  }

  ghost predicate Candidate(r: UploadRule, rules: seq<UploadRule>, fileName: string) {
    r in rules && Matches(r, fileName)
  }

  /** Some rule matches, and no matching rule is longer than n. */
  ghost predicate TopLength(rules: seq<UploadRule>, fileName: string, n: nat) {
    && (exists r :: Candidate(r, rules, fileName) && |r.pattern| == n)
    && forall r :: Candidate(r, rules, fileName) ==> |r.pattern| <= n
  }

  /** The rules still tied once the longest pattern has won. */
  function Tied(rules: seq<UploadRule>, fileName: string, n: nat): seq<UploadRule> {
    Filter((r: UploadRule) => Matches(r, fileName) && |r.pattern| == n, rules)
  }

  /** The verdict is a function of the tied rules alone, in any order. */
  lemma SelectByTied(fileName: string, rules: seq<UploadRule>, exchange: Option<string>, n: nat)
    requires TopLength(rules, fileName, n)
    ensures var tied := Tied(rules, fileName, n);
            SelectRule(fileName, rules, exchange) ==
            if |tied| == 1 then Matched(tied[0]) else Disambiguate(tied, Extension(fileName), exchange)
  {
    hide Matches, Disambiguate;
    var candidates := SortByLength(Filter((r: UploadRule) => Matches(r, fileName), rules));
    TopIsFirst(fileName, rules, n);
    var l := (r: UploadRule) => |r.pattern| == n;
    TiedInCandidates(fileName, rules, n);
    SameBag(Filter(l, candidates), Tied(rules, fileName, n));
    DisambiguatePermutes(Filter(l, candidates), Tied(rules, fileName, n), Extension(fileName), exchange);
  }

  lemma TopIsFirst(fileName: string, rules: seq<UploadRule>, n: nat)
    requires TopLength(rules, fileName, n)
    ensures var candidates := SortByLength(Filter((r: UploadRule) => Matches(r, fileName), rules));
            candidates != [] && |candidates[0].pattern| == n
  {
    hide Matches;
    var filtered := Filter((r: UploadRule) => Matches(r, fileName), rules);
    var candidates := SortByLength(filtered);
    SameBag(filtered, candidates);
    var w :| Candidate(w, rules, fileName) && |w.pattern| == n;
    assert w in candidates;
    assert candidates[0] in candidates;
  }

  /** Filtering the sorted candidates by length gives the tied rules, in some order. */
  lemma TiedInCandidates(fileName: string, rules: seq<UploadRule>, n: nat)
    ensures var candidates := SortByLength(Filter((r: UploadRule) => Matches(r, fileName), rules));
            multiset(Filter((r: UploadRule) => |r.pattern| == n, candidates)) == multiset(Tied(rules, fileName, n))
  {
    hide Matches;
    var m := (r: UploadRule) => Matches(r, fileName);
    var l := (r: UploadRule) => |r.pattern| == n;
    var both := (r: UploadRule) => Matches(r, fileName) && |r.pattern| == n;
    var candidates := SortByLength(Filter(m, rules));
    forall r ensures multiset(Filter(l, candidates))[r] == multiset(Filter(both, rules))[r] {
      FilterCounts(l, candidates, r);
      FilterCounts(m, rules, r);
      FilterCounts(both, rules, r);
    }
  }

  lemma {:induction false} TopLengthExists(rules: seq<UploadRule>, fileName: string, w: UploadRule) returns (n: nat)
    requires Candidate(w, rules, fileName)
    ensures TopLength(rules, fileName, n)
  {
    var m := (r: UploadRule) => Matches(r, fileName);
    var sorted := SortByLength(Filter(m, rules));
    SameBag(Filter(m, rules), sorted);
    assert sorted[0] in sorted && w in sorted;
    n := |sorted[0].pattern|;
    assert Candidate(sorted[0], rules, fileName);
  }

  lemma FirstIsCandidate(fileName: string, rules: seq<UploadRule>)
    ensures var f := Filter((r: UploadRule) => Matches(r, fileName), rules);
            f != [] ==> Candidate(f[0], rules, fileName)
  {
  }

  lemma NoneMatches(fileName: string, rules: seq<UploadRule>, exchange: Option<string>)
    requires forall r :: !Candidate(r, rules, fileName)
    ensures SelectRule(fileName, rules, exchange) == FileRejected(NoMatchingUploadRule)
  {
    FirstIsCandidate(fileName, rules);
  }

  lemma TiedPermutes(fileName: string, rules: seq<UploadRule>, shuffled: seq<UploadRule>, exchange: Option<string>,
      n: nat)
    requires multiset(rules) == multiset(shuffled)
    requires TopLength(rules, fileName, n) && TopLength(shuffled, fileName, n)
    ensures SelectRule(fileName, rules, exchange) == SelectRule(fileName, shuffled, exchange)
  {
    hide Matches, SelectRule, Disambiguate;
    SelectByTied(fileName, rules, exchange, n);
    SelectByTied(fileName, shuffled, exchange, n);
    FilterPermutes((r: UploadRule) => Matches(r, fileName) && |r.pattern| == n, rules, shuffled);
    SameBag(Tied(rules, fileName, n), Tied(shuffled, fileName, n));
    DisambiguatePermutes(Tied(rules, fileName, n), Tied(shuffled, fileName, n), Extension(fileName), exchange);
  }

  /** The verdict, rule or kind of rejection, is the same for every order of the rules. */
  lemma MatchOrderIndependent(fileName: string, rules: seq<UploadRule>, shuffled: seq<UploadRule>,
      exchange: Option<string>, sniff: Sniff, validate: bool)
    requires multiset(rules) == multiset(shuffled)
    ensures MatchFile(fileName, rules, exchange, sniff, validate)
              == MatchFile(fileName, shuffled, exchange, sniff, validate)
  {
    hide Matches, SelectRule, ColumnCheck;
    SameBag(rules, shuffled);
    if w :| Candidate(w, rules, fileName) {
      var n := TopLengthExists(rules, fileName, w);
      forall r ensures Candidate(r, rules, fileName) <==> Candidate(r, shuffled, fileName) {
      }
      TiedPermutes(fileName, rules, shuffled, exchange, n);
    } else {
      NoneMatches(fileName, rules, exchange);
      forall r ensures !Candidate(r, shuffled, fileName) {
        assert !Candidate(r, rules, fileName);
      }
      NoneMatches(fileName, shuffled, exchange);
    }
  }

  lemma FromPool(tied: seq<UploadRule>, extension: string, exchange: Option<string>)
    ensures Disambiguate(tied, extension, exchange).Matched? ==> Disambiguate(tied, extension, exchange).rule in tied
  {
  }

  lemma ColumnCheckKeepsRule(rule: UploadRule, sniff: Sniff, validate: bool)
    ensures ColumnCheck(rule, sniff, validate).Matched? ==> ColumnCheck(rule, sniff, validate).rule == rule
  {
  }

  /** The winner matches, is one of the rules, and no matching rule has a longer pattern. */
  lemma WinnerIsLongest(fileName: string, rules: seq<UploadRule>, exchange: Option<string>, sniff: Sniff,
      validate: bool, other: UploadRule)
    requires MatchFile(fileName, rules, exchange, sniff, validate).Matched?
    ensures var rule := MatchFile(fileName, rules, exchange, sniff, validate).rule;
            && Candidate(rule, rules, fileName)
            && (Candidate(other, rules, fileName) ==> |other.pattern| <= |rule.pattern|)
  {
    hide Matches, SelectRule, Disambiguate, ColumnCheck;
    var v := SelectRule(fileName, rules, exchange);
    if v.Matched? {
      ColumnCheckKeepsRule(v.rule, sniff, validate);
    }
    if w :| Candidate(w, rules, fileName) {
      var n := TopLengthExists(rules, fileName, w);
      SelectByTied(fileName, rules, exchange, n);
      FromPool(Tied(rules, fileName, n), Extension(fileName), exchange);
    } else {
      NoneMatches(fileName, rules, exchange);
    }
  }

  lemma {:induction false} FilterAppend(p: UploadRule -> bool, rs: seq<UploadRule>, ss: seq<UploadRule>)
    ensures Filter(p, rs + ss) == Filter(p, rs) + Filter(p, ss)
  {
    if |ss| == 0 {
      assert rs + ss == rs;
    } else {
      var init, last := ss[..|ss| - 1], ss[|ss| - 1];
      FilterAppend(p, rs, init);
      assert (rs + ss)[..|rs + ss| - 1] == rs + init && (rs + ss)[|rs + ss| - 1] == last;
      assert Filter(p, rs) + (Filter(p, init) + [last]) == Filter(p, rs) + Filter(p, init) + [last];
    }
  }

  lemma FirstTiedIsCandidate(fileName: string, rules: seq<UploadRule>, n: nat)
    ensures var f := Tied(rules, fileName, n);
            f != [] ==> Candidate(f[0], rules, fileName) && |f[0].pattern| == n
  {
  }

  lemma TiedIgnoresWeaker(fileName: string, rules: seq<UploadRule>, extra: seq<UploadRule>, n: nat)
    requires forall q :: Candidate(q, extra, fileName) ==> |q.pattern| < n
    ensures Tied(rules + extra, fileName, n) == Tied(rules, fileName, n)
  {
    hide Matches;
    var both := (r: UploadRule) => Matches(r, fileName) && |r.pattern| == n;
    FilterAppend(both, rules, extra);
    FirstTiedIsCandidate(fileName, extra, n);
  }

  lemma TopIgnoresWeaker(fileName: string, rules: seq<UploadRule>, extra: seq<UploadRule>, n: nat)
    requires TopLength(rules, fileName, n)
    requires forall q :: Candidate(q, extra, fileName) ==> |q.pattern| < n
    ensures TopLength(rules + extra, fileName, n)
  {
  }

  /** Rules that do not match, or are beaten by a longer matching one, change nothing:
      an empty pattern never takes a file from a more specific slot. */
  lemma WeakerRulesChangeNothing(fileName: string, rules: seq<UploadRule>, extra: seq<UploadRule>,
      exchange: Option<string>, sniff: Sniff, validate: bool)
    requires forall q ::
               Candidate(q, extra, fileName) ==> exists r :: Candidate(r, rules, fileName) && |q.pattern| < |r.pattern|
    ensures MatchFile(fileName, rules + extra, exchange, sniff, validate)
              == MatchFile(fileName, rules, exchange, sniff, validate)
  {
    hide Matches, SelectRule, Disambiguate, ColumnCheck, Tied;
    if w :| Candidate(w, rules, fileName) {
      var n := TopLengthExists(rules, fileName, w);
      TopIgnoresWeaker(fileName, rules, extra, n);
      TiedIgnoresWeaker(fileName, rules, extra, n);
      SelectByTied(fileName, rules, exchange, n);
      SelectByTied(fileName, rules + extra, exchange, n);
    } else {
      forall q ensures !Candidate(q, rules + extra, fileName) {
        assert Candidate(q, rules + extra, fileName) ==> Candidate(q, rules, fileName) || Candidate(q, extra, fileName);
      }
      NoneMatches(fileName, rules, exchange);
      NoneMatches(fileName, rules + extra, exchange);
    }
  }
}
