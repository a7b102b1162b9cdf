/** app/services/nsdl_speede_service.py: which of the twelve SPEED-e files a request asks
    for, and how a call's results are summed up. */
module NsdlSelection {
  import opened Text

  const ACCOUNTS := ["CMPA", "CMFA", "NARNO"]
  const REPORTS := ["OPEN HOLDING", "pledge", "unpledge", "confiscate"]
  const SHARED_NAMES := ["NSDL MARGIN PLEDGE", "NSDL MARGIN UNPLEDGE", "NSDL MARGIN CONFISCATE"]

  /** A catalogue entry by its place: account-major, reports in upload order. */
  type Entry = e: nat | e < 12

  function AccountOf(e: Entry): nat {
    e / 4
  }

  function ReportOf(e: Entry): nat {
    e % 4
  }

  /** The category an entry feeds. */
  function UploadName(e: Entry): string {
    if ReportOf(e) == 0 then "NSDL " + ACCOUNTS[AccountOf(e)] + " OPEN HOLDING" else SHARED_NAMES[ReportOf(e) - 1]
  }

  lemma OpenHoldingName(e: Entry)
    requires ReportOf(e) == 0
    ensures |UploadName(e)| > 6 && UploadName(e)[5..7] == ACCOUNTS[AccountOf(e)][..2]
    ensures UploadName(e)[7] == ACCOUNTS[AccountOf(e)][2]
  {
  }

  /** The category is named after what it takes: an account's own holdings, or one kind of
      margin report of any account. */
  lemma NamesFollow(e: Entry)
    ensures UploadName(e) ==
            if ReportOf(e) == 0 then "NSDL " + ACCOUNTS[AccountOf(e)] + " " + REPORTS[0]
            else "NSDL MARGIN " + Upper(REPORTS[ReportOf(e)])
  {
    if ReportOf(e) == 0 {
      HoldingName(ACCOUNTS[AccountOf(e)]);
    } else {
      MarginName(ReportOf(e));
    }
  }

  lemma HoldingName(account: string)
    ensures "NSDL " + account + " OPEN HOLDING" == "NSDL " + account + " " + REPORTS[0]
  {
    assert " OPEN HOLDING" == " " + REPORTS[0];
  }

  lemma MarginName(r: nat)
    requires 1 <= r < 4
    ensures SHARED_NAMES[r - 1] == "NSDL MARGIN " + Upper(REPORTS[r])
  {
    if r == 1 {
      assert Upper("pledge") == "PLEDGE";
    } else if r == 2 {
      assert Upper("unpledge") == "UNPLEDGE";
    } else {
      assert Upper("confiscate") == "CONFISCATE";
    }
  }

  /** Open holdings have a category of their own; the other reports share theirs. */
  lemma CategoryShared(a: Entry, b: Entry)
    ensures UploadName(a) == UploadName(b) <==> ReportOf(a) == ReportOf(b) && (ReportOf(a) == 0 ==> a == b)
  {
    if ReportOf(a) == 0 {
      OpenHoldingName(a);
    }
    if ReportOf(b) == 0 {
      OpenHoldingName(b);
    }
  }

  datatype Selector = Selector(account: string, report: string, version: Option<nat>)

  datatype Request = Request(entry: Entry, version: Option<nat>)

  function Place(names: seq<string>, text: string): (r: Option<nat>)
    ensures r.Some? ==> r.value < |names| && Lower(names[r.value]) == Lower(text)
    ensures r.None? ==> forall i :: 0 <= i < |names| ==> Lower(names[i]) != Lower(text)
  {
    if |names| == 0 then None
    else if Lower(names[|names| - 1]) == Lower(text) then Some(|names| - 1)
    else Place(names[..|names| - 1], text)
  }

  /** The catalogue entry a selector names, ignoring case and outer spaces. */
  function Lookup(s: Selector): Option<Entry> {
    var account, report := Place(ACCOUNTS, Strip(s.account)), Place(REPORTS, Strip(s.report));
    if account.Some? && report.Some? then Some(4 * account.value + report.value) else None
  }

  // ---- the selection as a stable sort ----

  function Resolved(selectors: seq<Selector>): (r: seq<Request>)
    requires forall i :: 0 <= i < |selectors| ==> Lookup(selectors[i]).Some?
    ensures |r| == |selectors|
  {
    seq(|selectors|, i requires 0 <= i < |selectors| => Request(Lookup(selectors[i]).value, selectors[i].version))
  }

  /** The versions asked for one entry, in request order. */
  function VersionsOf(requests: seq<Request>, e: nat): seq<Option<nat>> {
    if |requests| == 0 then []
    else
      var rest, last := VersionsOf(requests[..|requests| - 1], e), requests[|requests| - 1];
      if last.entry == e then rest + [last.version] else rest
  }

  function Run(e: Entry, versions: seq<Option<nat>>): (r: seq<Request>)
    ensures |r| == |versions|
  {
    seq(|versions|, i requires 0 <= i < |versions| => Request(e, versions[i]))
  }

  /** Entries below n in catalogue order, each with its versions. */
  function Grouped(requests: seq<Request>, n: nat): seq<Request>
    requires n <= 12
  {
    if n == 0 then [] else Grouped(requests, n - 1) + Run(n - 1, VersionsOf(requests, n - 1))
  }

  function CountOf(requests: seq<Request>, q: Request): nat {
    multiset(requests)[q]
  }

  lemma {:induction false} VersionsCount(requests: seq<Request>, q: Request)
    ensures multiset(VersionsOf(requests, q.entry))[q.version] == CountOf(requests, q)
  {
    if |requests| > 0 {
      var init, last := requests[..|requests| - 1], requests[|requests| - 1];
      VersionsCount(init, q);
      assert requests == init + [last];
    }
  }

  lemma {:induction false} RunCount(e: Entry, versions: seq<Option<nat>>, q: Request)
    ensures CountOf(Run(e, versions), q) == if q.entry == e then multiset(versions)[q.version] else 0
  {
    if |versions| > 0 {
      var init, last := versions[..|versions| - 1], versions[|versions| - 1];
      RunCount(e, init, q);
      assert versions == init + [last] && Run(e, versions) == Run(e, init) + [Request(e, last)];
    }
  }

  lemma {:induction false} GroupedCount(requests: seq<Request>, n: nat, q: Request)
    requires n <= 12
    ensures CountOf(Grouped(requests, n), q) == if q.entry < n then CountOf(requests, q) else 0
  {
    if n > 0 {
      GroupedCount(requests, n - 1, q);
      RunCount(n - 1, VersionsOf(requests, n - 1), q);
      VersionsCount(requests, q);
    }
  }

  lemma {:induction false} GroupedSorted(requests: seq<Request>, n: nat)
    requires n <= 12
    ensures forall i :: 0 <= i < |Grouped(requests, n)| ==> Grouped(requests, n)[i].entry < n
    ensures forall i, j ::
              0 <= i < j < |Grouped(requests, n)| ==> Grouped(requests, n)[i].entry <= Grouped(requests, n)[j].entry
  {
    if n > 0 {
      GroupedSorted(requests, n - 1);
    }
  }

  lemma {:induction false} VersionsOfRun(a: seq<Request>, e: Entry, versions: seq<Option<nat>>, x: Entry)
    ensures VersionsOf(a + Run(e, versions), x) == VersionsOf(a, x) + (if x == e then versions else [])
  {
    if |versions| > 0 {
      var init, last := versions[..|versions| - 1], versions[|versions| - 1];
      VersionsOfRun(a, e, init, x);
      assert versions == init + [last];
      assert (a + Run(e, versions))[..|a| + |init|] == a + Run(e, init);
    } else {
      assert a + Run(e, versions) == a;
    }
  }

  lemma {:induction false} GroupedStable(requests: seq<Request>, n: nat, x: Entry)
    requires n <= 12
    ensures VersionsOf(Grouped(requests, n), x) == if x < n then VersionsOf(requests, x) else []
  {
    if n > 0 {
      GroupedStable(requests, n - 1, x);
      VersionsOfRun(Grouped(requests, n - 1), n - 1, VersionsOf(requests, n - 1), x);
    }
  }

  /** The selection is a stable sort: the same requests, in catalogue order, the versions of
      one entry in the order they were asked for. */
  lemma SelectionIsStableSort(requests: seq<Request>, x: Entry)
    ensures var r := Grouped(requests, 12);
            && multiset(r) == multiset(requests)
            && (forall i, j :: 0 <= i < j < |r| ==> r[i].entry <= r[j].entry)
            && VersionsOf(r, x) == VersionsOf(requests, x)
  {
    forall q: Request ensures multiset(Grouped(requests, 12))[q] == multiset(requests)[q] {
      GroupedCount(requests, 12, q);
    }
    GroupedSorted(requests, 12);
    GroupedStable(requests, 12, x);
  }

  function Everything(n: nat): (r: seq<Request>)
    requires n <= 12
    ensures |r| == n
  {
    seq(n, i requires 0 <= i < n => Request(i, None))
  }

  predicate AllKnown(selectors: seq<Selector>) {
    forall i :: 0 <= i < |selectors| ==> Lookup(selectors[i]).Some?
  }

  /** What a request asks for: everything, or its selectors as a stable sort. */
  function Selected(selectors: seq<Selector>): seq<Request>
    requires AllKnown(selectors)
  {
    if selectors == [] then Everything(12) else Grouped(Resolved(selectors), 12)
  }

  /** A request always asks for some file. */
  lemma SelectedSome(selectors: seq<Selector>)
    requires AllKnown(selectors)
    ensures Selected(selectors) != []
  {
    if selectors != [] {
      var resolved := Resolved(selectors);
      SelectionIsStableSort(resolved, resolved[0].entry);
      assert resolved[0] in multiset(resolved);
    }
  }

  /** With no selectors it is each catalogue entry once, at its latest version. */
  lemma NoSelectorsMeansAll()
    ensures |Selected([])| == |ACCOUNTS| * |REPORTS|
    ensures forall e: Entry :: Selected([])[e].entry == e && Selected([])[e].version.None?
  {
  }

  /** A selector names the entry whose account and report it spells, in any case and with any
      white space around; it is unknown exactly when there is none. */
  lemma LookupIff(s: Selector, e: Entry)
    ensures Lookup(s) == Some(e) <==>
              && Lower(ACCOUNTS[AccountOf(e)]) == Lower(Strip(s.account))
              && Lower(REPORTS[ReportOf(e)]) == Lower(Strip(s.report))
  {
    hide Strip;
    NamesDiffer();
    var account, report := Place(ACCOUNTS, Strip(s.account)), Place(REPORTS, Strip(s.report));
    if account.Some? && report.Some? {
      assert (4 * account.value + report.value) / 4 == account.value;
    }
  }

  lemma NamesDiffer()
    ensures forall i, j ::
              0 <= i < |ACCOUNTS| && 0 <= j < |ACCOUNTS| && Lower(ACCOUNTS[i]) == Lower(ACCOUNTS[j]) ==> i == j
    ensures forall i, j :: 0 <= i < |REPORTS| && 0 <= j < |REPORTS| && Lower(REPORTS[i]) == Lower(REPORTS[j]) ==> i == j
  {
    assert Lower(ACCOUNTS[0])[1] == 'm' && Lower(ACCOUNTS[0])[2] == 'p';
    assert Lower(ACCOUNTS[1])[1] == 'm' && Lower(ACCOUNTS[1])[2] == 'f';
    assert Lower(ACCOUNTS[2])[1] == 'a';
    assert Lower(REPORTS[0])[0] == 'o' && Lower(REPORTS[1])[0] == 'p';
    assert Lower(REPORTS[2])[0] == 'u' && Lower(REPORTS[3])[0] == 'c';
  }

  lemma OneMoreVersion(selectors: seq<Selector>, i: nat, e: Entry)
    requires i < |selectors| && forall j :: 0 <= j <= i ==> Lookup(selectors[j]).Some?
    ensures VersionsOf(Resolved(selectors[..i + 1]), e) ==
            VersionsOf(Resolved(selectors[..i]), e)
              + (if Lookup(selectors[i]) == Some(e) then [selectors[i].version] else [])
  {
    assert Resolved(selectors[..i + 1])[..i] == Resolved(selectors[..i]);
  }

  /** The versions requested for each entry, in request order; None for an unknown file. */
  method Collect(selectors: seq<Selector>) returns (r: Option<map<Entry, seq<Option<nat>>>>)
    ensures r.None? <==> exists i :: 0 <= i < |selectors| && Lookup(selectors[i]).None?
    ensures r.Some? ==>
              forall e: Entry :: (if e in r.value then r.value[e] else []) == VersionsOf(Resolved(selectors), e)
  {
    hide VersionsOf, Lookup;
    var requested: map<Entry, seq<Option<nat>>> := map[];
    NoVersions();
    for i := 0 to |selectors|
      invariant forall j :: 0 <= j < i ==> Lookup(selectors[j]).Some?
      invariant forall e: Entry ::
                  (if e in requested then requested[e] else []) == VersionsOf(Resolved(selectors[..i]), e)
    {
      var entry := Lookup(selectors[i]);
      if entry.None? {
        return None;
      }
      var asked := if entry.value in requested then requested[entry.value] else [];
      requested := requested[entry.value := asked + [selectors[i].version]];
      forall e: Entry ensures (if e in requested then requested[e] else [])
        == VersionsOf(Resolved(selectors[..i + 1]), e) {
        OneMoreVersion(selectors, i, e);
      }
    }
    assert selectors[..|selectors|] == selectors;
    r := Some(requested);
  }

  lemma NoVersions()
    ensures forall e :: VersionsOf([], e) == []
  {
  }

  /** resolve_selection: None when a selector names no catalogue entry; no selectors at all
      means every file at its latest version. */
  method ResolveSelection(selectors: seq<Selector>) returns (r: Option<seq<Request>>)
    ensures r.None? <==> !AllKnown(selectors)
    ensures r.Some? ==> r.value == Selected(selectors)
  {
    hide VersionsOf, Lookup;
    if |selectors| == 0 {
      return Some(Everything(12));
    }
    var requested := Collect(selectors);
    if requested.None? {
      return None;
    }
    var out: seq<Request> := [];
    for e := 0 to 12
      invariant out == Grouped(Resolved(selectors), e)
    {
      var versions := if e in requested.value then requested.value[e] else [];
      out := out + Run(e, versions);
    }
    r := Some(out);
  }

  // ---- the summary of a call ----

  datatype Verdict = Succeeded | Running | Failed

  datatype Overall = AllSucceeded | Partial | AllFailed | InProgress

  function Count(results: seq<Verdict>, v: Verdict): nat {
    if |results| == 0 then 0
    else Count(results[..|results| - 1], v) + (if results[|results| - 1] == v then 1 else 0)
  }

  method Summarise(results: seq<Verdict>) returns (success: nat, running: nat, failed: nat, overall: Overall)
    ensures success == Count(results, Succeeded) && running == Count(results, Running)
    ensures failed == Count(results, Failed)
    ensures overall == OverallOf(results)
  {
    success, running, failed := 0, 0, 0;
    for i := 0 to |results|
      invariant success == Count(results[..i], Succeeded) && running == Count(results[..i], Running)
      invariant failed == Count(results[..i], Failed)
    {
      assert results[..i + 1][..i] == results[..i];
      match results[i]
      case Succeeded => success := success + 1;
      case Running => running := running + 1;
      case Failed => failed := failed + 1;
    }
    assert results[..|results|] == results;
    overall :=
      if success == |results| then AllSucceeded
      else if success > 0 then Partial
      else if failed > 0 then AllFailed
      else InProgress;
  }

  function OverallOf(results: seq<Verdict>): Overall {
    if Count(results, Succeeded) == |results| then AllSucceeded
    else if Count(results, Succeeded) > 0 then Partial
    else if Count(results, Failed) > 0 then AllFailed
    else InProgress
  }

  lemma {:induction false} CountMeans(results: seq<Verdict>, v: Verdict)
    ensures Count(results, v) <= |results|
    ensures Count(results, v) == 0 <==> forall i :: 0 <= i < |results| ==> results[i] != v
    ensures Count(results, v) == |results| <==> forall i :: 0 <= i < |results| ==> results[i] == v
    ensures Count(results, Succeeded) + Count(results, Running) + Count(results, Failed) == |results|
  {
    if |results| > 0 {
      CountMeans(results[..|results| - 1], v);
    }
  }

  /** The counts add up, and each overall word means what it says about the files. */
  lemma SummaryTells(results: seq<Verdict>)
    requires results != []
    ensures Count(results, Succeeded) + Count(results, Running) + Count(results, Failed) == |results|
    ensures OverallOf(results) == AllSucceeded <==> forall i :: 0 <= i < |results| ==> results[i] == Succeeded
    ensures OverallOf(results) == InProgress <==> forall i :: 0 <= i < |results| ==> results[i] == Running
    ensures OverallOf(results) == AllFailed <==>
              Failed in results && Succeeded !in results
  {
  }
}
