/** app/services/cbos_filename.py: the name CBOS is told for a file the exchange stamped
    one to three days after the session CBOS wants. */
module CbosFilename {
  import opened Text

  const MAX_LATE_STAMP_DAYS := 3

  // ---- dates ----

  datatype Date = Date(year: nat, month: nat, day: nat)

  predicate IsLeap(y: nat) {
    y % 4 == 0 && (y % 100 != 0 || y % 400 == 0)
  }

  function DaysIn(y: nat, m: nat): nat {
    if m == 2 then (if IsLeap(y) then 29 else 28) else if m in {4, 6, 9, 11} then 30 else 31
  }

  function YearLength(y: nat): nat {
    if IsLeap(y) then 366 else 365
  }

  predicate IsDate(d: Date) {
    1 <= d.year <= 9999 && 1 <= d.month <= 12 && 1 <= d.day <= DaysIn(d.year, d.month)
  }

  /** Days before 1 January of year y, counted from year 1. */
  function YearStart(y: nat): nat {
    if y <= 1 then 0 else YearStart(y - 1) + YearLength(y - 1)
  }

  function MonthStart(y: nat, m: nat): nat {
    if m <= 1 then 0 else MonthStart(y, m - 1) + DaysIn(y, m - 1)
  }

  function Ordinal(d: Date): nat {
    YearStart(d.year) + MonthStart(d.year, d.month) + d.day
  }

  /** The days before a year by the leap rule: every fourth year, but of the centuries only
      every fourth. */
  lemma {:induction false} YearStartIs(y: nat)
    requires 1 <= y
    ensures YearStart(y) == 365 * (y - 1) + (y - 1) / 4 - (y - 1) / 100 + (y - 1) / 400
  {
    if y > 1 {
      YearStartIs(y - 1);
      OneMoreMultiple(y - 1, 4);
      OneMoreMultiple(y - 1, 100);
      OneMoreMultiple(y - 1, 400);
      HundredsAreFours(y - 1);
    }
  }

  lemma OneMoreMultiple(n: nat, k: nat)
    requires n > 0 && k > 1
    ensures n / k == (n - 1) / k + (if n % k == 0 then 1 else 0)
  {
    var q, r := (n - 1) / k, (n - 1) % k;
    assert n == q * k + (r + 1);
    if r + 1 == k {
      DivModIs(n, k, q + 1, 0);
    } else {
      DivModIs(n, k, q, r + 1);
    }
  }

  lemma DivModIs(n: nat, k: nat, q: nat, r: nat)
    requires n == q * k + r && r < k
    ensures n / k == q && n % k == r
  {
    var d := n / k - q;
    assert d * k == r - n % k;
    assert d >= 1 ==> d * k >= k;
    assert d <= -1 ==> d * k + k <= 0;
  }

  lemma HundredsAreFours(n: nat)
    ensures n % 100 == 0 ==> n % 4 == 0
    ensures n % 400 == 0 ==> n % 100 == 0
  {
    if n % 100 == 0 {
      DivModIs(n, 4, 25 * (n / 100), 0);
    }
    if n % 400 == 0 {
      DivModIs(n, 100, 4 * (n / 400), 0);
    }
  }

  lemma WithinYear(d: Date)
    requires IsDate(d)
    ensures YearStart(d.year) < Ordinal(d) <= YearStart(d.year + 1)
  {
    var y := d.year;
    MonthStarts(y);
  }

  lemma MonthStarts(y: nat)
    ensures MonthStart(y, 2) == 31 && MonthStart(y, 3) == 31 + DaysIn(y, 2) && MonthStart(y, 4) == 62 + DaysIn(y, 2)
    ensures MonthStart(y, 5) == 92 + DaysIn(y, 2) && MonthStart(y, 6) == 123 + DaysIn(y, 2)
    ensures MonthStart(y, 7) == 153 + DaysIn(y, 2)
    ensures MonthStart(y, 8) == 184 + DaysIn(y, 2) && MonthStart(y, 9) == 215 + DaysIn(y, 2)
    ensures MonthStart(y, 10) == 245 + DaysIn(y, 2)
    ensures MonthStart(y, 11) == 276 + DaysIn(y, 2) && MonthStart(y, 12) == 306 + DaysIn(y, 2)
  {
  }

  lemma {:induction false} YearsGrow(a: nat, b: nat)
    requires 1 <= a < b
    ensures YearStart(a) + 365 * (b - a) <= YearStart(b)
  {
    if a + 1 < b {
      YearsGrow(a, b - 1);
    }
  }

  /** A stamp one to three days late lies in the wanted year or the next one. */
  lemma LateStampYear(wanted: Date, found: Date)
    requires IsDate(wanted) && IsDate(found)
    requires 0 < Ordinal(found) - Ordinal(wanted) <= MAX_LATE_STAMP_DAYS
    ensures wanted.year <= found.year <= wanted.year + 1
  {
    WithinYear(wanted);
    WithinYear(found);
    StartsAhead(found.year, wanted.year);
    StartsAhead(wanted.year + 1, found.year);
  }

  lemma StartsAhead(a: nat, b: nat)
    requires 1 <= a
    ensures a < b ==> YearStart(a + 1) <= YearStart(b) && YearStart(a) + 365 <= YearStart(b)
  {
    if a < b {
      YearsGrow(a, b);
    }
    if a + 1 < b {
      YearsGrow(a + 1, b);
    }
  }

  // ---- stamps in a name ----

  /** DDMMYYYY or ddmmyy, when it is a day of the calendar. */
  function AsDate(token: string): (r: Option<Date>)
    ensures r.Some? ==> IsDate(r.value) && AllDigits(token) && |token| in {6, 8}
  {
    if !AllDigits(token) || |token| !in {6, 8} then None
    else
      var year := if |token| == 8 then DecValue(token[4..8]) else 2000 + DecValue(token[4..6]);
      var d := Date(year, DecValue(token[2..4]), DecValue(token[0..2]));
      if IsDate(d) then Some(d) else None
  }

  /** What counts as a stamp: eight digits, or six in this century, that say a day of the
      calendar, day first. */
  lemma AsDateIff(token: string, d: Date)
    ensures AsDate(token) == Some(d) <==>
              && AllDigits(token) && (|token| == 8 || |token| == 6)
              && d.day == DecValue(token[..2]) && d.month == DecValue(token[2..4])
              && d.year == DecValue(token[4..]) + (if |token| == 6 then 2000 else 0)
              && 1 <= d.year && d.year <= 9999 && 1 <= d.month && d.month <= 12 && 1 <= d.day
              && d.day <= (if d.month == 2 then YearStart(d.year + 1) - YearStart(d.year) - 337
                           else if d.month == 4 || d.month == 6 || d.month == 9 || d.month == 11 then 30 else 31)
  {
    hide DecValue, AllDigits, IsLeap;
    assert |token| == 8 ==> token[4..8] == token[4..];
    assert |token| == 6 ==> token[4..6] == token[4..];
  }

  /** A run of exactly n digits, with no digit on either side. */
  predicate IsRun(s: string, i: nat, n: nat) {
    && i + n <= |s|
    && (forall j :: i <= j < i + n ==> IsDigit(s[j]))
    && (i > 0 ==> !IsDigit(s[i - 1])) && (i + n < |s| ==> !IsDigit(s[i + n]))
  }

  function Token(s: string, at: nat, width: nat): (r: string)
    requires at + width <= |s|
    ensures |r| == width
  {
    s[at..at + width]
  }

  predicate Dated(s: string, n: nat, i: nat) {
    IsRun(s, i, n) && AsDate(Token(s, i, n)).Some?
  }

  function FirstDated(s: string, n: nat, from: nat): (r: Option<nat>)
    ensures r.Some? ==> from <= r.value && Dated(s, n, r.value) && forall j :: from <= j < r.value ==> !Dated(s, n, j)
    ensures r.None? ==> forall j :: from <= j ==> !Dated(s, n, j)
    decreases |s| - from
  {
    if from + n > |s| then None
    else if Dated(s, n, from) then Some(from)
    else if from == |s| then None
    else FirstDated(s, n, from + 1)
  }

  datatype Stamp = Stamp(at: nat, width: nat)

  /** The stamp a name carries: an eight-digit one if there is any, else a six-digit one. */
  function FindStamp(s: string): (r: Option<Stamp>)
    ensures r.Some? ==> r.value.width in {6, 8} && Dated(s, r.value.width, r.value.at)
  {
    var eight, six := FirstDated(s, 8, 0), FirstDated(s, 6, 0);
    if eight.Some? then Some(Stamp(eight.value, 8)) else if six.Some? then Some(Stamp(six.value, 6)) else None
  }

  /** The wanted day in the shape the name uses. */
  function TokenFor(wanted: string, width: nat): (r: string)
    requires |wanted| == 8 && width in {6, 8}
    ensures |r| == width
  {
    if width == 8 then wanted else wanted[..4] + wanted[6..8]
  }

  /** Where `part` first occurs; the length when it does not. */
  function FirstOccurrence(s: string, part: string, from: nat): (k: nat)
    requires from <= |s|
    ensures from <= k <= |s|
    ensures forall j :: from <= j < k ==> !OccursAt(part, s, j)
    ensures k < |s| ==> OccursAt(part, s, k)
    decreases |s| - from
  {
    if from == |s| || OccursAt(part, s, from) then from else FirstOccurrence(s, part, from + 1)
  }

  /** name.replace(part, text, 1). */
  function ReplaceFirst(s: string, part: string, text: string): string {
    var k := FirstOccurrence(s, part, 0);
    if OccursAt(part, s, k) then s[..k] + text + s[k + |part|..] else s
  }

  predicate IsWanted(wanted: string) {
    |wanted| == 8 && AsDate(wanted).Some?
  }

  /** The new name, or None when the name on disk is sent as it is. */
  function Renamed(name: string, wanted: string): (r: Option<string>)
    requires IsWanted(wanted)
    ensures r.Some? ==> FindStamp(name).Some?
  {
    var stamp := FindStamp(name);
    if stamp.None? then None
    else
      var token := Token(name, stamp.value.at, stamp.value.width);
      var target := TokenFor(wanted, stamp.value.width);
      var gap := Ordinal(AsDate(token).value) - Ordinal(AsDate(wanted).value);
      if token == target || gap <= 0 || gap > MAX_LATE_STAMP_DAYS then None
      else Some(ReplaceFirst(name, token, target))
  }

  // ---- the program ----

  datatype Reply = Reply(dateBasis: string, inputTradeDate: string, lastTradingDate: string)

  function Day(text: string): string {
    if |text| <= 10 then text else text[..10]
  }

  /** The day CBOS wants, when all its guards hold: the T-1 slots only, and only when it
      answered for this batch's own day. */
  function WantedToken(enabled: bool, reply: Answer<Reply>, tradeDate: string): (r: Option<string>)
    ensures r.Some? ==> IsWanted(r.value)
  {
    if !enabled || reply.Raised? then None
    else if Upper(Strip(reply.value.dateBasis)) != "T-1" || Day(reply.value.inputTradeDate) != Day(tradeDate) then None
    else
      var wanted := Strip(reply.value.lastTradingDate);
      if |wanted| == 8 && AsDate(wanted).Some? then Some(wanted) else None
  }

  /** A trade date written day first never equals the ISO day CBOS answers with, so a caller
      that passes one never sees a rewrite. */
  lemma DayFirstNeverMatches(enabled: bool, reply: Answer<Reply>, tradeDate: string)
    requires |tradeDate| >= 10 && tradeDate[2] == '-'
    requires reply.Ok? ==> |reply.value.inputTradeDate| >= 10 && IsDigit(reply.value.inputTradeDate[2])
    ensures WantedToken(enabled, reply, tradeDate).None?
  {
  }

  method FindDated(name: string, n: nat) returns (r: Option<nat>)
    ensures r == FirstDated(name, n, 0)
  {
    for i := 0 to |name| + 1
      invariant FirstDated(name, n, 0) == FirstDated(name, n, i) || (i > |name| && FirstDated(name, n, 0).None?)
    {
      if Dated(name, n, i) {
        return Some(i);
      }
    }
    r := None;
  }

  /** The first ten characters agree, or the texts do when one is shorter. */
  ghost predicate SameDay(a: string, b: string) {
    && (|a| == |b| || (|a| >= 10 && |b| >= 10))
    && forall i :: 0 <= i < 10 && i < |a| && i < |b| ==> a[i] == b[i]
  }

  lemma DaysAgree(a: string, b: string)
    ensures Day(a) == Day(b) <==> SameDay(a, b)
  {
    if Day(a) == Day(b) {
      assert |Day(a)| == |Day(b)| && forall i :: 0 <= i < |Day(a)| ==> Day(a)[i] == Day(b)[i];
      forall i | 0 <= i < 10 && i < |a| && i < |b| ensures a[i] == b[i] {
        assert Day(a)[i] == a[i] && Day(b)[i] == b[i];
      }
    }
  }

  /** CBOS wants this slot's file under the session before, it answered for this batch's own
      day, and it named that session by a day of the calendar. */
  ghost predicate CbosWantsAnotherDay(enabled: bool, reply: Answer<Reply>, tradeDate: string) {
    && enabled && reply.Ok?
    && Upper(Strip(reply.value.dateBasis)) == "T-1"
    && SameDay(reply.value.inputTradeDate, tradeDate)
    && |Strip(reply.value.lastTradingDate)| == 8 && AsDate(Strip(reply.value.lastTradingDate)).Some?
  }

  /** The name carries a stamp one to three days after that day. */
  ghost predicate StampedLate(name: string, wanted: string)
    requires IsWanted(wanted)
  {
    && FindStamp(name).Some?
    && var st := FindStamp(name).value;
       1 <= Ordinal(AsDate(Token(name, st.at, st.width)).value) - Ordinal(AsDate(wanted).value) <= 3
  }

  /** The guards together. */
  lemma WantedIff(enabled: bool, reply: Answer<Reply>, tradeDate: string)
    ensures var wanted := WantedToken(enabled, reply, tradeDate);
            && (wanted.Some? <==> CbosWantsAnotherDay(enabled, reply, tradeDate))
            && (wanted.Some? ==> wanted.value == Strip(reply.value.lastTradingDate))
  {
    hide AsDate, Strip, Upper, Day, SameDay;
    if reply.Ok? {
      DaysAgree(reply.value.inputTradeDate, tradeDate);
    }
  }

  /** A name is rewritten exactly when its stamp is that late. */
  lemma RenamedIff(name: string, wanted: string)
    requires IsWanted(wanted)
    ensures Renamed(name, wanted).Some? <==> StampedLate(name, wanted)
  {
    hide AsDate, Ordinal, FindStamp, FirstOccurrence, Token, TokenFor;
    if StampedLate(name, wanted) {
      LateIsNotWanted(name, wanted);
    }
  }

  /** A late stamp is never the wanted token itself. */
  lemma LateIsNotWanted(name: string, wanted: string)
    requires IsWanted(wanted) && StampedLate(name, wanted)
    ensures Token(name, FindStamp(name).value.at, FindStamp(name).value.width)
              != TokenFor(wanted, FindStamp(name).value.width)
  {
    hide Ordinal, IsDate, DecValue, FirstDated;
    var st := FindStamp(name).value;
    var token := Token(name, st.at, st.width);
    if st.width == 6 {
      ShortTokenDate(wanted, token);
      LateStampMonth(AsDate(wanted).value, AsDate(token).value);
    }
  }

  /** This name is the file's own with its stamp replaced by the wanted day. */
  predicate Rewritten(enabled: bool, reply: Answer<Reply>, tradeDate: string, name: string, sent: string) {
    var wanted := WantedToken(enabled, reply, tradeDate);
    wanted.Some? && Renamed(name, wanted.value) == Some(sent)
  }

  /** resolve_upload_name: the name to send, and whether it differs from the one on disk. */
  method ResolveUploadName(enabled: bool, reply: Answer<Reply>, name: string, tradeDate: string)
    returns (sent: string, rewritten: bool)
    ensures if rewritten then Rewritten(enabled, reply, tradeDate, name, sent) else sent == name
    ensures rewritten <==>
              && CbosWantsAnotherDay(enabled, reply, tradeDate)
              && StampedLate(name, Strip(reply.value.lastTradingDate))
  {
    WantedIff(enabled, reply, tradeDate);
    if WantedToken(enabled, reply, tradeDate).Some? {
      RenamedIff(name, WantedToken(enabled, reply, tradeDate).value);
    }
    hide StampedLate, CbosWantsAnotherDay, SameDay, Day, Strip, Upper;
    var wanted := WantedToken(enabled, reply, tradeDate);
    if wanted.None? {
      return name, false;
    }
    var at, width := None, 8;
    var widths := [8, 6];
    for f := 0 to 2
      invariant f > 0 ==> FirstDated(name, 8, 0).None?
      invariant f > 1 ==> FirstDated(name, 6, 0).None?
      invariant at.None?
    {
      width := widths[f];
      at := FindDated(name, width);
      if at.Some? {
        break;
      }
    }
    if at.None? {
      return name, false;
    }
    var token, target := Token(name, at.value, width), TokenFor(wanted.value, width);
    if token == target {
      return name, false;
    }
    var gap := Ordinal(AsDate(token).value) - Ordinal(AsDate(wanted.value).value);
    if !(0 < gap <= MAX_LATE_STAMP_DAYS) {
      return name, false;
    }
    return ReplaceFirst(name, token, target), true;
  }

  // ---- what a rewrite does ----

  /** Where the replacement lands: the first place the stamp's digits occur at all. */
  function Landing(name: string): nat
    requires FindStamp(name).Some?
  {
    var st := FindStamp(name).value;
    FirstOccurrence(name, Token(name, st.at, st.width), 0)
  }

  ghost predicate SameElsewhere(s: string, t: string, k: nat, width: nat) {
    && |s| == |t| && k + width <= |s|
    && forall j :: 0 <= j < |s| && (j < k || k + width <= j) ==> s[j] == t[j]
  }

  predicate DigitsAt(s: string, k: nat, width: nat) {
    k + width <= |s| && forall j :: k <= j < k + width ==> IsDigit(s[j])
  }

  ghost predicate Swapped(s: string, t: string, k: nat, width: nat) {
    SameElsewhere(s, t, k, width) && DigitsAt(s, k, width) && DigitsAt(t, k, width)
  }

  /** Only the digits at the landing place change, and they become the wanted token. */
  lemma OnlyTheTokenChanges(name: string, wanted: string)
    requires IsWanted(wanted) && Renamed(name, wanted).Some?
    ensures var st, sent, k := FindStamp(name).value, Renamed(name, wanted).value, Landing(name);
            && k <= st.at && Swapped(name, sent, k, st.width)
            && Token(name, k, st.width) == Token(name, st.at, st.width)
            && Token(sent, k, st.width) == TokenFor(wanted, st.width)
            && TokenFor(wanted, st.width) != Token(name, st.at, st.width)
  {
    hide AsDate, Ordinal, FirstDated, AllDigits, TokenFor, FirstOccurrence, Token;
    var st, k, target := FindStamp(name).value, Landing(name), TokenFor(wanted, FindStamp(name).value.width);
    TokenOccurs(name, st.at, st.width, k);
    TokenIsDigits(wanted, st.width);
    CopyIsDigits(name, k, st.at, st.width);
    Spliced(name, k, st.width, target);
  }

  lemma TokenOccurs(s: string, at: nat, width: nat, k: nat)
    requires at + width <= |s| && width > 0 && k == FirstOccurrence(s, Token(s, at, width), 0)
    ensures k <= at && Token(s, k, width) == Token(s, at, width) && OccursAt(Token(s, at, width), s, k)
  {
    hide FirstOccurrence, Token, OccursAt;
    TokenIsThere(s, at, width);
    FoundIsToken(s, Token(s, at, width), k);
  }

  lemma TokenIsThere(s: string, at: nat, width: nat)
    requires at + width <= |s|
    ensures OccursAt(Token(s, at, width), s, at)
  {
  }

  lemma FoundIsToken(s: string, part: string, k: nat)
    requires OccursAt(part, s, k)
    ensures k + |part| <= |s| && Token(s, k, |part|) == part
  {
  }

  lemma TokenIsDigits(wanted: string, width: nat)
    requires IsWanted(wanted) && width in {6, 8}
    ensures AllDigits(TokenFor(wanted, width))
  {
  }

  lemma Spliced(s: string, k: nat, width: nat, text: string)
    requires k + width <= |s| && |text| == width && AllDigits(text)
    ensures var t := s[..k] + text + s[k + width..];
            SameElsewhere(s, t, k, width) && DigitsAt(t, k, width) && Token(t, k, width) == text
  {
  }

  /** Two runs are the same run, or a non-digit lies between them. */
  lemma RunsApart(s: string, i: nat, a: nat, j: nat, b: nat)
    requires IsRun(s, i, a) && IsRun(s, j, b) && a > 0 && b > 0
    ensures (i == j && a == b) || i + a < j || j + b < i
  {
  }

  /** Digits for digits: the runs of a name stay where they were. */
  lemma RunsStay(s: string, t: string, k: nat, width: nat, i: nat, n: nat)
    requires Swapped(s, t, k, width)
    ensures IsRun(s, i, n) <==> IsRun(t, i, n)
  {
  }

  lemma SliceStays(s: string, t: string, k: nat, width: nat, i: nat, n: nat)
    requires SameElsewhere(s, t, k, width) && i + n <= |s| && (i + n <= k || k + width <= i)
    ensures Token(s, i, n) == Token(t, i, n)
  {
  }

  /** A run clear of the replaced digits reads the same before and after. */
  lemma DatedStays(s: string, t: string, k: nat, width: nat, i: nat, n: nat)
    requires Swapped(s, t, k, width)
    requires IsRun(s, i, n) ==> i + n <= k || k + width <= i
    ensures Dated(s, n, i) <==> Dated(t, n, i)
  {
    hide AsDate, Token;
    RunsStay(s, t, k, width, i, n);
    if IsRun(s, i, n) {
      SliceStays(s, t, k, width, i, n);
    }
  }

  lemma CopyIsDigits(s: string, k: nat, at: nat, width: nat)
    requires IsRun(s, at, width) && k + width <= |s| && Token(s, k, width) == Token(s, at, width)
    ensures DigitsAt(s, k, width)
  {
    forall j | k <= j < k + width ensures IsDigit(s[j]) {
      assert Token(s, k, width)[j - k] == Token(s, at, width)[j - k];
    }
  }

  /** Digits that occur before a run lie wholly before it. */
  lemma LandsInAnotherRun(s: string, k: nat, at: nat, width: nat)
    requires IsRun(s, at, width) && k < at && DigitsAt(s, k, width)
    ensures k + width < at
  {
  }

  /** The stamp that was checked is the one replaced exactly when its digits occur nowhere
      earlier, not even inside a longer number. */
  lemma StampIsReplacedIff(name: string, wanted: string)
    requires IsWanted(wanted) && Renamed(name, wanted).Some?
    ensures var st := FindStamp(name).value;
            && |Renamed(name, wanted).value| == |name|
            && Token(Renamed(name, wanted).value, st.at, st.width) ==
               (if Landing(name) == st.at then TokenFor(wanted, st.width) else Token(name, st.at, st.width))
            && (Token(Renamed(name, wanted).value, st.at, st.width) == TokenFor(wanted, st.width) <==>
                  Landing(name) == st.at)
  {
    hide FindStamp, Renamed, Landing, AsDate, TokenFor, DigitsAt, SameElsewhere, Token;
    var st, sent, k := FindStamp(name).value, Renamed(name, wanted).value, Landing(name);
    OnlyTheTokenChanges(name, wanted);
    assert Dated(name, st.width, st.at);
    SwappedLength(name, sent, k, st.width);
    if k < st.at {
      LandsInAnotherRun(name, k, st.at, st.width);
      SliceStays(name, sent, k, st.width, st.at, st.width);
    }
  }

  lemma SwappedLength(s: string, t: string, k: nat, width: nat)
    requires SameElsewhere(s, t, k, width)
    ensures |s| == |t|
  {
  }

  // ---- is the rewritten name left alone the next time? ----

  lemma TwoDigits(s: string)
    requires |s| == 2 && AllDigits(s)
    ensures DecValue(s) == 10 * DigitValue(s[0]) + DigitValue(s[1])
  {
    assert s[..1] == [s[0]];
    assert DecValue(s[..1]) == DigitValue(s[0]) by {
      assert s[..1][..0] == [];
    }
  }

  lemma FourDigits(s: string)
    requires |s| == 4 && AllDigits(s)
    ensures DecValue(s) == 100 * DecValue(s[..2]) + DecValue(s[2..]) && DecValue(s[2..]) < 100
  {
    TwoDigits(s[2..]);
    assert s[..3][..2] == s[..2];
    assert DecValue(s[..3]) == 10 * DecValue(s[..2]) + DigitValue(s[2]);
  }

  lemma SixDigitDate(wanted: string)
    requires IsWanted(wanted)
    ensures var d, t := AsDate(wanted).value, TokenFor(wanted, 6);
            && |t| == 6 && AllDigits(t)
            && 2000 + DecValue(t[4..6]) == 2000 + d.year % 100
            && DecValue(t[2..4]) == d.month
            && DecValue(t[0..2]) == d.day
  {
    hide DecValue, IsDate;
    var t := TokenFor(wanted, 6);
    assert t == wanted[..4] + wanted[6..8];
    assert t[4..6] == wanted[6..8] && t[2..4] == wanted[2..4] && t[0..2] == wanted[0..2];
    FourDigits(wanted[4..8]);
    assert wanted[4..8][2..] == wanted[6..8];
  }

  lemma CenturyDate(wanted: Date, found: Date)
    requires IsDate(wanted) && 2000 <= found.year < 2100 && wanted.year <= found.year <= wanted.year + 1
    ensures IsDate(Date(2000 + wanted.year % 100, wanted.month, wanted.day))
    ensures 2000 + wanted.year % 100 == wanted.year <==> wanted.year >= 2000
  {
  }

  lemma ShortStampYear(token: string)
    requires |token| == 6 && AsDate(token).Some?
    ensures 2000 <= AsDate(token).value.year < 2100
  {
    TwoDigits(token[4..6]);
  }

  /** The token written is a day of the calendar, and the wanted one except when a
      six-digit stamp is asked for a year before 2000. */
  lemma TokenDate(name: string, wanted: string)
    requires IsWanted(wanted) && Renamed(name, wanted).Some?
    ensures var st := FindStamp(name).value;
            && AsDate(TokenFor(wanted, st.width)).Some?
            && (AsDate(TokenFor(wanted, st.width)) == AsDate(wanted) <==>
                  st.width == 8 || AsDate(wanted).value.year >= 2000)
  {
    hide AsDate, Renamed, Ordinal, FindStamp;
    var st := FindStamp(name).value;
    RenamedIsLate(name, wanted);
    if st.width == 6 {
      ShortTokenDate(wanted, Token(name, st.at, 6));
    }
  }

  /** Only a dated stamp one to three days after the wanted day is rewritten. */
  lemma RenamedIsLate(name: string, wanted: string)
    requires IsWanted(wanted) && Renamed(name, wanted).Some?
    ensures var st := FindStamp(name).value;
            && AsDate(Token(name, st.at, st.width)).Some?
            && 0 < Ordinal(AsDate(Token(name, st.at, st.width)).value) - Ordinal(AsDate(wanted).value)
                 <= MAX_LATE_STAMP_DAYS
  {
    hide AsDate, Ordinal, FirstDated, FirstOccurrence, TokenFor, Token;
  }

  lemma ShortTokenDate(wanted: string, found: string)
    requires IsWanted(wanted) && |found| == 6 && AsDate(found).Some?
    requires 0 < Ordinal(AsDate(found).value) - Ordinal(AsDate(wanted).value) <= MAX_LATE_STAMP_DAYS
    ensures var d := AsDate(wanted).value;
            && AsDate(TokenFor(wanted, 6)) == Some(Date(2000 + d.year % 100, d.month, d.day))
            && (2000 + d.year % 100 == d.year <==> d.year >= 2000)
  {
    LateStampYear(AsDate(wanted).value, AsDate(found).value);
    ShortStampYear(found);
    CenturyDate(AsDate(wanted).value, AsDate(found).value);
    SixDigitDate(wanted);
    SixDigitToken(TokenFor(wanted, 6), AsDate(wanted).value);
  }

  lemma SixDigitToken(token: string, d: Date)
    requires |token| == 6 && AllDigits(token)
    requires 2000 + DecValue(token[4..6]) == 2000 + d.year % 100 && DecValue(token[2..4]) == d.month
    requires DecValue(token[0..2]) == d.day
    requires IsDate(Date(2000 + d.year % 100, d.month, d.day))
    ensures AsDate(token) == Some(Date(2000 + d.year % 100, d.month, d.day))
  {
    hide IsDate, DecValue;
  }

  /** A rewritten name says the wanted day at its stamp exactly when the stamp is what was
      replaced, and its shape can say the year. */
  lemma SaysWantedDayIff(name: string, wanted: string)
    requires IsWanted(wanted) && Renamed(name, wanted).Some?
    ensures var st := FindStamp(name).value;
            && |Renamed(name, wanted).value| == |name|
            && (AsDate(Token(Renamed(name, wanted).value, st.at, st.width)) == AsDate(wanted) <==>
                  Landing(name) == st.at && (st.width == 8 || AsDate(wanted).value.year >= 2000))
  {
    StampIsReplacedIff(name, wanted);
    TokenDate(name, wanted);
    hide AsDate, Token, TokenFor, Landing, FindStamp, Ordinal;
  }

  lemma StampStays(name: string, wanted: string, n: nat, i: nat)
    requires IsWanted(wanted) && Renamed(name, wanted).Some? && n in {6, 8}
    requires Landing(name) == FindStamp(name).value.at
    ensures Dated(Renamed(name, wanted).value, n, i) <==> Dated(name, n, i)
  {
    hide FindStamp, Renamed, Landing, AsDate, TokenFor, Token, SameElsewhere, DigitsAt;
    var st, sent := FindStamp(name).value, Renamed(name, wanted).value;
    OnlyTheTokenChanges(name, wanted);
    if i == st.at && n == st.width {
      RunsStay(name, sent, st.at, st.width, i, n);
      TokenDate(name, wanted);
    } else {
      if IsRun(name, i, n) {
        RunsApart(name, i, n, st.at, st.width);
      }
      DatedStays(name, sent, st.at, st.width, i, n);
    }
  }

  lemma SameStamp(s: string, t: string)
    requires forall i :: Dated(s, 8, i) <==> Dated(t, 8, i)
    requires forall i :: Dated(s, 6, i) <==> Dated(t, 6, i)
    ensures FindStamp(s) == FindStamp(t)
  {
    hide FirstDated, Dated;
    SameFirst(s, t, 8);
    SameFirst(s, t, 6);
  }

  /** When the checked stamp is the one replaced, the new name carries the wanted token
      there and resolves to itself, in both shapes. */
  lemma RewriteIsIdempotent(name: string, wanted: string)
    requires IsWanted(wanted) && Renamed(name, wanted).Some?
    requires Landing(name) == FindStamp(name).value.at
    ensures FindStamp(Renamed(name, wanted).value) == FindStamp(name)
    ensures Renamed(Renamed(name, wanted).value, wanted).None?
  {
    var sent := Renamed(name, wanted).value;
    forall i ensures Dated(name, 8, i) <==> Dated(sent, 8, i) {
      StampStays(name, wanted, 8, i);
    }
    forall i ensures Dated(name, 6, i) <==> Dated(sent, 6, i) {
      StampStays(name, wanted, 6, i);
    }
    SameStamp(name, sent);
    StampIsReplacedIff(name, wanted);
  }

  lemma IsDatedRun(s: string, at: nat, n: nat)
    requires FirstDated(s, n, 0) == Some(at)
    ensures IsRun(s, at, n) && |s| >= at + n && Dated(s, n, at)
  {
  }

  /** A misplaced rewrite leaves the late stamp the first of its width. */
  lemma StampStands(name: string, sent: string, k: nat, at: nat, n: nat)
    requires FirstDated(name, n, 0) == Some(at) && k < at && n > 0 && Swapped(name, sent, k, n)
    requires k + n <= |name| && at + n <= |name| && Token(name, k, n) == Token(name, at, n)
    ensures FirstDated(sent, n, 0) == Some(at)
  {
    hide AsDate, Dated, FirstDated, IsRun, Swapped, Token;
    forall i ensures Dated(sent, n, i) <==> Dated(name, n, i) {
      OtherRunStands(name, sent, k, at, n, i);
    }
    SameFirst(name, sent, n);
  }

  lemma SameFirst(s: string, t: string, n: nat)
    requires forall i :: Dated(s, n, i) <==> Dated(t, n, i)
    ensures FirstDated(s, n, 0) == FirstDated(t, n, 0)
  {
  }

  lemma OtherRunStands(name: string, sent: string, k: nat, at: nat, n: nat, i: nat)
    requires FirstDated(name, n, 0) == Some(at) && k < at && n > 0 && Swapped(name, sent, k, n)
    requires k + n <= |name| && at + n <= |name| && Token(name, k, n) == Token(name, at, n)
    ensures Dated(sent, n, i) <==> Dated(name, n, i)
  {
    IsDatedRun(name, at, n);
    hide AsDate, Dated, FirstDated, IsRun, SameElsewhere, DigitsAt, Token;
    LandsInAnotherRun(name, k, at, n);
    RunsAvoid(name, k, at, n, i);
    DatedStays(name, sent, k, n, i, n);
  }

  lemma CopyIsDated(s: string, k: nat, at: nat, n: nat)
    requires k + n <= |s| && Dated(s, n, at) && Token(s, k, n) == Token(s, at, n)
    ensures IsRun(s, k, n) ==> Dated(s, n, k)
  {
  }

  /** An earlier copy of the first dated run is part of a longer run. */
  lemma RunsAvoid(s: string, k: nat, at: nat, n: nat, i: nat)
    requires FirstDated(s, n, 0) == Some(at) && k + n < at && n > 0 && DigitsAt(s, k, n)
    requires at + n <= |s| && Token(s, k, n) == Token(s, at, n)
    ensures IsRun(s, i, n) ==> i + n <= k || k + n <= i
  {
    hide AsDate, FirstDated, Token;
    CopyIsDated(s, k, at, n);
    assert !Dated(s, n, k);
    assert !IsRun(s, k, n);
    assert IsRun(s, i, n) && i < k ==> !(k <= i + n < k + n);
  }

  /** A run of eight digits around the place where a six-digit stamp lands. */
  predicate RunAround(name: string, k: nat, r: nat) {
    r <= k && k + 6 <= r + 8 && IsRun(name, r, 8)
  }

  /** The number at the landing place, as it would read after the rewrite. */
  function NumberAfter(name: string, wanted: string, k: nat, r: nat): string
    requires |wanted| == 8 && RunAround(name, k, r)
  {
    name[r..k] + TokenFor(wanted, 6) + name[k + 6..r + 8]
  }

  /** The six digits land in an eight-digit number that then reads as a day. */
  predicate LandsInADay(name: string, wanted: string)
    requires IsWanted(wanted) && FindStamp(name).Some?
  {
    && FindStamp(name).value.width == 6
    && exists r: nat ::
         && r <= Landing(name)
         && RunAround(name, Landing(name), r)
         && AsDate(NumberAfter(name, wanted, Landing(name), r)).Some?
  }

  lemma AroundMeans(name: string, sent: string, wanted: string, k: nat, r: nat)
    requires |wanted| == 8 && Swapped(name, sent, k, 6) && Token(sent, k, 6) == TokenFor(wanted, 6)
    requires RunAround(name, k, r)
    ensures r + 8 <= |sent| && Token(sent, r, 8) == NumberAfter(name, wanted, k, r)
  {
    hide TokenFor, DigitsAt;
    var target, number := TokenFor(wanted, 6), NumberAfter(name, wanted, k, r);
    assert |number| == 8;
    forall j | 0 <= j < 8 ensures Token(sent, r, 8)[j] == number[j] {
      if k - r <= j < k - r + 6 {
        assert number[j] == target[j - (k - r)] == Token(sent, k, 6)[j - (k - r)];
      } else {
        assert number[j] == name[r + j];
      }
    }
  }

  lemma TouchedRun(name: string, k: nat, r: nat)
    requires DigitsAt(name, k, 6) && IsRun(name, r, 8) && !(r + 8 <= k) && !(k + 6 <= r)
    ensures RunAround(name, k, r)
  {
  }

  /** An eight-digit day that was not there before is the number the digits landed in. */
  lemma NewDayIsAround(name: string, sent: string, wanted: string, k: nat, r: nat)
    requires |wanted| == 8 && Swapped(name, sent, k, 6) && Token(sent, k, 6) == TokenFor(wanted, 6)
    requires FirstDated(name, 8, 0).None? && Dated(sent, 8, r)
    ensures RunAround(name, k, r) && AsDate(NumberAfter(name, wanted, k, r)).Some?
  {
    assert !Dated(name, 8, r);
    hide AsDate, FirstDated, Token, TokenFor, SameElsewhere;
    RunsStay(name, sent, k, 6, r, 8);
    if r + 8 <= k || k + 6 <= r {
      DatedStays(name, sent, k, 6, r, 8);
    }
    TouchedRun(name, k, r);
    AroundMeans(name, sent, wanted, k, r);
  }

  /** What a stamp one to three days late looks like. */
  lemma LateStampMonth(w: Date, f: Date)
    requires IsDate(w) && IsDate(f) && 0 < Ordinal(f) - Ordinal(w) <= MAX_LATE_STAMP_DAYS
    ensures SoonAfter(w, f)
  {
    hide YearStart, MonthStart, DaysIn, YearLength;
    LateStampYear(w, f);
    if f.year == w.year {
      if f.month < w.month {
        MonthsGrow(w.year, f.month, w.month);
      } else if w.month < f.month {
        MonthsGrow(w.year, w.month, f.month);
      }
    } else {
      YearsTurn(w.year);
      MonthsGrow(w.year, w.month, 13);
      if f.month > 1 {
        MonthsGrow(f.year, 1, f.month);
      }
    }
  }

  /** The months of a year follow one another, and none but the first few days of the next
      lies within three days of the end of one. */
  lemma {:induction false} MonthsGrow(y: nat, a: nat, b: nat)
    requires 1 <= a < b <= 13
    ensures MonthStart(y, 1) == 0 && DaysIn(y, 1) == DaysIn(y, 12) == 31
    ensures MonthStart(y, a) + DaysIn(y, a) <= MonthStart(y, b)
    ensures a + 1 < b ==> MonthStart(y, a) + DaysIn(y, a) + 28 <= MonthStart(y, b)
    ensures a + 1 == b ==> MonthStart(y, a) + DaysIn(y, a) == MonthStart(y, b)
  {
    hide IsLeap;
    if a + 1 < b {
      MonthsGrow(y, a, b - 1);
    }
  }

  lemma YearsTurn(y: nat)
    requires y >= 1
    ensures YearStart(y + 1) == YearStart(y) + MonthStart(y, 13)
  {
    MonthStarts(y);
  }

  /** Six digits of the wanted day inside eight never name a day just after it. */
  lemma NumberIsNotLate(token: string, wanted: string, o: nat)
    requires IsWanted(wanted) && AsDate(token).Some? && |token| == 8 && o <= 2
    requires Token(token, o, 6) == TokenFor(wanted, 6)
    requires SixDigitsCanBeLate(AsDate(wanted).value)
    ensures !(0 < Ordinal(AsDate(token).value) - Ordinal(AsDate(wanted).value) <= MAX_LATE_STAMP_DAYS)
  {
    var w, f := AsDate(wanted).value, AsDate(token).value;
    assert w.month <= 12;
    hide Ordinal, Reading, IsDate;
    if 0 < Ordinal(f) - Ordinal(w) <= MAX_LATE_STAMP_DAYS {
      LateStampMonth(w, f);
      ReadToken(token);
      ReadToken(wanted);
      hide AsDate;
      SixInEight(token, wanted, o);
      NoSuchDay(w, f, o);
    }
  }

  lemma NotInDecember(day: nat, found: nat, month: nat)
    requires day <= 31 && month == 10 * (day % 10) + 1 && found % 10 == day / 10
    ensures month != 12 && (month == 1 ==> 31 - day + found > 3)
  {
    if month == 1 && day >= 28 {
      assert day == 30;
    }
  }

  lemma Not1999(w: Date, f: Date)
    requires SixDigitsCanBeLate(w) && Shifted(w, f, 1) && SoonAfter(w, f)
    ensures w.year >= 2000
  {
  }

  lemma OnlyYear2000(w: Date, f: Date)
    requires 2000 <= w.year < 2100 && w.year <= f.year <= w.year + 1
    requires f.year / 10 == 100 * (w.month % 10) + w.year % 100
    ensures w.year == 2000 && w.month % 10 == 2
  {
  }

  /** What is shifted in the year, month and day is never just after. */
  lemma NoSuchDay(w: Date, f: Date, o: nat)
    requires IsDate(w) && IsDate(f) && SixDigitsCanBeLate(w) && o <= 2 && Shifted(w, f, o)
    ensures !SoonAfter(w, f)
  {
    hide IsLeap;
    if o == 1 && SoonAfter(w, f) {
      Not1999(w, f);
      OnlyYear2000(w, f);
      if w.month == 12 {
        NotInDecember(w.day, f.day, f.month);
      }
    }
  }

  /** The wanted days a six-digit stamp can be one to three days after: this century's,
      and the last ones of December 1999. */
  predicate SixDigitsCanBeLate(w: Date) {
    1999 <= w.year < 2100 && (w.year == 1999 ==> w.month == 12)
  }

  predicate SoonAfter(w: Date, f: Date) {
    || (f.year == w.year && f.month == w.month && w.day < f.day)
    || (f.year == w.year && f.month == w.month + 1)
    || (f.year == w.year + 1 && w.month == 12 && f.month == 1 && 31 - w.day + f.day <= 3)
  }

  /** The six digits of w, read from place o on in the eight of f. */
  predicate Shifted(w: Date, f: Date, o: nat) {
    && (o == 0 ==> f.month == w.month && f.day == w.day)
    && (o == 1 ==>
          && f.month == 10 * (w.day % 10) + w.month / 10
          && f.day % 10 == w.day / 10
          && f.year / 10 == 100 * (w.month % 10) + w.year % 100)
    && (o == 2 ==> f.year < 1300)
  }

  lemma SixInEight(token: string, wanted: string, o: nat)
    requires |wanted| == |token| == 8 && AllDigits(wanted) && AllDigits(token) && o <= 2
    requires Token(token, o, 6) == TokenFor(wanted, 6) && Reading(wanted).month <= 12
    ensures Shifted(Reading(wanted), Reading(token), o)
  {
    SixDigitsOf(token, wanted, o);
    var a, b := Reading(wanted), Reading(token);
    var c, d := DigitValue(wanted[0]), DigitValue(wanted[1]);
    Columns(a.day, c, d);
    Columns(a.month, DigitValue(wanted[2]), DigitValue(wanted[3]));
    Columns(b.day, DigitValue(token[0]), DigitValue(token[1]));
    Century(a.year,
      10 * DigitValue(wanted[4]) + DigitValue(wanted[5]), 10 * DigitValue(wanted[6]) + DigitValue(wanted[7]));
    Columns(b.year,
      100 * DigitValue(token[4]) + 10 * DigitValue(token[5]) + DigitValue(token[6]), DigitValue(token[7]));
  }

  lemma Columns(n: nat, tens: nat, ones: nat)
    requires n == 10 * tens + ones && ones < 10
    ensures n / 10 == tens && n % 10 == ones
  {
  }

  lemma Century(n: nat, hundreds: nat, rest: nat)
    requires n == 100 * hundreds + rest && rest < 100
    ensures n % 100 == rest
  {
  }

  lemma SixDigitsOf(token: string, wanted: string, o: nat)
    requires |wanted| == |token| == 8 && o <= 2 && Token(token, o, 6) == TokenFor(wanted, 6)
    ensures token[o] == wanted[0] && token[o + 1] == wanted[1] && token[o + 2] == wanted[2]
    ensures token[o + 3] == wanted[3] && token[o + 4] == wanted[6] && token[o + 5] == wanted[7]
  {
    var t := TokenFor(wanted, 6);
    assert forall i :: 0 <= i < 6 ==> token[o + i] == t[i];
    assert t[0] == wanted[0] && t[1] == wanted[1] && t[2] == wanted[2];
    assert t[3] == wanted[3] && t[4] == wanted[6] && t[5] == wanted[7];
  }

  /** The first eight-digit day, if there is one, decides the stamp. */
  lemma EightFirst(s: string)
    ensures FirstDated(s, 8, 0).Some? ==> FindStamp(s) == Some(Stamp(FirstDated(s, 8, 0).value, 8))
    ensures FirstDated(s, 8, 0).None? && FirstDated(s, 6, 0).Some? ==>
              FindStamp(s) == Some(Stamp(FirstDated(s, 6, 0).value, 6))
    ensures FindStamp(s).Some? && FindStamp(s).value.width == 6 ==>
              FirstDated(s, 8, 0).None? && FirstDated(s, 6, 0) == Some(FindStamp(s).value.at)
    ensures FindStamp(s).Some? && FindStamp(s).value.width == 8 ==> FirstDated(s, 8, 0) == Some(FindStamp(s).value.at)
  {
    hide FirstDated;
  }

  /** A name is rewritten exactly when its stamp is late and not yet the wanted one. */
  lemma NotLateNotRenamed(s: string, wanted: string)
    requires IsWanted(wanted) && FindStamp(s).Some?
    ensures var token := Token(s, FindStamp(s).value.at, FindStamp(s).value.width);
            Renamed(s, wanted).Some? <==>
              && token != TokenFor(wanted, FindStamp(s).value.width)
              && 0 < Ordinal(AsDate(token).value) - Ordinal(AsDate(wanted).value) <= MAX_LATE_STAMP_DAYS
  {
    hide AsDate, Ordinal, FindStamp, FirstOccurrence, TokenFor, Token;
  }

  lemma WantedYear(name: string, wanted: string)
    requires IsWanted(wanted) && Renamed(name, wanted).Some? && FindStamp(name).value.width == 6
    ensures SixDigitsCanBeLate(AsDate(wanted).value)
  {
    hide AsDate, Renamed, Ordinal, FindStamp, Token;
    RenamedIsLate(name, wanted);
    var token := Token(name, FindStamp(name).value.at, 6);
    ShortStampYear(token);
    LateStampMonth(AsDate(wanted).value, AsDate(token).value);
  }

  /** A misplaced rewrite that puts an eight-digit day into the name. */
  lemma NewDaySettles(name: string, wanted: string)
    requires IsWanted(wanted) && Renamed(name, wanted).Some? && FindStamp(name).value.width == 6
    requires FirstDated(Renamed(name, wanted).value, 8, 0).Some?
    ensures LandsInADay(name, wanted) && Renamed(Renamed(name, wanted).value, wanted).None?
  {
    var sent, k := Renamed(name, wanted).value, Landing(name);
    OnlyTheTokenChanges(name, wanted);
    WantedYear(name, wanted);
    EightFirst(name);
    EightFirst(sent);
    hide AsDate, Ordinal, FirstDated, FindStamp, Renamed, Landing, FirstOccurrence, TokenFor, Swapped, Token,
         NumberAfter, IsRun;
    var r := FindStamp(sent).value.at;
    NewDayIsAround(name, sent, wanted, k, r);
    AroundMeans(name, sent, wanted, k, r);
    PartOfNumber(name, wanted, k, r);
    NumberIsNotLate(Token(sent, r, 8), wanted, k - r);
    NotLateNotRenamed(sent, wanted);
  }

  lemma PartOfNumber(name: string, wanted: string, k: nat, r: nat)
    requires |wanted| == 8 && RunAround(name, k, r)
    ensures |NumberAfter(name, wanted, k, r)| == 8 && k - r <= 2
    ensures Token(NumberAfter(name, wanted, k, r), k - r, 6) == TokenFor(wanted, 6)
  {
    hide TokenFor;
  }

  /** Otherwise the late stamp is still the one that is found. */
  lemma OldStampStays(name: string, wanted: string)
    requires IsWanted(wanted) && Renamed(name, wanted).Some? && Landing(name) != FindStamp(name).value.at
    requires FindStamp(name).value.width == 6 ==> FirstDated(Renamed(name, wanted).value, 8, 0).None?
    ensures Renamed(Renamed(name, wanted).value, wanted).Some?
  {
    var st, sent, k := FindStamp(name).value, Renamed(name, wanted).value, Landing(name);
    OnlyTheTokenChanges(name, wanted);
    StampIsReplacedIff(name, wanted);
    EightFirst(name);
    IsDatedRun(name, st.at, st.width);
    RenamedIsLate(name, wanted);
    hide AsDate, Ordinal, FirstDated, FindStamp, Renamed, FirstOccurrence, Landing, TokenFor, Token, Swapped, Dated,
         IsRun;
    StampStands(name, sent, k, st.at, st.width);
    EightFirst(sent);
    NotLateNotRenamed(sent, wanted);
  }

  lemma DayIsFound(name: string, wanted: string)
    requires IsWanted(wanted) && Renamed(name, wanted).Some? && LandsInADay(name, wanted)
    ensures FindStamp(name).value.width == 6 && FirstDated(Renamed(name, wanted).value, 8, 0).Some?
  {
    var sent, k := Renamed(name, wanted).value, Landing(name);
    OnlyTheTokenChanges(name, wanted);
    hide AsDate, Ordinal, FindStamp, Renamed, Landing, FirstOccurrence, TokenFor, Token, NumberAfter;
    var r: nat :| r <= k && RunAround(name, k, r) && AsDate(NumberAfter(name, wanted, k, r)).Some?;
    AroundMeans(name, sent, wanted, k, r);
    RunsStay(name, sent, k, 6, r, 8);
    assert Dated(sent, 8, r);
  }

  /** Exactly when a rewritten name is left alone the next time: the checked stamp is the
      one replaced, or six digits land in an eight-digit number that then reads as a day.
      In every other case the late stamp still stands and the name is rewritten again. */
  lemma SettlesIff(name: string, wanted: string)
    requires IsWanted(wanted) && Renamed(name, wanted).Some?
    ensures Renamed(Renamed(name, wanted).value, wanted).None? <==>
              Landing(name) == FindStamp(name).value.at || LandsInADay(name, wanted)
  {
    hide AsDate, Ordinal, FirstDated, FindStamp, Renamed, Landing, LandsInADay;
    var sent := Renamed(name, wanted).value;
    if LandsInADay(name, wanted) {
      DayIsFound(name, wanted);
    }
    if Landing(name) == FindStamp(name).value.at {
      RewriteIsIdempotent(name, wanted);
    } else if FindStamp(name).value.width == 6 && FirstDated(sent, 8, 0).Some? {
      NewDaySettles(name, wanted);
    } else {
      OldStampStays(name, wanted);
    }
  }

  /** A token read digit by digit. */
  function Reading(token: string): Date
    requires AllDigits(token) && |token| in {6, 8}
  {
    var year := if |token| == 8
      then 1000 * DigitValue(token[4]) + 100 * DigitValue(token[5]) + 10 * DigitValue(token[6]) + DigitValue(token[7])
      else 2000 + 10 * DigitValue(token[4]) + DigitValue(token[5]);
    Date(year, 10 * DigitValue(token[2]) + DigitValue(token[3]), 10 * DigitValue(token[0]) + DigitValue(token[1]))
  }

  lemma ReadToken(token: string)
    requires AllDigits(token) && |token| in {6, 8}
    ensures AsDate(token) == if IsDate(Reading(token)) then Some(Reading(token)) else None
  {
    hide IsDate, DecValue;
    TwoDigits(token[0..2]);
    TwoDigits(token[2..4]);
    if |token| == 8 {
      FourDigits(token[4..8]);
      TwoDigits(token[4..8][..2]);
      TwoDigits(token[4..8][2..]);
    } else {
      TwoDigits(token[4..6]);
    }
  }

  lemma RenamedAt(name: string, wanted: string, st: Stamp, k: nat)
    requires IsWanted(wanted) && FindStamp(name) == Some(st)
    requires Token(name, st.at, st.width) != TokenFor(wanted, st.width)
    requires 0 < Ordinal(AsDate(Token(name, st.at, st.width)).value) - Ordinal(AsDate(wanted).value)
               <= MAX_LATE_STAMP_DAYS
    requires FirstOccurrence(name, Token(name, st.at, st.width), 0) == k < |name|
    ensures Landing(name) == k
    ensures Renamed(name, wanted) == Some(name[..k] + TokenFor(wanted, st.width) + name[k + st.width..])
  {
    hide FirstOccurrence, FirstDated, AsDate, Ordinal, TokenFor, OccursAt, AllDigits, Token;
  }

  /** A name on which that happens: the stamp's digits also end a nine-digit number, which
      is what gets rewritten. */
  lemma MisplacedRewrite()
    ensures var name := "115082026_15082026";
            && IsWanted("14082026") && FindStamp(name) == Some(Stamp(10, 8)) && Landing(name) == 1
            && Renamed(name, "14082026") == Some("114082026_15082026")
  {
    hide AsDate, Ordinal, Renamed, Landing, FindStamp, FirstDated, FirstOccurrence, YearStart, MonthStart, IsRun,
         OccursAt;
    MisplacedTokens();
    DayAfter(Date(2026, 8, 14));
    NumberIsRewritten('1', "15082026", "14082026");
    assert ['1'] + "15082026" + ['_'] + "15082026" == "115082026_15082026";
    assert ['1'] + "14082026" + ['_'] + "15082026" == "114082026_15082026";
  }

  lemma NumberIsRewritten(c: char, token: string, wanted: string)
    requires IsDigit(c) && |token| == 8 && AsDate(token).Some? && token[0] == c && token[1] != c
    requires IsWanted(wanted) && wanted != token
    requires 0 < Ordinal(AsDate(token).value) - Ordinal(AsDate(wanted).value) <= MAX_LATE_STAMP_DAYS
    ensures var name := [c] + token + ['_'] + token;
            && FindStamp(name) == Some(Stamp(10, 8)) && Landing(name) == 1
            && Renamed(name, wanted) == Some([c] + wanted + ['_'] + token)
  {
    hide FirstDated, FirstOccurrence, AsDate, Ordinal, Renamed, Landing, Token;
    var name := [c] + token + ['_'] + token;
    StampAfterNumber(c, token);
    RenamedAt(name, wanted, Stamp(10, 8), 1);
    assert name[..1] + wanted + name[9..] == [c] + wanted + ['_'] + token;
  }

  /** A dated token, with a copy of it one digit into a longer number before it. */
  lemma StampAfterNumber(c: char, token: string)
    requires IsDigit(c) && |token| == 8 && AsDate(token).Some? && token[0] == c && token[1] != c
    ensures var name := [c] + token + ['_'] + token;
            FirstDated(name, 8, 0) == Some(10) && Token(name, 10, 8) == token && FirstOccurrence(name, token, 0) == 1
  {
    hide AsDate;
    var name := [c] + token + ['_'] + token;
    assert Token(name, 10, 8) == token && name[1..9] == token;
    assert !IsDigit(name[9]) && IsDigit(name[0]) && IsDigit(name[8]);
    forall i | 10 <= i < 18 ensures IsDigit(name[i]) {
      assert name[i] == token[i - 10];
    }
    assert Dated(name, 8, 10);
    forall j: nat | j < 10 ensures !Dated(name, 8, j) {
      assert 1 < j ==> !IsRun(name, j, 8);
    }
    assert OccursAt(token, name, 1);
    assert name[0..8][1] == token[0];
  }

  lemma MisplacedTokens()
    ensures AsDate("14082026") == Some(Date(2026, 8, 14)) && AsDate("15082026") == Some(Date(2026, 8, 15))
  {
    hide AsDate, DecValue;
    ReadToken("14082026");
    ReadToken("15082026");
  }

  lemma DayAfter(d: Date)
    ensures Ordinal(Date(d.year, d.month, d.day + 1)) == Ordinal(d) + 1
  {
  }

  /** A six-digit stamp cannot say 1999: the rewrite names a day a century on. */
  lemma CenturyRewrite()
    ensures IsWanted("31121999") && AsDate("31121999") == Some(Date(1999, 12, 31))
    ensures Renamed("010100", "31121999") == Some("311299") && AsDate("311299") == Some(Date(2099, 12, 31))
  {
    hide YearStart, MonthStart, AsDate, Ordinal, DecValue, FirstDated, FirstOccurrence, AllDigits, IsRun;
    CenturyTokens();
    NewYear(1999);
    CenturyStamp("010100");
    assert TokenFor("31121999", 6) == "311299";
    ReplaceWhole("010100", "311299");
  }

  lemma ReplaceWhole(part: string, text: string)
    requires part != ""
    ensures ReplaceFirst(part, part, text) == text
  {
  }

  lemma CenturyTokens()
    ensures AsDate("31121999") == Some(Date(1999, 12, 31)) && AsDate("010100") == Some(Date(2000, 1, 1))
    ensures AsDate("311299") == Some(Date(2099, 12, 31))
  {
    hide AsDate, DecValue;
    ReadToken("31121999");
    ReadToken("010100");
    ReadToken("311299");
  }

  lemma CenturyStamp(name: string)
    requires name == "010100" && AsDate(name).Some?
    ensures FindStamp(name) == Some(Stamp(0, 6)) && Token(name, 0, 6) == name
  {
    assert Token(name, 0, 6) == name;
    assert Dated(name, 6, 0);
    assert FirstDated(name, 8, 0).None?;
  }

  lemma NewYear(y: nat)
    requires y >= 1
    ensures Ordinal(Date(y + 1, 1, 1)) == Ordinal(Date(y, 12, 31)) + 1
  {
    MonthStarts(y);
  }

  /** Six digits replaced inside a longer number can turn that number into an eight-digit
      stamp of its own, so a misplaced six-digit rewrite may also settle. */
  lemma MisplacedYetSettled()
    ensures var name, sent := "30020826_020826", "30010826_020826";
            && IsWanted("01082026") && FindStamp(name) == Some(Stamp(9, 6)) && Landing(name) == 2
            && LandsInADay(name, "01082026")
            && Renamed(name, "01082026") == Some(sent) && Renamed(sent, "01082026").None?
  {
    hide YearStart, MonthStart, AsDate, Ordinal, DecValue, FirstDated, FirstOccurrence, AllDigits, IsRun, OccursAt;
    var name, sent := "30020826_020826", "30010826_020826";
    SettledTokens();
    DayAfter(Date(2026, 8, 1));
    LongAgo(Date(826, 1, 30), Date(2026, 8, 1));
    SettledStamps(name, sent);
    SettledLanding(name);
    assert TokenFor("01082026", 6) == "010826";
    assert name[..2] + "010826" + name[8..] == sent;
    hide Renamed, FindStamp, Landing, LandsInADay;
    SettlesIff(name, "01082026");
  }

  lemma SettledTokens()
    ensures AsDate("30020826").None? && AsDate("020826") == Some(Date(2026, 8, 2))
    ensures AsDate("01082026") == Some(Date(2026, 8, 1))
    ensures AsDate("30010826") == Some(Date(826, 1, 30))
  {
    hide AsDate, DecValue;
    ReadToken("30020826");
    ReadToken("020826");
    ReadToken("01082026");
    ReadToken("30010826");
  }

  lemma LongAgo(a: Date, b: Date)
    requires IsDate(a) && IsDate(b) && a.year < b.year
    ensures Ordinal(a) < Ordinal(b)
  {
    WithinYear(a);
    WithinYear(b);
    StartsAhead(a.year, b.year);
  }

  lemma SettledStamps(name: string, sent: string)
    requires name == "30020826_020826" && sent == "30010826_020826"
    requires AsDate("30020826").None? && AsDate("020826").Some? && AsDate("30010826").Some?
    ensures FirstDated(name, 8, 0).None? && FirstDated(name, 6, 0) == Some(9) && Token(name, 9, 6) == "020826"
    ensures FirstDated(sent, 8, 0) == Some(0) && Token(sent, 0, 8) == "30010826"
  {
    hide AsDate, AllDigits;
    assert name[0..8] == "30020826" && Token(name, 9, 6) == "020826" && Token(sent, 0, 8) == "30010826";
    assert !IsDigit(name[8]);
    forall j: nat ensures !Dated(name, 8, j) {
      assert 0 < j < 8 ==> !IsRun(name, j, 8);
    }
    assert IsDigit(name[0]) && IsDigit(name[1]) && IsDigit(name[6]);
    forall j: nat | j < 9 ensures !Dated(name, 6, j) {
      assert 0 < j < 3 ==> IsDigit(name[j - 1]);
    }
    assert Dated(name, 6, 9) && Dated(sent, 8, 0);
  }

  lemma SettledLanding(name: string)
    requires name == "30020826_020826"
    ensures FirstOccurrence(name, "020826", 0) == 2 && OccursAt("020826", name, 2)
  {
    assert name[2..8] == "020826";
    assert name[0..6][0] != "020826"[0] && name[1..7][1] != "020826"[1];
    assert OccursAt("020826", name, 2) && !OccursAt("020826", name, 0) && !OccursAt("020826", name, 1);
  }
}
