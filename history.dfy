/** The scan-history dashboard (src/pages/History.tsx): mock scan records
    generated for the past 91 days and sorted newest first, the per-month
    and per-severity counts drawn as charts, and the search and threat
    filter over the list.

    Dates are whole day numbers; the month a date falls in is given by a
    function `monthOf`, whose values serve only as keys. Every
    Math.random() draw is an explicit parameter. */
module HistoryPage {
  import opened Draws

  datatype Severity = Low | Suspicious | Critical

  datatype Action = Quarantined | Deleted

  datatype ThreatRecord = ThreatRecord(
    id: string,
    threatType: string,
    filePath: string,
    fileName: string,
    severity: Severity,
    action: Action)

  datatype PastScan = PastScan(
    id: string,
    date: int,
    filesScanned: nat,
    threats: nat,
    duration: nat,
    scanType: string,
    results: seq<ThreatRecord>)

  // ---------------------------------------------------------------------
  // Search and filter
  // ---------------------------------------------------------------------

  /** String.prototype.toLowerCase on the letters A to Z. */
  function ToLower(s: string): (r: string)
    ensures |r| == |s|
    ensures forall i :: 0 <= i < |s| ==> r[i] == (if 'A' <= s[i] <= 'Z' then (s[i] as int + 32) as char else s[i])
  {
    if s == [] then [] else [if 'A' <= s[0] <= 'Z' then (s[0] as int + 32) as char else s[0]] + ToLower(s[1..])
  }

  /** String.prototype.includes: needle occurs in hay at some position. */
  predicate Contains(hay: string, needle: string)
    decreases |hay|
  {
    needle <= hay || (hay != [] && Contains(hay[1..], needle))
  }

  /** The search box: an empty term matches everything; otherwise the term
      must occur, ignoring case, in the scan type or in some result's file
      name or threat type. */
  predicate SearchMatch(scan: PastScan, term: string) {
    var t := ToLower(term);
    || term == ""
    || Contains(ToLower(scan.scanType), t)
    || exists r :: r in scan.results && (Contains(ToLower(r.fileName), t) || Contains(ToLower(r.threatType), t))
  }

  /** Lower-casing twice is lower-casing once. */
  lemma ToLowerIdem(s: string)
    ensures ToLower(ToLower(s)) == ToLower(s)
  {
  }

  /** The search ignores case: two terms that agree once lower-cased match
      the same scans, and in particular a term matches the scans its
      lower-cased form matches. */
  lemma SearchIgnoresCase(scan: PastScan, t1: string, t2: string)
    requires ToLower(t1) == ToLower(t2)
    ensures SearchMatch(scan, t1) <==> SearchMatch(scan, t2)
    ensures SearchMatch(scan, t1) <==> SearchMatch(scan, ToLower(t1))
  {
    ToLowerIdem(t1);
  }

  /** The threat filter: 'all', 'threats' (at least one threat) or 'clean'
      (none); any other value matches nothing. */
  predicate FilterMatch(scan: PastScan, filter: string) {
    || filter == "all"
    || (filter == "threats" && scan.threats > 0)
    || (filter == "clean" && scan.threats == 0)
  }

  /** `a` is `b` with some elements left out, the rest in their order. */
  ghost predicate IsSubsequence<T>(a: seq<T>, b: seq<T>)
    decreases |b|
  {
    || a == []
    || (b != [] && ((a[0] == b[0] && IsSubsequence(a[1..], b[1..])) || IsSubsequence(a, b[1..])))
  }

  /** The scans the list shows: scanHistory.filter(...). */
  function FilteredScans(scans: seq<PastScan>, term: string, filter: string): (r: seq<PastScan>)
    ensures IsSubsequence(r, scans)
    ensures forall s :: s in r <==> s in scans && SearchMatch(s, term) && FilterMatch(s, filter)
    ensures forall s :: multiset(r)[s] == if SearchMatch(s, term) && FilterMatch(s, filter) then multiset(scans)[s] else 0
  {
    if scans == [] then []
    else
      var rest := FilteredScans(scans[1..], term, filter);
      assert forall s :: s in scans <==> s == scans[0] || s in scans[1..];
      assert scans == [scans[0]] + scans[1..];
      if SearchMatch(scans[0], term) && FilterMatch(scans[0], filter) then [scans[0]] + rest else rest
  }

  /** With no search term and the filter on 'all', every scan is shown in
      its original order. */
  lemma {:induction false} FilterShowsAllByDefault(scans: seq<PastScan>)
    ensures FilteredScans(scans, "", "all") == scans
  {
    if scans != [] {
      FilterShowsAllByDefault(scans[1..]);
    }
  }

  /** For a fixed term, 'threats' and 'clean' each pick, in order, exactly
      their part of what 'all' shows, and together they account for all of
      it. */
  lemma {:induction false} ThreatFilterPartitions(scans: seq<PastScan>, term: string)
    ensures FilteredScans(scans, term, "threats") == FilteredScans(FilteredScans(scans, term, "all"), "", "threats")
    ensures FilteredScans(scans, term, "clean") == FilteredScans(FilteredScans(scans, term, "all"), "", "clean")
    ensures |FilteredScans(scans, term, "threats")| + |FilteredScans(scans, term, "clean")|
            == |FilteredScans(scans, term, "all")|
  {
    if scans != [] {
      ThreatFilterPartitions(scans[1..], term);
      var all := FilteredScans(scans, term, "all");
      if SearchMatch(scans[0], term) {
        assert all == [scans[0]] + FilteredScans(scans[1..], term, "all");
        assert all[1..] == FilteredScans(scans[1..], term, "all");
      }
    }
  }

  // ---------------------------------------------------------------------
  // Newest-first ordering
  // ---------------------------------------------------------------------

  predicate NewestFirst(scans: seq<PastScan>) {
    forall i, j :: 0 <= i < j < |scans| ==> scans[i].date >= scans[j].date
  }

  predicate StrictlyNewestFirst(scans: seq<PastScan>) {
    forall i, j :: 0 <= i < j < |scans| ==> scans[i].date > scans[j].date
  }

  predicate StrictlyOldestFirst(scans: seq<PastScan>) {
    forall i, j :: 0 <= i < j < |scans| ==> scans[i].date < scans[j].date
  }

  function InsertByDate(x: PastScan, s: seq<PastScan>): (r: seq<PastScan>)
    requires NewestFirst(s)
    ensures NewestFirst(r)
    ensures multiset(r) == multiset(s) + multiset{x}
  {
    if s == [] || x.date >= s[0].date then
      assert forall j :: 0 <= j < |s| ==> s[0].date >= s[j].date;
      [x] + s
    else
      var rest := InsertByDate(x, s[1..]);
      assert s == [s[0]] + s[1..];
      HeadDominates(s[0], x, s[1..], rest);
      [s[0]] + rest
  }

  /** A scan dated no earlier than everything in a newest-first list may go
      in front of it. */
  lemma HeadDominates(h: PastScan, x: PastScan, tail: seq<PastScan>, rest: seq<PastScan>)
    requires NewestFirst(rest) && NewestFirst([h] + tail)
    requires multiset(rest) == multiset(tail) + multiset{x}
    requires x.date < h.date
    ensures NewestFirst([h] + rest)
  {
    forall y | y in rest
      ensures y.date <= h.date
    {
      assert y in multiset(rest);
      if y != x {
        assert y in multiset(tail);
        var j :| 0 <= j < |tail| && tail[j] == y;
        assert ([h] + tail)[0] == h && ([h] + tail)[j + 1] == y;
      }
    }
    var r := [h] + rest;
    forall i, j | 0 <= i < j < |r|
      ensures r[i].date >= r[j].date
    {
      if i == 0 {
        assert r[j] == rest[j - 1];
        assert r[j] in rest;
      } else {
        assert r[i] == rest[i - 1] && r[j] == rest[j - 1];
      }
    }
  }

  /** scans.sort((a, b) => b.date - a.date): a newest-first permutation. */
  function SortNewestFirst(s: seq<PastScan>): (r: seq<PastScan>)
    ensures NewestFirst(r)
    ensures multiset(r) == multiset(s)
  {
    if s == [] then []
    else
      assert s == [s[0]] + s[1..];
      InsertByDate(s[0], SortNewestFirst(s[1..]))
  }

  function Reverse<T>(s: seq<T>): (r: seq<T>)
    ensures |r| == |s|
    ensures forall i :: 0 <= i < |s| ==> r[i] == s[|s| - 1 - i]
  {
    if s == [] then [] else Reverse(s[1..]) + [s[0]]
  }

  /** A scan older than everything in a newest-first list goes last. */
  lemma {:induction false} InsertOldest(x: PastScan, s: seq<PastScan>)
    requires NewestFirst(s)
    requires forall y :: y in s ==> y.date > x.date
    ensures InsertByDate(x, s) == s + [x]
  {
    if s != [] {
      InsertOldest(x, s[1..]);
    }
  }

  /** Sorting a list whose dates strictly increase reverses it. */
  lemma {:induction false} SortOfOldestFirst(s: seq<PastScan>)
    requires StrictlyOldestFirst(s)
    ensures SortNewestFirst(s) == Reverse(s)
  {
    if s != [] {
      SortOfOldestFirst(s[1..]);
      var sorted := SortNewestFirst(s[1..]);
      assert forall y :: y in sorted ==> y in multiset(s[1..]);
      InsertOldest(s[0], sorted);
    }
  }

  // ---------------------------------------------------------------------
  // Mock data generation
  // ---------------------------------------------------------------------

  const ThreatTypes: seq<string> := ["Trojan", "Spyware", "Ransomware", "Adware", "Worm"]

  /** The draws made for one threat entry, with the random text (base-36
      fragments) built from further draws. */
  datatype ThreatDraws = ThreatDraws(
    typeDraw: real,
    pathDraw: real,
    nameExtDraw: real,
    severityDraw1: real,
    severityDraw2: real,
    actionDraw: real,
    pathSuffix: string,
    nameSuffix: string,
    id: string)

  /** The draws made for one day. */
  datatype DayDraws = DayDraws(
    skipDraw: real,
    threatDraw1: real,
    threatDraw2: real,
    filesDraw: real,
    threatEntries: seq<ThreatDraws>,
    id: string,
    durationDraw: real,
    typeDraw1: real,
    typeDraw2: real)

  predicate ValidThreatDraws(t: ThreatDraws) {
    IsDraw(t.typeDraw) && IsDraw(t.pathDraw) && IsDraw(t.nameExtDraw) &&
    IsDraw(t.severityDraw1) && IsDraw(t.severityDraw2) && IsDraw(t.actionDraw)
  }

  /** Enough draws for the up to three threats a day can have. */
  predicate ValidDayDraws(d: DayDraws) {
    && IsDraw(d.skipDraw) && IsDraw(d.threatDraw1) && IsDraw(d.threatDraw2)
    && IsDraw(d.filesDraw) && IsDraw(d.durationDraw) && IsDraw(d.typeDraw1) && IsDraw(d.typeDraw2)
    && |d.threatEntries| >= 3
    && forall k :: 0 <= k < |d.threatEntries| ==> ValidThreatDraws(d.threatEntries[k])
  }

  function MakeThreat(t: ThreatDraws): (r: ThreatRecord)
    requires ValidThreatDraws(t)
    ensures r.threatType in ThreatTypes
    ensures r.severity == Critical <==> t.severityDraw1 > 0.7
    ensures r.action == Quarantined <==> t.actionDraw > 0.3
  {
    ThreatRecord(
      t.id,
      ThreatTypes[(t.typeDraw * 5.0).Floor],
      "/system/" + (if t.pathDraw > 0.5 then "program files" else "users") + "/" + t.pathSuffix,
      "file_" + t.nameSuffix + "." + (if t.nameExtDraw > 0.5 then "exe" else "dll"),
      if t.severityDraw1 > 0.7 then Critical else if t.severityDraw2 > 0.5 then Suspicious else Low,
      if t.actionDraw > 0.3 then Quarantined else Deleted)
  }

  /** What every generated scan satisfies: at most three threats, one
      result entry per threat, 100 to 399 files and 30 to 149 seconds. */
  predicate WellShaped(s: PastScan) {
    && s.threats <= 3
    && |s.results| == s.threats
    && 100 <= s.filesScanned <= 399
    && 30 <= s.duration <= 149
  }

  /** The scan a day's draws make: up to three threats when the first
      threat draw exceeds 0.7, one result per threat built from that
      threat's draws, and the day's date. */
  function DayScan(d: DayDraws, date: int): (s: PastScan)
    requires ValidDayDraws(d)
    ensures WellShaped(s) && s.date == date && s.id == d.id
    ensures s.threats > 0 <==> d.threatDraw1 > 0.7
    ensures forall k :: 0 <= k < |s.results| ==> s.results[k] == MakeThreat(d.threatEntries[k])
  {
    var threats: nat := if d.threatDraw1 > 0.7 then (d.threatDraw2 * 3.0).Floor + 1 else 0;
    PastScan(
      d.id, date, (d.filesDraw * 300.0).Floor + 100, threats, (d.durationDraw * 120.0).Floor + 30,
      if d.typeDraw1 > 0.7 then "Full System" else if d.typeDraw2 > 0.5 then "Quick Scan" else "Custom Scan",
      seq(threats, k requires 0 <= k < threats => MakeThreat(d.threatEntries[k])))
  }

  /** The body of the day loop: the inner loop pushes one result per
      threat. */
  method GenerateDay(d: DayDraws, date: int) returns (scan: PastScan)
    requires ValidDayDraws(d)
    ensures scan == DayScan(d, date)
  {
    var threats: nat := if d.threatDraw1 > 0.7 then (d.threatDraw2 * 3.0).Floor + 1 else 0;
    var filesScanned: nat := (d.filesDraw * 300.0).Floor + 100;
    var scanResults: seq<ThreatRecord> := [];
    var j := 0;
    while j < threats
      invariant 0 <= j <= threats
      invariant |scanResults| == j
      invariant forall k :: 0 <= k < j ==> scanResults[k] == MakeThreat(d.threatEntries[k])
    {
      scanResults := scanResults + [MakeThreat(d.threatEntries[j])];
      j := j + 1;
    }
    var scanType := if d.typeDraw1 > 0.7 then "Full System" else if d.typeDraw2 > 0.5 then "Quick Scan" else "Custom Scan";
    scan := PastScan(d.id, date, filesScanned, threats, (d.durationDraw * 120.0).Floor + 30, scanType, scanResults);
  }

  /** Appending a scan newer than every scan of an oldest-first list keeps
      it oldest first, and adds exactly that scan. */
  lemma PushNewer(pushed: seq<PastScan>, scan: PastScan)
    requires StrictlyOldestFirst(pushed)
    requires forall s :: s in pushed ==> s.date < scan.date
    ensures StrictlyOldestFirst(pushed + [scan])
    ensures forall s :: s in pushed + [scan] <==> s in pushed || s == scan
  {
    var r := pushed + [scan];
    forall i, j | 0 <= i < j < |r|
      ensures r[i].date < r[j].date
    {
      assert r[i] in pushed;
    }
  }

  /** Day k of the 91 (0 the oldest) has a scan exactly when its skip draw
      is at most 0.3, and that scan is the one its draws make. */
  ghost predicate FromDays(scans: seq<PastScan>, today: int, days: seq<DayDraws>, n: nat)
    requires n <= |days| && forall k :: 0 <= k < |days| ==> ValidDayDraws(days[k])
  {
    && (forall s :: s in scans ==>
          today - 90 <= s.date < today - 90 + n && s == DayScan(days[s.date - (today - 90)], s.date))
    && (forall k :: 0 <= k < n ==>
          (days[k].skipDraw <= 0.3 <==> exists s :: s in scans && s.date == today - 90 + k))
  }

  /** A skipped day keeps FromDays. */
  lemma FromDaysSkip(pushed: seq<PastScan>, today: int, days: seq<DayDraws>, n: nat)
    requires n < |days| && forall k :: 0 <= k < |days| ==> ValidDayDraws(days[k])
    requires FromDays(pushed, today, days, n)
    requires days[n].skipDraw > 0.3
    ensures FromDays(pushed, today, days, n + 1)
  {
    forall k | 0 <= k < n + 1
      ensures days[k].skipDraw <= 0.3 <==> exists s :: s in pushed && s.date == today - 90 + k
    {
      if k == n {
        assert !exists s :: s in pushed && s.date == today - 90 + k;
      }
    }
  }

  /** A recorded day keeps FromDays once its scan is appended. */
  lemma FromDaysPush(pushed: seq<PastScan>, today: int, days: seq<DayDraws>, n: nat)
    requires n < |days| && forall k :: 0 <= k < |days| ==> ValidDayDraws(days[k])
    requires FromDays(pushed, today, days, n)
    requires days[n].skipDraw <= 0.3
    ensures FromDays(pushed + [DayScan(days[n], today - 90 + n)], today, days, n + 1)
  {
    PushKeepsDayScans(pushed, today, days, n);
    PushKeepsCoverage(pushed, today, days, n);
  }

  /** The first half of FromDaysPush: every scan is its day's scan. */
  lemma PushKeepsDayScans(pushed: seq<PastScan>, today: int, days: seq<DayDraws>, n: nat)
    requires n < |days| && forall k :: 0 <= k < |days| ==> ValidDayDraws(days[k])
    requires FromDays(pushed, today, days, n)
    ensures var r := pushed + [DayScan(days[n], today - 90 + n)];
      forall s :: s in r ==>
        today - 90 <= s.date < today - 90 + n + 1 && s == DayScan(days[s.date - (today - 90)], s.date)
  {
    var scan := DayScan(days[n], today - 90 + n);
    var r := pushed + [scan];
    forall s | s in r
      ensures today - 90 <= s.date < today - 90 + n + 1
      ensures s == DayScan(days[s.date - (today - 90)], s.date)
    {
      if s == scan {
        assert s.date - (today - 90) == n;
      } else {
        assert s in pushed;
      }
    }
  }

  /** The second half of FromDaysPush: each day has a scan exactly when it
      was recorded. */
  lemma PushKeepsCoverage(pushed: seq<PastScan>, today: int, days: seq<DayDraws>, n: nat)
    requires n < |days| && forall k :: 0 <= k < |days| ==> ValidDayDraws(days[k])
    requires FromDays(pushed, today, days, n)
    requires days[n].skipDraw <= 0.3
    ensures var r := pushed + [DayScan(days[n], today - 90 + n)];
      forall k :: 0 <= k < n + 1 ==>
        (days[k].skipDraw <= 0.3 <==> exists s :: s in r && s.date == today - 90 + k)
  {
    var scan := DayScan(days[n], today - 90 + n);
    var r := pushed + [scan];
    forall k | 0 <= k < n + 1
      ensures days[k].skipDraw <= 0.3 <==> exists s :: s in r && s.date == today - 90 + k
    {
      if k == n {
        assert r[|r| - 1] == scan;
      } else if days[k].skipDraw <= 0.3 {
        var s :| s in pushed && s.date == today - 90 + k;
        assert s in r;
      }
    }
  }

  /** Processing day n - 1 keeps the list oldest first and FromDays. */
  lemma DayStep(pushed: seq<PastScan>, today: int, days: seq<DayDraws>, n: nat)
    requires 0 < n <= |days| && forall k :: 0 <= k < |days| ==> ValidDayDraws(days[k])
    requires |pushed| <= n - 1 && StrictlyOldestFirst(pushed)
    requires FromDays(pushed, today, days, n - 1)
    ensures days[n - 1].skipDraw > 0.3 ==> FromDays(pushed, today, days, n)
    ensures days[n - 1].skipDraw <= 0.3 ==>
      var next := pushed + [DayScan(days[n - 1], today - 90 + (n - 1))];
      |next| <= n && StrictlyOldestFirst(next) && FromDays(next, today, days, n)
  {
    if days[n - 1].skipDraw <= 0.3 {
      PushNewer(pushed, DayScan(days[n - 1], today - 90 + (n - 1)));
      FromDaysPush(pushed, today, days, n - 1);
    } else {
      FromDaysSkip(pushed, today, days, n - 1);
    }
  }

  /** The list the day loop has built after the first n of the days, oldest
      first: each day's scan, for the days whose skip draw is at most 0.3. */
  ghost function Recorded(today: int, days: seq<DayDraws>, n: nat): seq<PastScan>
    requires n <= |days| && forall k :: 0 <= k < |days| ==> ValidDayDraws(days[k])
  {
    if n == 0 then []
    else
      var before := Recorded(today, days, n - 1);
      if days[n - 1].skipDraw <= 0.3 then before + [DayScan(days[n - 1], today - 90 + (n - 1))] else before
  }

  /** The list after n days is oldest first, has at most n scans, and holds
      exactly the recorded days' scans. */
  lemma {:induction false} RecordedFromDays(today: int, days: seq<DayDraws>, n: nat)
    requires n <= |days| && forall k :: 0 <= k < |days| ==> ValidDayDraws(days[k])
    ensures var r := Recorded(today, days, n);
      |r| <= n && StrictlyOldestFirst(r) && FromDays(r, today, days, n)
  {
    if n > 0 {
      var before := Recorded(today, days, n - 1);
      RecordedFromDays(today, days, n - 1);
      DayStep(before, today, days, n);
      if days[n - 1].skipDraw <= 0.3 {
        assert Recorded(today, days, n) == before + [DayScan(days[n - 1], today - 90 + (n - 1))];
      } else {
        assert Recorded(today, days, n) == before;
      }
    }
  }

  /** generatePastScans: for each of the last 91 days, oldest first, a scan
      is recorded unless the day's skip draw exceeds 0.3; the list is then
      sorted newest first. */
  method GeneratePastScans(today: int, days: seq<DayDraws>) returns (scans: seq<PastScan>)
    requires |days| == 91
    requires forall k :: 0 <= k < |days| ==> ValidDayDraws(days[k])
    ensures StrictlyNewestFirst(scans)
    ensures |scans| <= 91
    ensures forall s :: s in scans ==> WellShaped(s) && today - 90 <= s.date <= today
    ensures forall s :: s in scans ==>
      today - 90 <= s.date <= today && s == DayScan(days[s.date - (today - 90)], s.date)
    ensures forall k :: 0 <= k < 91 ==>
      (days[k].skipDraw <= 0.3 <==> exists s :: s in scans && s.date == today - 90 + k)
  {
    var pushed: seq<PastScan> := [];
    var i := 90;
    while i >= 0
      invariant -1 <= i <= 90
      invariant pushed == Recorded(today, days, 90 - i)
    {
      var d := days[90 - i];
      if d.skipDraw <= 0.3 {
        var scan := GenerateDay(d, today - i);
        pushed := pushed + [scan];
      }
      i := i - 1;
    }
    RecordedFromDays(today, days, 91);
    scans := SortNewestFirst(pushed);
    SortedFromAllDays(pushed, today, days);
  }

  /** Sorting the oldest-first list of all 91 days newest first gives the
      list generatePastScans returns. */
  lemma SortedFromAllDays(pushed: seq<PastScan>, today: int, days: seq<DayDraws>)
    requires |days| == 91 && forall k :: 0 <= k < |days| ==> ValidDayDraws(days[k])
    requires |pushed| <= 91 && StrictlyOldestFirst(pushed)
    requires FromDays(pushed, today, days, 91)
    ensures var scans := SortNewestFirst(pushed);
      && StrictlyNewestFirst(scans)
      && |scans| <= 91
      && (forall s :: s in scans ==> WellShaped(s) && today - 90 <= s.date <= today)
      && (forall s :: s in scans ==>
            today - 90 <= s.date <= today && s == DayScan(days[s.date - (today - 90)], s.date))
      && (forall k :: 0 <= k < 91 ==>
            (days[k].skipDraw <= 0.3 <==> exists s :: s in scans && s.date == today - 90 + k))
  {
    SortOfOldestFirst(pushed);
    var scans := SortNewestFirst(pushed);
    SameMembers(pushed, scans);
    FromDaysSameMembers(pushed, scans, today, days);
    FromAllDays(scans, today, days);
  }

  /** FromDays speaks of membership only, so any list with the same members
      satisfies it too. */
  lemma FromDaysSameMembers(a: seq<PastScan>, b: seq<PastScan>, today: int, days: seq<DayDraws>)
    requires |days| == 91 && forall k :: 0 <= k < |days| ==> ValidDayDraws(days[k])
    requires forall s :: s in a <==> s in b
    requires FromDays(a, today, days, 91)
    ensures FromDays(b, today, days, 91)
  {
    forall k | 0 <= k < 91
      ensures days[k].skipDraw <= 0.3 <==> exists s :: s in b && s.date == today - 90 + k
    {
      if days[k].skipDraw <= 0.3 {
        var s :| s in a && s.date == today - 90 + k;
        assert s in b;
      }
    }
  }

  /** All 91 days processed: every scan is well shaped and dated within the
      last 91 days, is the scan its day's draws make, and a day has a scan
      exactly when its skip draw is at most 0.3. */
  lemma FromAllDays(scans: seq<PastScan>, today: int, days: seq<DayDraws>)
    requires |days| == 91 && forall k :: 0 <= k < |days| ==> ValidDayDraws(days[k])
    requires FromDays(scans, today, days, 91)
    ensures forall s :: s in scans ==> WellShaped(s) && today - 90 <= s.date <= today
    ensures forall s :: s in scans ==>
      today - 90 <= s.date <= today && s == DayScan(days[s.date - (today - 90)], s.date)
    ensures forall k :: 0 <= k < 91 ==>
      (days[k].skipDraw <= 0.3 <==> exists s :: s in scans && s.date == today - 90 + k)
  {
    forall s | s in scans
      ensures WellShaped(s)
    {
      assert s == DayScan(days[s.date - (today - 90)], s.date);
    }
  }

  /** Two lists with the same multiset have the same members. */
  lemma SameMembers(a: seq<PastScan>, b: seq<PastScan>)
    requires multiset(a) == multiset(b)
    ensures forall s :: s in a <==> s in b
  {
    assert forall s :: s in a <==> s in multiset(a);
    assert forall s :: s in b <==> s in multiset(b);
  }

  // ---------------------------------------------------------------------
  // Chart reductions
  // ---------------------------------------------------------------------

  /** One bar of the monthly chart. */
  datatype MonthStats = MonthStats(name: string, scans: nat, threats: nat)

  function SumScans(chart: seq<MonthStats>): nat
    decreases |chart|
  {
    if chart == [] then 0 else SumScans(chart[..|chart| - 1]) + chart[|chart| - 1].scans
  }

  function SumThreats(chart: seq<MonthStats>): nat
    decreases |chart|
  {
    if chart == [] then 0 else SumThreats(chart[..|chart| - 1]) + chart[|chart| - 1].threats
  }

  function TotalThreats(scans: seq<PastScan>): nat
    decreases |scans|
  {
    if scans == [] then 0 else TotalThreats(scans[..|scans| - 1]) + scans[|scans| - 1].threats
  }

  /** The number of scans that fall in the given month. */
  function ScansInMonth(scans: seq<PastScan>, monthOf: int -> string, month: string): nat
    decreases |scans|
  {
    if scans == [] then 0
    else ScansInMonth(scans[..|scans| - 1], monthOf, month) + (if monthOf(scans[|scans| - 1].date) == month then 1 else 0)
  }

  /** The threats of the scans that fall in the given month. */
  function ThreatsInMonth(scans: seq<PastScan>, monthOf: int -> string, month: string): nat
    decreases |scans|
  {
    if scans == [] then 0
    else ThreatsInMonth(scans[..|scans| - 1], monthOf, month) + (if monthOf(scans[|scans| - 1].date) == month then scans[|scans| - 1].threats else 0)
  }

  /** Replacing one bar changes the totals by the difference. */
  lemma {:induction false} SumsAfterUpdate(chart: seq<MonthStats>, k: nat, e: MonthStats)
    requires k < |chart|
    ensures SumScans(chart[k := e]) == SumScans(chart) - chart[k].scans + e.scans
    ensures SumThreats(chart[k := e]) == SumThreats(chart) - chart[k].threats + e.threats
    decreases |chart|
  {
    var n := |chart|;
    var c := chart[k := e];
    if k < n - 1 {
      assert c[..n - 1] == chart[..n - 1][k := e];
      SumsAfterUpdate(chart[..n - 1], k, e);
    } else {
      assert c[..n - 1] == chart[..n - 1];
    }
  }

  predicate DistinctNames(chart: seq<MonthStats>) {
    forall i, j :: 0 <= i < j < |chart| ==> chart[i].name != chart[j].name
  }

  /** Where a month's bar is (acc[month]), or |chart| when it has none. */
  function IndexOfMonth(chart: seq<MonthStats>, month: string): (k: nat)
    ensures k <= |chart|
    ensures k < |chart| ==> chart[k].name == month
    ensures k == |chart| ==> forall i :: 0 <= i < |chart| ==> chart[i].name != month
    decreases |chart|
  {
    if chart == [] then 0
    else if chart[|chart| - 1].name == month then |chart| - 1
    else
      var k := IndexOfMonth(chart[..|chart| - 1], month);
      if k == |chart| - 1 then |chart| else k
  }

  /** The bar of a month, or an empty bar when it has none. */
  function BarOf(chart: seq<MonthStats>, month: string): MonthStats {
    var k := IndexOfMonth(chart, month);
    if k < |chart| then chart[k] else MonthStats(month, 0, 0)
  }

  /** One step of the reduce callback: create the month's bar if missing,
      then count the scan and its threats in it. */
  function AddScan(chart: seq<MonthStats>, month: string, threats: nat): seq<MonthStats> {
    var k := IndexOfMonth(chart, month);
    var c := if k == |chart| then chart + [MonthStats(month, 0, 0)] else chart;
    c[k := MonthStats(month, c[k].scans + 1, c[k].threats + threats)]
  }

  /** monthlyData as a left fold of AddScan over the scans. */
  function MonthlyChart(scans: seq<PastScan>, monthOf: int -> string): seq<MonthStats>
    decreases |scans|
  {
    if scans == [] then []
    else
      var last := scans[|scans| - 1];
      AddScan(MonthlyChart(scans[..|scans| - 1], monthOf), monthOf(last.date), last.threats)
  }

  /** Among distinct names, the lookup finds the one bar with the name. */
  lemma IndexOfDistinct(chart: seq<MonthStats>, k: nat)
    requires DistinctNames(chart) && k < |chart|
    ensures IndexOfMonth(chart, chart[k].name) == k
  {
  }

  /** AddScan keeps the names distinct and adds one scan and the scan's
      threats to the totals. */
  lemma AddScanTotals(chart: seq<MonthStats>, month: string, threats: nat)
    requires DistinctNames(chart)
    ensures DistinctNames(AddScan(chart, month, threats))
    ensures SumScans(AddScan(chart, month, threats)) == SumScans(chart) + 1
    ensures SumThreats(AddScan(chart, month, threats)) == SumThreats(chart) + threats
  {
    var k := IndexOfMonth(chart, month);
    var c := if k == |chart| then chart + [MonthStats(month, 0, 0)] else chart;
    var e := MonthStats(month, c[k].scans + 1, c[k].threats + threats);
    assert AddScan(chart, month, threats) == c[k := e];
    if k == |chart| {
      assert c[..|chart|] == chart;
      assert SumScans(c) == SumScans(chart) && SumThreats(c) == SumThreats(chart);
    }
    SumsAfterUpdate(c, k, e);
    var r := c[k := e];
    forall i, j | 0 <= i < j < |r|
      ensures r[i].name != r[j].name
    {
    }
  }

  /** AddScan counts the scan in its month's bar and leaves every other
      month's bar alone. */
  lemma AddScanBars(chart: seq<MonthStats>, month: string, threats: nat, m: string)
    requires DistinctNames(chart)
    ensures BarOf(AddScan(chart, month, threats), m).scans ==
      BarOf(chart, m).scans + (if m == month then 1 else 0)
    ensures BarOf(AddScan(chart, month, threats), m).threats ==
      BarOf(chart, m).threats + (if m == month then threats else 0)
  {
    AddScanTotals(chart, month, threats);
    var r := AddScan(chart, month, threats);
    var k := IndexOfMonth(chart, month);
    var i := IndexOfMonth(chart, m);
    if m == month {
      IndexOfDistinct(r, k);
    } else if i < |chart| {
      IndexOfDistinct(r, i);
    } else {
      assert forall j :: 0 <= j < |r| ==> r[j].name != m;
    }
  }

  /** The fold's bars: distinct months; each month's bar counts that
      month's scans and threats; the bars add up to all scans and all
      threats. */
  lemma {:induction false} MonthlyChartCounts(scans: seq<PastScan>, monthOf: int -> string)
    ensures DistinctNames(MonthlyChart(scans, monthOf))
    ensures SumScans(MonthlyChart(scans, monthOf)) == |scans|
    ensures SumThreats(MonthlyChart(scans, monthOf)) == TotalThreats(scans)
    ensures forall m :: BarOf(MonthlyChart(scans, monthOf), m).scans == ScansInMonth(scans, monthOf, m)
    ensures forall m :: BarOf(MonthlyChart(scans, monthOf), m).threats == ThreatsInMonth(scans, monthOf, m)
    decreases |scans|
  {
    if scans != [] {
      var last := scans[|scans| - 1];
      var prev := MonthlyChart(scans[..|scans| - 1], monthOf);
      MonthlyChartCounts(scans[..|scans| - 1], monthOf);
      AddScanTotals(prev, monthOf(last.date), last.threats);
      forall m
        ensures BarOf(MonthlyChart(scans, monthOf), m).scans == ScansInMonth(scans, monthOf, m)
        ensures BarOf(MonthlyChart(scans, monthOf), m).threats == ThreatsInMonth(scans, monthOf, m)
      {
        AddScanBars(prev, monthOf(last.date), last.threats, m);
      }
    }
  }

  /** Every scan's month is counted at least once. */
  lemma {:induction false} ScanCountsInItsMonth(scans: seq<PastScan>, monthOf: int -> string, j: nat)
    requires j < |scans|
    ensures ScansInMonth(scans, monthOf, monthOf(scans[j].date)) > 0
    decreases |scans|
  {
    if j < |scans| - 1 {
      ScanCountsInItsMonth(scans[..|scans| - 1], monthOf, j);
    }
  }

  /** Each bar of the chart counts exactly its own month's scans and
      threats, and every scan's month has a bar. */
  lemma MonthlyChartBars(scans: seq<PastScan>, monthOf: int -> string)
    ensures var chart := MonthlyChart(scans, monthOf);
      forall k :: 0 <= k < |chart| ==>
        chart[k].scans == ScansInMonth(scans, monthOf, chart[k].name) &&
        chart[k].threats == ThreatsInMonth(scans, monthOf, chart[k].name)
    ensures forall j :: 0 <= j < |scans| ==>
      IndexOfMonth(MonthlyChart(scans, monthOf), monthOf(scans[j].date)) < |MonthlyChart(scans, monthOf)|
  {
    var chart := MonthlyChart(scans, monthOf);
    MonthlyChartCounts(scans, monthOf);
    forall k | 0 <= k < |chart|
      ensures chart[k].scans == ScansInMonth(scans, monthOf, chart[k].name)
      ensures chart[k].threats == ThreatsInMonth(scans, monthOf, chart[k].name)
    {
      IndexOfDistinct(chart, k);
    }
    forall j | 0 <= j < |scans|
      ensures IndexOfMonth(chart, monthOf(scans[j].date)) < |chart|
    {
      ScanCountsInItsMonth(scans, monthOf, j);
    }
  }

  /** monthlyData: one bar per month, in order of first appearance, counting
      that month's scans and threats; Object.values gives the bars. */
  method MonthlyData(scans: seq<PastScan>, monthOf: int -> string) returns (chart: seq<MonthStats>)
    ensures chart == MonthlyChart(scans, monthOf)
    ensures DistinctNames(chart)
    ensures SumScans(chart) == |scans|
    ensures SumThreats(chart) == TotalThreats(scans)
    ensures forall k :: 0 <= k < |chart| ==>
      chart[k].scans == ScansInMonth(scans, monthOf, chart[k].name) &&
      chart[k].threats == ThreatsInMonth(scans, monthOf, chart[k].name)
    ensures forall j :: 0 <= j < |scans| ==> IndexOfMonth(chart, monthOf(scans[j].date)) < |chart|
  {
    chart := [];
    for i := 0 to |scans|
      invariant chart == MonthlyChart(scans[..i], monthOf)
    {
      assert scans[..i + 1][..i] == scans[..i];
      var month := monthOf(scans[i].date);
      var k := IndexOfMonth(chart, month);
      if k == |chart| {
        chart := chart + [MonthStats(month, 0, 0)];
      }
      chart := chart[k := MonthStats(month, chart[k].scans + 1, chart[k].threats + scans[i].threats)];
    }
    assert scans[..|scans|] == scans;
    MonthlyChartCounts(scans, monthOf);
    MonthlyChartBars(scans, monthOf);
  }

  /** The pie chart's counts, starting from { low: 0, suspicious: 0,
      critical: 0 }. */
  datatype SeverityCounts = SeverityCounts(low: nat, suspicious: nat, critical: nat)

  /** acc[result.severity] += 1 */
  function Bump(acc: SeverityCounts, s: Severity): SeverityCounts {
    match s
    case Low => acc.(low := acc.low + 1)
    case Suspicious => acc.(suspicious := acc.suspicious + 1)
    case Critical => acc.(critical := acc.critical + 1)
  }

  /** The inner forEach: Bump for each result in order. */
  function Tally(acc: SeverityCounts, results: seq<ThreatRecord>): SeverityCounts
    decreases |results|
  {
    if results == [] then acc else Bump(Tally(acc, results[..|results| - 1]), results[|results| - 1].severity)
  }

  /** The outer reduce over the scans. */
  function TallyScans(scans: seq<PastScan>): SeverityCounts
    decreases |scans|
  {
    if scans == [] then SeverityCounts(0, 0, 0)
    else Tally(TallyScans(scans[..|scans| - 1]), scans[|scans| - 1].results)
  }

  function CountIn(results: seq<ThreatRecord>, s: Severity): nat
    decreases |results|
  {
    if results == [] then 0
    else CountIn(results[..|results| - 1], s) + (if results[|results| - 1].severity == s then 1 else 0)
  }

  function CountSeverity(scans: seq<PastScan>, s: Severity): nat
    decreases |scans|
  {
    if scans == [] then 0 else CountSeverity(scans[..|scans| - 1], s) + CountIn(scans[|scans| - 1].results, s)
  }

  function TotalResults(scans: seq<PastScan>): nat
    decreases |scans|
  {
    if scans == [] then 0 else TotalResults(scans[..|scans| - 1]) + |scans[|scans| - 1].results|
  }

  /** Tallying adds each severity's count, and one per result in all. */
  lemma {:induction false} TallyCounts(acc: SeverityCounts, results: seq<ThreatRecord>)
    ensures Tally(acc, results) == SeverityCounts(
      acc.low + CountIn(results, Low),
      acc.suspicious + CountIn(results, Suspicious),
      acc.critical + CountIn(results, Critical))
    ensures CountIn(results, Low) + CountIn(results, Suspicious) + CountIn(results, Critical) == |results|
    decreases |results|
  {
    if results != [] {
      TallyCounts(acc, results[..|results| - 1]);
    }
  }

  /** The pie chart counts each severity over all scans, and the three
      counts add up to the number of result entries. */
  lemma {:induction false} TallyScansCounts(scans: seq<PastScan>)
    ensures TallyScans(scans) == SeverityCounts(
      CountSeverity(scans, Low), CountSeverity(scans, Suspicious), CountSeverity(scans, Critical))
    ensures CountSeverity(scans, Low) + CountSeverity(scans, Suspicious) + CountSeverity(scans, Critical)
            == TotalResults(scans)
    decreases |scans|
  {
    if scans != [] {
      TallyScansCounts(scans[..|scans| - 1]);
      TallyCounts(TallyScans(scans[..|scans| - 1]), scans[|scans| - 1].results);
    }
  }

  /** threatSeverityData: every result entry of every scan is counted under
      its severity. */
  method ThreatSeverityData(scans: seq<PastScan>) returns (acc: SeverityCounts)
    ensures acc == TallyScans(scans)
    ensures acc.low == CountSeverity(scans, Low)
    ensures acc.suspicious == CountSeverity(scans, Suspicious)
    ensures acc.critical == CountSeverity(scans, Critical)
    ensures acc.low + acc.suspicious + acc.critical == TotalResults(scans)
  {
    acc := SeverityCounts(0, 0, 0);
    for i := 0 to |scans|
      invariant acc == TallyScans(scans[..i])
    {
      assert scans[..i + 1][..i] == scans[..i];
      var results := scans[i].results;
      ghost var start := acc;
      for j := 0 to |results|
        invariant acc == Tally(start, results[..j])
      {
        assert results[..j + 1][..j] == results[..j];
        acc := Bump(acc, results[j].severity);
      }
      assert results[..|results|] == results;
    }
    assert scans[..|scans|] == scans;
    TallyScansCounts(scans);
  }
}
