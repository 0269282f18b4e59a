/** The scan page (src/pages/Scanner.tsx): a scan session that is idle,
    scanning, paused or completed, driven by a 200 ms interval timer.

    Progress is counted in half-percent units, so `Complete` (200) stands
    for 100%. Every Math.random() draw a tick makes is an explicit
    parameter, and the page's interval handle is the flag `timerActive`. */
module ScannerPage {
  import opened Draws

  datatype Status = Idle | Scanning | Paused | Completed

  datatype ThreatLevel = Safe | Suspicious | Critical

  datatype ScanKind = FileScan | SystemScan

  /** The interval callback that is installed: the one set up by startScan,
      whose increments depend on the kind of scan, or the one set up by
      resumeScan. */
  datatype TickMode = Started(kind: ScanKind) | Resumed

  datatype ScanResult = ScanResult(
    id: string,
    fileName: string,
    path: string,
    threatLevel: ThreatLevel,
    details: string,
    timestamp: int)

  /** The values one tick draws from Math.random(), and the random text
      (base-36 fragments) built from further draws. */
  datatype TickDraws = TickDraws(
    filesDraw: real,
    detectDraw: real,
    levelDraw1: real,
    levelDraw2: real,
    extDraw: real,
    pathDraw: real,
    id: string,
    nameSuffix: string,
    pathSuffix: string)

  predicate ValidDraws(d: TickDraws) {
    IsDraw(d.filesDraw) && IsDraw(d.detectDraw) && IsDraw(d.levelDraw1) &&
    IsDraw(d.levelDraw2) && IsDraw(d.extDraw) && IsDraw(d.pathDraw)
  }

  /** 100%, in half-percent units. */
  const Complete: nat := 200

  /** Progress added by one tick, in half-percent units: 2% for a file
      scan, 0.5% for a system scan, 1% once a scan has been resumed. */
  function ProgressStep(mode: TickMode): (step: nat)
    ensures step > 0
  {
    match mode
    case Started(FileScan) => 4
    case Started(SystemScan) => 1
    case Resumed => 2
  }

  /** Files counted by one tick, from the draw Math.floor(r * n) + 1. */
  function FilesIncrement(mode: TickMode, r: real): (n: nat)
    requires IsDraw(r)
    ensures mode == Started(FileScan) ==> n == 1
    ensures mode == Started(SystemScan) ==> 1 <= n <= 10
    ensures mode == Resumed ==> 1 <= n <= 5
  {
    match mode
    case Started(FileScan) => 1
    case Started(SystemScan) => (r * 10.0).Floor + 1
    case Resumed => (r * 5.0).Floor + 1
  }

  /** A tick finds a threat when its detection draw exceeds 0.9. */
  predicate Detects(d: TickDraws) {
    d.detectDraw > 0.9
  }

  function LevelOf(draw1: real, draw2: real): (level: ThreatLevel)
    ensures level == Critical <==> draw1 > 0.7
    ensures level == Suspicious <==> draw1 <= 0.7 && draw2 > 0.5
    ensures level == Safe <==> draw1 <= 0.7 && draw2 <= 0.5
  {
    if draw1 > 0.7 then Critical else if draw2 > 0.5 then Suspicious else Safe
  }

  function DetailsOf(level: ThreatLevel): string {
    match level
    case Critical => "Malware detected"
    case Suspicious => "Suspicious behavior"
    case Safe => "Clean file"
  }

  /** The details text names the level it was derived from. */
  lemma DetailsIdentifyLevel(a: ThreatLevel, b: ThreatLevel)
    ensures DetailsOf(a) == DetailsOf(b) <==> a == b
  {
  }

  /** The result a detecting tick synthesises. */
  function NewResult(d: TickDraws, now: int): (r: ScanResult)
    ensures r.threatLevel == Critical <==> d.levelDraw1 > 0.7
    ensures r.threatLevel == Suspicious <==> d.levelDraw1 <= 0.7 && d.levelDraw2 > 0.5
    ensures r.details == DetailsOf(r.threatLevel)
    ensures "file_" <= r.fileName
    ensures "/system/" <= r.path
    ensures r.timestamp == now
  {
    var level := LevelOf(d.levelDraw1, d.levelDraw2);
    ScanResult(
      d.id,
      "file_" + d.nameSuffix + "." + (if d.extDraw > 0.5 then "exe" else "dll"),
      "/system/" + (if d.pathDraw > 0.5 then "program files" else "users") + "/" + d.pathSuffix,
      level,
      DetailsOf(level),
      now)
  }

  /** The progress at which a timer that keeps ticking from `p` with the
      given step stops: the first value reached that is at least 100%. */
  function FinalProgress(p: nat, step: nat): nat
    requires step > 0
    decreases Complete - p
  {
    if p >= Complete then p else FinalProgress(p + step, step)
  }

  /** A running scan stops at 100% or above, but less than one step above:
      progress is never clamped. */
  lemma {:induction false} FinalProgressBounds(p: nat, step: nat)
    requires step > 0 && p < Complete
    ensures Complete <= FinalProgress(p, step) < Complete + step
    decreases Complete - p
  {
    if p + step < Complete {
      FinalProgressBounds(p + step, step);
    }
  }

  /** After a resume, progress grows by 1% a tick, so a scan paused at a
      whole percentage ends at exactly 100%, and a system scan paused at a
      half percentage ends at 100.5%. */
  lemma {:induction false} ResumedScanEnd(p: nat)
    requires p < Complete
    ensures FinalProgress(p, ProgressStep(Resumed)) == if p % 2 == 0 then Complete else Complete + 1
    decreases Complete - p
  {
    if p + 2 < Complete {
      ResumedScanEnd(p + 2);
    }
  }

  /** A fresh file scan takes 50 ticks and a fresh system scan 200, both
      ending at exactly 100%. */
  lemma {:induction false} FreshScanEnd(p: nat, kind: ScanKind)
    requires p < Complete && p % ProgressStep(Started(kind)) == 0
    ensures FinalProgress(p, ProgressStep(Started(kind))) == Complete
    decreases Complete - p
  {
    var step := ProgressStep(Started(kind));
    if p + step < Complete {
      FreshScanEnd(p + step, kind);
    }
  }

  class Scanner {
    var status: Status
    var progress: nat
    var filesScanned: nat
    var threatFound: nat
    var results: seq<ScanResult>
    var timerActive: bool
    var mode: TickMode

    /** The timer runs exactly while scanning; the threat count is the
        number of results; progress is 0 when idle, below 100% while a
        scan is under way and at least 100% once it has completed. */
    ghost predicate Valid()
      reads this
    {
      && threatFound == |results|
      && (timerActive <==> status == Scanning)
      && (status == Idle ==> progress == 0)
      && (status == Scanning || status == Paused ==> progress < Complete)
      && (status == Completed ==> progress >= Complete)
    }

    constructor ()
      ensures Valid()
      ensures status == Idle && progress == 0 && filesScanned == 0
      ensures results == [] && !timerActive
    {
      status := Idle;
      progress := 0;
      filesScanned := 0;
      threatFound := 0;
      results := [];
      timerActive := false;
      mode := Started(FileScan);
    }

    /** startScan: ignored while scanning; otherwise a new scan starts from
        zero with an empty result list. */
    method StartScan(kind: ScanKind)
      requires Valid()
      modifies this
      ensures Valid()
      ensures old(status) == Scanning ==> unchanged(this)
      ensures old(status) != Scanning ==>
        && status == Scanning && timerActive && mode == Started(kind)
        && progress == 0 && filesScanned == 0 && threatFound == 0 && results == []
    {
      if status == Scanning {
        return;
      }
      status := Scanning;
      progress := 0;
      filesScanned := 0;
      threatFound := 0;
      results := [];
      mode := Started(kind);
      timerActive := true;
    }

    /** pauseScan: only from scanning; stops the timer and keeps every
        count. */
    method PauseScan()
      requires Valid()
      modifies this
      ensures Valid()
      ensures old(status) != Scanning ==> unchanged(this)
      ensures old(status) == Scanning ==>
        && status == Paused && !timerActive && mode == old(mode)
        && progress == old(progress) && filesScanned == old(filesScanned)
        && threatFound == old(threatFound) && results == old(results)
    {
      if status != Scanning {
        return;
      }
      timerActive := false;
      status := Paused;
    }

    /** resumeScan: only from paused; continues from the kept counts with
        the resume timer. */
    method ResumeScan()
      requires Valid()
      modifies this
      ensures Valid()
      ensures old(status) != Paused ==> unchanged(this)
      ensures old(status) == Paused ==>
        && status == Scanning && timerActive && mode == Resumed
        && progress == old(progress) && filesScanned == old(filesScanned)
        && threatFound == old(threatFound) && results == old(results)
    {
      if status != Paused {
        return;
      }
      status := Scanning;
      mode := Resumed;
      timerActive := true;
    }

    /** cancelScan: ignored when idle or completed; otherwise back to idle
        at 0%, keeping the results and the file and threat counts. */
    method CancelScan()
      requires Valid()
      modifies this
      ensures Valid()
      ensures old(status) == Idle || old(status) == Completed ==> unchanged(this)
      ensures old(status) == Scanning || old(status) == Paused ==>
        && status == Idle && progress == 0 && !timerActive && mode == old(mode)
        && filesScanned == old(filesScanned) && threatFound == old(threatFound)
        && results == old(results)
    {
      if status == Idle || status == Completed {
        return;
      }
      timerActive := false;
      status := Idle;
      progress := 0;
    }

    /** One run of the installed interval callback. */
    method Tick(d: TickDraws, now: int)
      requires Valid() && timerActive && ValidDraws(d)
      modifies this
      ensures Valid()
      ensures mode == old(mode)
      ensures progress == old(progress) + ProgressStep(mode)
      ensures filesScanned == old(filesScanned) + FilesIncrement(mode, d.filesDraw)
      ensures results == if Detects(d) then [NewResult(d, now)] + old(results) else old(results)
      ensures threatFound == old(threatFound) + (if Detects(d) then 1 else 0)
      ensures status == (if progress >= Complete then Completed else Scanning)
      ensures timerActive <==> progress < Complete
      ensures status == Completed ==> progress < Complete + ProgressStep(mode)
    {
      progress := progress + ProgressStep(mode);
      filesScanned := filesScanned + FilesIncrement(mode, d.filesDraw);
      if Detects(d) {
        threatFound := threatFound + 1;
        results := [NewResult(d, now)] + results;
      }
      if progress >= Complete {
        timerActive := false;
        status := Completed;
      }
    }

    /** The interval timer firing until it clears itself: tick `t` uses the
        draws `draw(t)` and the clock reading `clock(t)`. The scan always
        completes, at the progress FinalProgress predicts. */
    method RunToEnd(draw: nat -> TickDraws, clock: nat -> int) returns (ticks: nat)
      requires Valid() && timerActive
      requires forall t :: ValidDraws(draw(t))
      modifies this
      ensures Valid()
      ensures mode == old(mode)
      ensures status == Completed && !timerActive
      ensures progress == FinalProgress(old(progress), ProgressStep(old(mode)))
      ensures threatFound == |results| && |results| <= |old(results)| + ticks
    {
      ticks := 0;
      while timerActive
        invariant Valid() && mode == old(mode)
        invariant FinalProgress(progress, ProgressStep(mode)) == FinalProgress(old(progress), ProgressStep(mode))
        invariant !timerActive ==> status == Completed
        invariant |results| <= |old(results)| + ticks
        decreases Complete - progress
      {
        Tick(draw(ticks), clock(ticks));
        ticks := ticks + 1;
      }
    }
  }
}
