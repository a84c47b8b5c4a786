/** The webcam framing debouncer: which reads of the camera become proctoring events. */
module Framing {
  import opened Wrappers

  const SUSTAINED_FRAMES: nat := 2

  datatype Code = Framed | Absent | Multiple | OffCentre | TooFar | TooClose

  /** What one detection measured. */
  datatype Verdict = Verdict(code: Code, faceCount: nat)

  datatype Signal = FaceAbsent | MultipleFaces(faceCount: nat) | FaceNotFramed(reason: Code)

  /** The debouncer's four variables. */
  datatype Watch = Watch(reported: Option<Code>, pending: Option<Code>, runs: nat, codeRuns: nat)

  const START: Watch := Watch(None, None, 0, 0)

  predicate SameSide(a: Code, b: Code) { (a == Framed) == (b == Framed) }

  /** The event a newly reported verdict is logged as; being framed again logs nothing. */
  function SignalFor(v: Verdict): Option<Signal> {
    match v.code
    case Framed => None
    case Absent => Some(FaceAbsent)
    case Multiple => Some(MultipleFaces(v.faceCount))
    case _ => Some(FaceNotFramed(v.code))
  }

  /** The two consecutive counts after a read. */
  function Counted(w: Watch, code: Code): Watch {
    w.(pending := Some(code),
       runs := if w.pending.Some? && SameSide(w.pending.value, code) then w.runs + 1 else 1,
       codeRuns := if w.pending == Some(code) then w.codeRuns + 1 else 1)
  }

  /** Whether a counted read becomes the reported verdict. */
  predicate Changes(w: Watch, code: Code) {
    && w.runs >= SUSTAINED_FRAMES
    && (|| w.reported.None?
        || !SameSide(w.reported.value, code)
        || (code in {Absent, Multiple} && w.reported.value != code && w.codeRuns >= SUSTAINED_FRAMES))
  }

  /** One tick: a skipped or failed detection (None) leaves everything as it was. */
  function Step(w: Watch, read: Option<Verdict>): Watch {
    if read.None? then w else
      var counted := Counted(w, read.value.code);
      if Changes(counted, read.value.code) then counted.(reported := Some(read.value.code)) else counted
  }

  function Emitted(w: Watch, read: Option<Verdict>): Option<Signal> {
    if read.Some? && Changes(Counted(w, read.value.code), read.value.code) then SignalFor(read.value) else None
  }

  /** The variables the face-presence effect closes over, updated on every tick. */
  class Debouncer {
    var reported: Option<Code>
    var pending: Option<Code>
    var runs: nat
    var codeRuns: nat

    function Snapshot(): Watch reads this { Watch(reported, pending, runs, codeRuns) }

    constructor ()
      ensures Snapshot() == START
    {
      reported, pending, runs, codeRuns := None, None, 0, 0;
    }

    method Tick(read: Option<Verdict>) returns (signal: Option<Signal>)
      modifies this
      ensures Snapshot() == Step(old(Snapshot()), read)
      ensures signal == Emitted(old(Snapshot()), read)
    {
      if read.None? {
        return None;
      }
      var state := read.value.code;
      runs := if pending.Some? && SameSide(pending.value, state) then runs + 1 else 1;
      codeRuns := if pending == Some(state) then codeRuns + 1 else 1;
      pending := Some(state);
      if runs < SUSTAINED_FRAMES {
        return None;
      }
      var framedChanged := reported.None? || !SameSide(reported.value, state);
      var worsened := (state == Absent || state == Multiple)
                      && reported != Some(state) && codeRuns >= SUSTAINED_FRAMES;
      if !framedChanged && !worsened {
        return None;
      }
      reported := Some(state);
      signal := SignalFor(read.value);
    }
  }

  // ── Runs over a sequence of reads ────────────────────────────────────────

  function After(ticks: seq<Option<Verdict>>): Watch {
    if ticks == [] then START else Step(After(ticks[..|ticks| - 1]), ticks[|ticks| - 1])
  }

  /** What tick i logs. */
  function EmittedAt(ticks: seq<Option<Verdict>>, i: nat): Option<Signal>
    requires i < |ticks|
  {
    Emitted(After(ticks[..i]), ticks[i])
  }

  /** Whether tick i changes the reported verdict. */
  predicate ReportsAt(ticks: seq<Option<Verdict>>, i: nat)
    requires i < |ticks|
  {
    ticks[i].Some? && Changes(Counted(After(ticks[..i]), ticks[i].value.code), ticks[i].value.code)
  }

  /** The codes of the detections that gave a verdict, oldest first. */
  function Heard(ticks: seq<Option<Verdict>>): seq<Code> {
    if ticks == [] then []
    else Heard(ticks[..|ticks| - 1]) +
         (if ticks[|ticks| - 1].Some? then [ticks[|ticks| - 1].value.code] else [])
  }

  // ── A reference that keeps no counters ───────────────────────────────────

  /**
   * The reported verdict as a function of the verdicts heard, looking back one verdict only: it moves when the
   * last two are on the same side and it is on the other (or unset), or when they are the same claim about who is
   * there and it is a different one.
   */
  function Reference(codes: seq<Code>): Option<Code> {
    if |codes| < 2 then None else
      var before := Reference(codes[..|codes| - 1]);
      var a, b := codes[|codes| - 2], codes[|codes| - 1];
      if !SameSide(a, b) then before
      else if before.None? || !SameSide(before.value, b) then Some(b)
      else if a == b && b in {Absent, Multiple} then Some(b)
      else before
  }

  /** The counters say exactly whether the last two verdicts agree. */
  ghost predicate Agrees(w: Watch, codes: seq<Code>) {
    && w.reported == Reference(codes)
    && w.pending == (if codes == [] then None else Some(codes[|codes| - 1]))
    && (codes != [] ==> w.runs >= 1 && w.codeRuns >= 1)
    && (codes != [] ==>
        (w.runs >= 2 <==> |codes| >= 2 && SameSide(codes[|codes| - 2], codes[|codes| - 1])))
    && (codes != [] ==>
        (w.codeRuns >= 2 <==> |codes| >= 2 && codes[|codes| - 2] == codes[|codes| - 1]))
  }

  /** The counting loop, over any reads, reports what the reference reports on the verdicts heard. */
  lemma {:induction false} CountersRefineReference(ticks: seq<Option<Verdict>>)
    ensures Agrees(After(ticks), Heard(ticks))
  {
    if ticks != [] {
      CountersRefineReference(ticks[..|ticks| - 1]);
      if ticks[|ticks| - 1].Some? {
        assert Heard(ticks)[..|Heard(ticks)| - 1] == Heard(ticks[..|ticks| - 1]);
      } else {
        assert Heard(ticks) == Heard(ticks[..|ticks| - 1]);
      }
    }
  }

  /** Where the verdict heard at a tick changes the report, in terms of the verdicts before it alone. */
  lemma {:induction false} ReportsExactly(ticks: seq<Option<Verdict>>, i: nat)
    requires i < |ticks| && ticks[i].Some?
    ensures var h, c := Heard(ticks[..i]), ticks[i].value.code;
      ReportsAt(ticks, i) <==>
      (&& h != []
       && SameSide(h[|h| - 1], c)
       && (|| Reference(h).None?
           || !SameSide(Reference(h).value, c)
           || (c in {Absent, Multiple} && Reference(h).value != c && h[|h| - 1] == c)))
  {
    CountersRefineReference(ticks[..i]);
  }

  // ── What the events say ──────────────────────────────────────────────────

  /** The last verdict heard before tick i, and the tick it came from. */
  lemma {:induction false} LastHeard(ticks: seq<Option<Verdict>>) returns (k: nat)
    requires Heard(ticks) != []
    ensures k < |ticks| && ticks[k].Some? && ticks[k].value.code == Heard(ticks)[|Heard(ticks)| - 1]
    ensures forall j :: k < j < |ticks| ==> ticks[j].None?
  {
    if ticks[|ticks| - 1].Some? {
      k := |ticks| - 1;
    } else {
      k := LastHeard(ticks[..|ticks| - 1]);
    }
  }

  /** An event is logged only on the second of two unframed verdicts with no other verdict between them. */
  lemma {:induction false} EventNeedsTwoBadReads(ticks: seq<Option<Verdict>>, i: nat)
    requires i < |ticks| && EmittedAt(ticks, i).Some?
    ensures ticks[i].Some? && ticks[i].value.code != Framed
    ensures exists k :: 0 <= k < i && ticks[k].Some? && ticks[k].value.code != Framed
                        && forall j :: k < j < i ==> ticks[j].None?
  {
    ReportsExactly(ticks, i);
    var k := LastHeard(ticks[..i]);
    assert ticks[k].Some? && ticks[k].value.code != Framed;
    forall j | k < j < i ensures ticks[j].None? {
      assert ticks[..i][j].None?;
    }
  }

  /**
   * One bad verdict between two good ones, whatever failed detections lie between them, logs nothing, then or on
   * the good one, and leaves the report alone.
   */
  lemma {:induction false} IsolatedReadNeverEmits(ticks: seq<Option<Verdict>>, i: nat, j: nat)
    requires i < j < |ticks| && ticks[i].Some? && ticks[j].Some?
    requires Heard(ticks[..i]) != [] && Heard(ticks[..i])[|Heard(ticks[..i])| - 1] == Framed
    requires ticks[i].value.code != Framed && ticks[j].value.code == Framed
    requires forall k :: i < k < j ==> ticks[k].None?
    ensures forall k :: i <= k <= j ==> EmittedAt(ticks, k).None?
    ensures After(ticks[..j + 1]).reported == After(ticks[..i]).reported
  {
    HeardAcross(ticks, i, j);
    ReportsExactly(ticks, i);
    ReportsExactly(ticks, j);
    forall k | i <= k <= j ensures !ReportsAt(ticks, k) {
    }
    QuietSpan(ticks, i, j + 1);
  }

  lemma {:induction false} QuietSpan(ticks: seq<Option<Verdict>>, i: nat, j: nat)
    requires i <= j <= |ticks| && forall k :: i <= k < j ==> !ReportsAt(ticks, k)
    ensures After(ticks[..j]).reported == After(ticks[..i]).reported
    decreases j
  {
    if i < j {
      ReportedAfter(ticks, j - 1);
      QuietSpan(ticks, i, j - 1);
    }
  }

  /** The report after tick i is the verdict of tick i when it changed, and what it was otherwise. */
  lemma {:induction false} ReportedAfter(ticks: seq<Option<Verdict>>, i: nat)
    requires i < |ticks|
    ensures After(ticks[..i + 1]).reported ==
            if ReportsAt(ticks, i) then Some(ticks[i].value.code) else After(ticks[..i]).reported
  {
    assert ticks[..i + 1][..i] == ticks[..i];
  }

  /** While no later tick changes it, the report stays what the first made it. */
  lemma {:induction false} ReportStays(ticks: seq<Option<Verdict>>, i: nat, j: nat)
    requires i < j <= |ticks| && ReportsAt(ticks, i)
    requires forall k :: i < k < j ==> !ReportsAt(ticks, k)
    ensures After(ticks[..j]).reported == Some(ticks[i].value.code)
    decreases j
  {
    ReportedAfter(ticks, j - 1);
    if i < j - 1 {
      ReportStays(ticks, i, j - 1);
    }
  }

  /** Two changes of the report are at least two ticks, and two verdicts, apart. */
  lemma {:induction false} ChangesAreSpaced(ticks: seq<Option<Verdict>>, i: nat, j: nat)
    requires i < j < |ticks| && ReportsAt(ticks, i) && ReportsAt(ticks, j)
    ensures exists k :: i < k < j && ticks[k].Some?
    decreases j
  {
    if forall k :: i < k < j ==> ticks[k].None? {
      ReportStays(ticks, i, j);
      HeardAcross(ticks, i, j);
      CountersRefineReference(ticks[..j]);
      ReportsExactly(ticks, j);
      assert false;
    }
  }

  lemma {:induction false} HeardAcross(ticks: seq<Option<Verdict>>, i: nat, j: nat)
    requires i < j <= |ticks| && ticks[i].Some?
    requires forall k :: i < k < j ==> ticks[k].None?
    ensures Heard(ticks[..j]) == Heard(ticks[..i]) + [ticks[i].value.code]
    decreases j
  {
    assert ticks[..j][..j - 1] == ticks[..j - 1];
    if i < j - 1 {
      HeardAcross(ticks, i, j - 1);
    }
  }

  /** Two changes with none between them report different verdicts, so a lasting absence is logged once. */
  lemma {:induction false} ConsecutiveReportsDiffer(ticks: seq<Option<Verdict>>, i: nat, j: nat)
    requires i < j < |ticks| && ReportsAt(ticks, i) && ReportsAt(ticks, j)
    requires forall k :: i < k < j ==> !ReportsAt(ticks, k)
    ensures ticks[i].value.code != ticks[j].value.code
    ensures SameSide(ticks[i].value.code, ticks[j].value.code) ==> ticks[j].value.code in {Absent, Multiple}
  {
    ReportStays(ticks, i, j);
  }

  /** While the report stays unframed it stays set to an unframed code, whatever is logged meanwhile. */
  lemma {:induction false} UnframedUntilConfirmed(ticks: seq<Option<Verdict>>, i: nat, j: nat)
    requires i < j <= |ticks| && ReportsAt(ticks, i) && ticks[i].value.code != Framed
    requires forall k :: i < k < j && ReportsAt(ticks, k) ==> ticks[k].value.code != Framed
    ensures After(ticks[..j]).reported.Some? && After(ticks[..j]).reported.value != Framed
    decreases j
  {
    ReportedAfter(ticks, j - 1);
    if i < j - 1 {
      UnframedUntilConfirmed(ticks, i, j - 1);
    }
  }

  /** "Not properly framed" is logged at most once between two confirmations of being framed. */
  lemma {:induction false} NotFramedOncePerDeparture(ticks: seq<Option<Verdict>>, i: nat, j: nat)
    requires i < j < |ticks|
    requires EmittedAt(ticks, i).Some? && EmittedAt(ticks, i).value.FaceNotFramed?
    requires EmittedAt(ticks, j).Some? && EmittedAt(ticks, j).value.FaceNotFramed?
    ensures exists k :: i < k < j && ReportsAt(ticks, k) && ticks[k].value.code == Framed
  {
    if forall k :: i < k < j && ReportsAt(ticks, k) ==> ticks[k].value.code != Framed {
      UnframedUntilConfirmed(ticks, i, j);
      assert false;
    }
  }

  /**
   * Nothing held for two verdicts goes unreported: they put the report on their side, and if both say nobody, or
   * both say several people, the report says exactly that.
   */
  lemma {:induction false} SustainedIsReported(ticks: seq<Option<Verdict>>)
    requires var h := Heard(ticks); |h| >= 2 && SameSide(h[|h| - 2], h[|h| - 1])
    ensures var h, said := Heard(ticks), After(ticks).reported;
      && said.Some? && SameSide(said.value, h[|h| - 1])
      && (h[|h| - 2] == h[|h| - 1] && h[|h| - 1] in {Absent, Multiple} ==> said.value == h[|h| - 1])
  {
    CountersRefineReference(ticks);
  }

  /** The report always stands on the side of the latest two consecutive verdicts that agreed, if any ever did. */
  lemma {:induction false} ReportIsLastAgreement(codes: seq<Code>, i: nat)
    requires 1 <= i < |codes| && SameSide(codes[i - 1], codes[i])
    requires forall j :: i < j < |codes| ==> !SameSide(codes[j - 1], codes[j])
    ensures Reference(codes).Some? && SameSide(Reference(codes).value, codes[i])
    decreases |codes|
  {
    if i < |codes| - 1 {
      var shorter := codes[..|codes| - 1];
      forall j | i < j < |shorter| ensures !SameSide(shorter[j - 1], shorter[j]) {
        assert !SameSide(codes[j - 1], codes[j]);
      }
      assert !SameSide(codes[|codes| - 2], codes[|codes| - 1]);
      ReportIsLastAgreement(shorter, i);
    }
  }

  /** An event is logged exactly when the report changes to a problem, and it names that problem and no other. */
  lemma {:induction false} EventNamesTheProblem(ticks: seq<Option<Verdict>>, i: nat)
    requires i < |ticks|
    ensures EmittedAt(ticks, i).Some? <==> ReportsAt(ticks, i) && ticks[i].value.code != Framed
    ensures EmittedAt(ticks, i) == Some(FaceAbsent) <==> ReportsAt(ticks, i) && ticks[i].value.code == Absent
    ensures forall n :: EmittedAt(ticks, i) == Some(MultipleFaces(n)) <==>
              ReportsAt(ticks, i) && ticks[i].value == Verdict(Multiple, n)
    ensures forall code :: EmittedAt(ticks, i) == Some(FaceNotFramed(code)) <==>
              ReportsAt(ticks, i) && ticks[i].value.code == code && code in {OffCentre, TooFar, TooClose}
  {
  }

  // ── One absent read can be enough ────────────────────────────────────────

  /**
   * "No face" is logged on a single absent read exactly when the verdict heard before it was another problem and
   * the report was unset or framed; in every other case it takes two absent reads in a row.
   */
  lemma {:induction false} AbsentOnOneRead(ticks: seq<Option<Verdict>>, i: nat)
    requires i < |ticks| && ticks[i].Some? && ticks[i].value.code == Absent
    requires Heard(ticks[..i]) != []
    ensures var h := Heard(ticks[..i]);
      (EmittedAt(ticks, i) == Some(FaceAbsent) && h[|h| - 1] != Absent) <==>
      (h[|h| - 1] !in {Absent, Framed} && (Reference(h).None? || Reference(h).value == Framed))
  {
    ReportsExactly(ticks, i);
  }

  lemma {:induction false} OneAbsentReadLogged()
    ensures var ticks := [Some(Verdict(Framed, 1)), Some(Verdict(Framed, 1)),
                          Some(Verdict(TooFar, 1)), Some(Verdict(Absent, 0))];
      && EmittedAt(ticks, 3) == Some(FaceAbsent)
      && forall i :: 0 <= i < 3 ==> EmittedAt(ticks, i).None? && ticks[i].value.code != Absent
  {
    var ticks := [Some(Verdict(Framed, 1)), Some(Verdict(Framed, 1)),
                  Some(Verdict(TooFar, 1)), Some(Verdict(Absent, 0))];
    assert ticks[..3][..2] == ticks[..2] && ticks[..2][..1] == ticks[..1] && ticks[..1][..0] == [];
    var w0 := START;
    var w1 := Step(w0, ticks[0]);
    var w2 := Step(w1, ticks[1]);
    var w3 := Step(w2, ticks[2]);
    assert After(ticks[..0]) == w0;
    assert After(ticks[..1]) == w1;
    assert After(ticks[..2]) == w2;
    assert After(ticks[..3]) == w3;
  }
}
