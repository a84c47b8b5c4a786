/**
 * Concurrent starts of one invitation: look for a session, insert one, and after losing the race on the
 * unique invitation column look again. The database statements of any number of calls interleave.
 */
module StartProtocol {
  type Invitation = nat
  type SessionId = nat
  type Caller = nat

  datatype Row = Row(invitation: Invitation, session: SessionId)

  /** Where one call of `start` is. */
  datatype Phase =
    | Looking(invitation: Invitation)
    | Inserting(invitation: Invitation)
    | LostRace(invitation: Invitation)
    | Joined(invitation: Invitation, session: SessionId)
    | Failed(invitation: Invitation)

  datatype State = State(rows: seq<Row>, callers: map<Caller, Phase>)

  datatype Action = Start(starter: Caller, invitation: Invitation) | Proceed(caller: Caller)

  predicate Exists(rows: seq<Row>, invitation: Invitation) {
    exists r :: r in rows && r.invitation == invitation
  }

  /** `findOne({ where: { invitationId } })`: the first row of the invitation from position `k` on. */
  function FindFrom(rows: seq<Row>, invitation: Invitation, k: nat): (i: nat)
    requires k <= |rows|
    ensures k <= i <= |rows|
    ensures i < |rows| ==> rows[i].invitation == invitation
    ensures forall j :: k <= j < i ==> rows[j].invitation != invitation
    decreases |rows| - k
  {
    if k == |rows| || rows[k].invitation == invitation then k else FindFrom(rows, invitation, k + 1)
  }

  /** The next database statement of one call. `fresh_` is the id an insert would give its row. */
  function Next(s: State, a: Action, fresh_: SessionId): State {
    match a
    case Start(caller, invitation) =>
      if caller in s.callers then s else s.(callers := s.callers[caller := Looking(invitation)])
    case Proceed(caller) =>
      if caller !in s.callers then s
      else match s.callers[caller]
        case Looking(invitation) =>
          var i := FindFrom(s.rows, invitation, 0);
          s.(callers := s.callers[caller := if i < |s.rows| then Joined(invitation, s.rows[i].session)
                                            else Inserting(invitation)])
        case Inserting(invitation) =>
          if Exists(s.rows, invitation) then s.(callers := s.callers[caller := LostRace(invitation)])
          else State(s.rows + [Row(invitation, fresh_)], s.callers[caller := Joined(invitation, fresh_)])
        case LostRace(invitation) =>
          var i := FindFrom(s.rows, invitation, 0);
          s.(callers := s.callers[caller := if i < |s.rows| then Joined(invitation, s.rows[i].session)
                                            else Failed(invitation)])
        case Joined(_, _) => s
        case Failed(_) => s
  }

  function Run(steps: seq<(Action, SessionId)>): State {
    if steps == [] then State([], map[])
    else Next(Run(steps[..|steps| - 1]), steps[|steps| - 1].0, steps[|steps| - 1].1)
  }

  /** At most one session row per invitation. */
  ghost predicate OneRowEach(rows: seq<Row>) {
    forall i, j :: 0 <= i < j < |rows| ==> rows[i].invitation != rows[j].invitation
  }

  ghost predicate PhaseOk(rows: seq<Row>, p: Phase) {
    match p
    case Looking(_) => true
    case Inserting(_) => true
    case LostRace(invitation) => Exists(rows, invitation)
    case Joined(invitation, session) => Row(invitation, session) in rows
    case Failed(_) => false
  }

  ghost predicate Inv(s: State) {
    OneRowEach(s.rows) && forall caller :: caller in s.callers ==> PhaseOk(s.rows, s.callers[caller])
  }

  lemma {:induction false} NextKeeps(s: State, a: Action, fresh_: SessionId)
    requires Inv(s)
    ensures Inv(Next(s, a, fresh_))
  {
    var s1 := Next(s, a, fresh_);
    forall caller | caller in s1.callers
      ensures PhaseOk(s1.rows, s1.callers[caller])
    {
      if caller in s.callers && s1.callers[caller] == s.callers[caller] {
        assert PhaseOk(s.rows, s.callers[caller]);
        assert forall r :: r in s.rows ==> r in s1.rows;
      } else if a.Proceed? {
        var invitation := s.callers[caller].invitation;
        var i := FindFrom(s.rows, invitation, 0);
        assert i < |s.rows| ==> s.rows[i] == Row(invitation, s.rows[i].session);
      }
    }
  }

  lemma {:induction false} RunKeeps(steps: seq<(Action, SessionId)>)
    ensures Inv(Run(steps))
  {
    if steps != [] {
      RunKeeps(steps[..|steps| - 1]);
      NextKeeps(Run(steps[..|steps| - 1]), steps[|steps| - 1].0, steps[|steps| - 1].1);
    }
  }

  // ── What the calls were made for ─────────────────────────────────────────

  /** Step `k` is the call that `caller` made, and it was made for `invitation`. */
  predicate Called(steps: seq<(Action, SessionId)>, k: nat, caller: Caller, invitation: Invitation) {
    && k < |steps| && steps[k].0 == Start(caller, invitation)
    && forall j :: 0 <= j < k ==> !(steps[j].0.Start? && steps[j].0.starter == caller)
  }

  /** Some step starts a call for the invitation. */
  predicate Named(steps: seq<(Action, SessionId)>, invitation: Invitation) {
    exists k :: 0 <= k < |steps| && steps[k].0.Start? && steps[k].0.invitation == invitation
  }

  /** Callers work on the invitation they came with, and sessions exist only for invitations that were named. */
  ghost predicate Traced(steps: seq<(Action, SessionId)>, s: State) {
    && (forall caller :: caller in s.callers ==> exists k :: Called(steps, k, caller, s.callers[caller].invitation))
    && (forall i :: 0 <= i < |s.rows| ==> Named(steps, s.rows[i].invitation))
    && (forall k :: 0 <= k < |steps| && steps[k].0.Start? ==> steps[k].0.starter in s.callers)
  }

  lemma {:induction false} CalledLater(steps: seq<(Action, SessionId)>, step: (Action, SessionId), k: nat,
                                       caller: Caller, invitation: Invitation)
    requires Called(steps, k, caller, invitation)
    ensures Called(steps + [step], k, caller, invitation) && Named(steps + [step], invitation)
  {
    assert (steps + [step])[k] == steps[k];
  }

  lemma {:induction false} NamedLater(steps: seq<(Action, SessionId)>, step: (Action, SessionId), invitation: Invitation)
    requires Named(steps, invitation)
    ensures Named(steps + [step], invitation)
  {
    var k :| 0 <= k < |steps| && steps[k].0.Start? && steps[k].0.invitation == invitation;
    assert (steps + [step])[k] == steps[k];
  }

  /** Two calls by one caller cannot both be its first. */
  lemma {:induction false} CalledOnce(steps: seq<(Action, SessionId)>, k: nat, j: nat, caller: Caller,
                                      x: Invitation, y: Invitation)
    requires Called(steps, k, caller, x) && Called(steps, j, caller, y)
    ensures k == j && x == y
  {
  }

  lemma {:induction false} CalledNow(steps: seq<(Action, SessionId)>, s: State, step: (Action, SessionId))
    requires Traced(steps, s) && step.0.Start? && step.0.starter !in s.callers
    ensures Called(steps + [step], |steps|, step.0.starter, step.0.invitation)
  {
    assert forall j :: 0 <= j < |steps| ==> (steps + [step])[j] == steps[j];
  }

  /** What one statement can change: one caller's phase, at the same invitation, and one row for that invitation. */
  lemma {:induction false} NextChanges(s: State, a: Action, fresh_: SessionId)
    ensures var s1 := Next(s, a, fresh_);
      && (forall caller :: caller in s.callers ==>
            caller in s1.callers && s1.callers[caller].invitation == s.callers[caller].invitation)
      && (forall caller :: caller in s1.callers && caller !in s.callers ==>
            a.Start? && a.starter == caller && s1.callers[caller].invitation == a.invitation)
      && s.rows <= s1.rows <= s.rows + s1.rows[|s.rows|..]
      && (s1.rows != s.rows ==>
            a.Proceed? && a.caller in s.callers && |s1.rows| == |s.rows| + 1
            && s1.rows[|s.rows|].invitation == s.callers[a.caller].invitation)
      && (a.Start? ==> a.starter in s1.callers)
  {
  }

  lemma {:induction false} NextTraced(steps: seq<(Action, SessionId)>, s: State, step: (Action, SessionId))
    requires Traced(steps, s)
    ensures Traced(steps + [step], Next(s, step.0, step.1))
  {
    hide Next, Called, Named;
    var all, s1 := steps + [step], Next(s, step.0, step.1);
    NextChanges(s, step.0, step.1);
    forall caller | caller in s1.callers
      ensures exists k :: Called(all, k, caller, s1.callers[caller].invitation)
    {
      if caller in s.callers {
        var k :| Called(steps, k, caller, s.callers[caller].invitation);
        CalledLater(steps, step, k, caller, s.callers[caller].invitation);
      } else {
        CalledNow(steps, s, step);
      }
    }
    forall i | 0 <= i < |s1.rows|
      ensures Named(all, s1.rows[i].invitation)
    {
      if i < |s.rows| {
        NamedLater(steps, step, s.rows[i].invitation);
      } else {
        var invitation := s1.rows[i].invitation;
        var k :| Called(steps, k, step.0.caller, invitation);
        CalledLater(steps, step, k, step.0.caller, invitation);
      }
    }
  }

  lemma {:induction false} RunTraced(steps: seq<(Action, SessionId)>)
    ensures Traced(steps, Run(steps))
  {
    hide Next;
    if steps != [] {
      var last := |steps| - 1;
      RunTraced(steps[..last]);
      NextTraced(steps[..last], Run(steps[..last]), steps[last]);
      assert steps[..last] + [steps[last]] == steps;
    }
  }

  /**
   * A call works for the invitation it was made with to the end: if it has joined a session, that session is
   * stored for that invitation. And a session is stored only for an invitation that some call was made with.
   */
  lemma {:induction false} JoinsForItsInvitation(steps: seq<(Action, SessionId)>, k: nat, caller: Caller,
                                                 invitation: Invitation)
    requires Called(steps, k, caller, invitation)
    ensures var s := Run(steps);
      && caller in s.callers && s.callers[caller].invitation == invitation
      && (s.callers[caller].Joined? ==> Row(invitation, s.callers[caller].session) in s.rows)
    ensures forall r :: r in Run(steps).rows ==> Named(steps, r.invitation)
  {
    RunTraced(steps);
    RunKeeps(steps);
    var s := Run(steps);
    assert steps[k].0.starter in s.callers;
    var j :| Called(steps, j, caller, s.callers[caller].invitation);
    CalledOnce(steps, k, j, caller, invitation, s.callers[caller].invitation);
    assert PhaseOk(s.rows, s.callers[caller]);
  }

  /**
   * However the statements of any number of calls interleave, no call fails, an invitation never has two
   * sessions, and all calls made for one invitation that have returned have joined the one session it has.
   */
  lemma {:induction false} EveryCallJoinsTheOneSession(steps: seq<(Action, SessionId)>, a: Caller, b: Caller,
                                                       i: nat, j: nat, invitation: Invitation)
    requires Called(steps, i, a, invitation) && Called(steps, j, b, invitation)
    ensures OneRowEach(Run(steps).rows)
    ensures a in Run(steps).callers && !Run(steps).callers[a].Failed?
    ensures Run(steps).callers[a].Joined? ==> Exists(Run(steps).rows, invitation)
    ensures b in Run(steps).callers
    ensures Run(steps).callers[a].Joined? && Run(steps).callers[b].Joined? ==>
      Run(steps).callers[a].session == Run(steps).callers[b].session
  {
    RunKeeps(steps);
    JoinsForItsInvitation(steps, i, a, invitation);
    JoinsForItsInvitation(steps, j, b, invitation);
    var s := Run(steps);
    assert PhaseOk(s.rows, s.callers[a]) && PhaseOk(s.rows, s.callers[b]);
    if s.callers[a].Joined? && s.callers[b].Joined? {
      SameSession(s.rows, invitation, s.callers[a].session, s.callers[b].session);
    }
  }

  lemma {:induction false} SameSession(rows: seq<Row>, invitation: Invitation, x: SessionId, y: SessionId)
    requires OneRowEach(rows) && Row(invitation, x) in rows && Row(invitation, y) in rows
    ensures x == y
  {
    var i :| 0 <= i < |rows| && rows[i] == Row(invitation, x);
    var j :| 0 <= j < |rows| && rows[j] == Row(invitation, y);
    assert i == j;
  }

  // ── Returning ────────────────────────────────────────────────────────────

  /** Statements a call still has to run, at most. */
  function Remaining(p: Phase): nat {
    match p
    case Looking(_) => 3
    case Inserting(_) => 2
    case LostRace(_) => 1
    case Joined(_, _) => 0
    case Failed(_) => 0
  }

  /** Every statement of a call brings it closer to its return, and no other call's statement sets it back. */
  lemma {:induction false} EveryCallReturns(s: State, a: Action, fresh_: SessionId, caller: Caller)
    requires caller in s.callers
    ensures caller in Next(s, a, fresh_).callers
    ensures Remaining(Next(s, a, fresh_).callers[caller]) <= Remaining(s.callers[caller])
    ensures a == Proceed(caller) && Remaining(s.callers[caller]) > 0 ==>
      Remaining(Next(s, a, fresh_).callers[caller]) < Remaining(s.callers[caller])
  {
  }

  /** How many statements of a caller's are among the steps from `k` on. */
  function Statements(steps: seq<(Action, SessionId)>, k: nat, caller: Caller): nat {
    if |steps| <= k then 0
    else Statements(steps[..|steps| - 1], k, caller) + (if steps[|steps| - 1].0 == Proceed(caller) then 1 else 0)
  }

  lemma {:induction false} RemainingAfter(steps: seq<(Action, SessionId)>, k: nat, caller: Caller, invitation: Invitation)
    requires Called(steps, k, caller, invitation)
    ensures caller in Run(steps).callers
    ensures Statements(steps, k, caller) >= 3 ==> Remaining(Run(steps).callers[caller]) == 0
    ensures Remaining(Run(steps).callers[caller]) + Statements(steps, k, caller) <= 3
            || Remaining(Run(steps).callers[caller]) == 0
    decreases |steps|
  {
    hide Next, Remaining;
    var last := |steps| - 1;
    JoinsForItsInvitation(steps, k, caller, invitation);
    if k < last {
      assert Called(steps[..last], k, caller, invitation);
      RemainingAfter(steps[..last], k, caller, invitation);
      EveryCallReturns(Run(steps[..last]), steps[last].0, steps[last].1, caller);
    } else {
      AtMostThree(Run(steps).callers[caller]);
      assert Statements(steps[..last], k, caller) == 0;
    }
  }

  lemma {:induction false} AtMostThree(p: Phase)
    ensures Remaining(p) <= 3
  {
  }

  /** Three statements of a call, whatever others do between them, and it has joined its invitation's session. */
  lemma {:induction false} ThreeStatementsJoin(steps: seq<(Action, SessionId)>, k: nat, caller: Caller,
                                               invitation: Invitation)
    requires Called(steps, k, caller, invitation) && Statements(steps, k, caller) >= 3
    ensures var s := Run(steps);
      && caller in s.callers && s.callers[caller].Joined?
      && Row(invitation, s.callers[caller].session) in s.rows
  {
    RemainingAfter(steps, k, caller, invitation);
    JoinsForItsInvitation(steps, k, caller, invitation);
    EveryCallJoinsTheOneSession(steps, caller, caller, k, k, invitation);
  }
}
