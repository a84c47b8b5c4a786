/**
 * Refresh-token rotation. The account row keeps the current token and a short, time-limited list of
 * superseded ones; `History` is the specification that forgets nothing. Tokens are opaque and unique,
 * and one refresh is one atomic step.
 */
module RefreshTokens {
  import opened Wrappers

  const MAX_RECENT_REFRESH_TOKENS: nat := 5

  type Token = nat

  /** A superseded token and when it was superseded. */
  datatype Superseded = Superseded(token: Token, at: int)

  datatype Account = Account(active: bool, current: Option<Token>, recent: seq<Superseded>)

  datatype Event =
    | SignIn(fresh_: Token)
    | Refresh(presented: Token, minted: Token)
    | Clear               // logout, or a completed password reset
    | SetActive(active: bool)

  datatype Timed = Timed(event: Event, now: int)

  // ── The stored list ──────────────────────────────────────────────────────

  function Take(s: seq<Superseded>, n: nat): seq<Superseded> {
    if |s| <= n then s else s[..n]
  }

  /** The entries superseded at or after `cutoff`. */
  function Since(s: seq<Superseded>, cutoff: int): seq<Superseded> {
    if s == [] then []
    else
      var last := s[|s| - 1];
      Since(s[..|s| - 1], cutoff) + (if last.at >= cutoff then [last] else [])
  }

  /** The part of the stored list that is honoured at `now`: recent enough, and at most five. */
  function LiveRecent(recent: seq<Superseded>, windowMs: int, now: int): seq<Superseded> {
    if windowMs <= 0 then [] else Take(Since(recent, now - windowMs), MAX_RECENT_REFRESH_TOKENS)
  }

  predicate Lists(s: seq<Superseded>, token: Token) {
    exists e :: e in s && e.token == token
  }

  /** Installs a new token and puts the outgoing one at the head of the trimmed list. */
  function Rotate(a: Account, windowMs: int, now: int, minted: Token): Account {
    var kept := Take(LiveRecent(a.recent, windowMs, now), MAX_RECENT_REFRESH_TOKENS - 1);
    a.(current := Some(minted),
       recent := if a.current.Some? then [Superseded(a.current.value, now)] + kept else kept)
  }

  predicate Accepts(a: Account, windowMs: int, now: int, token: Token) {
    a.active && a.current.Some? && (token == a.current.value || Lists(LiveRecent(a.recent, windowMs, now), token))
  }

  function Step(a: Account, windowMs: int, t: Timed): Account {
    match t.event
    case SignIn(token) => a.(current := Some(token), recent := [])
    case Clear => a.(current := None, recent := [])
    case SetActive(active) => a.(active := active)
    case Refresh(presented, minted) =>
      if Accepts(a, windowMs, t.now, presented) then Rotate(a, windowMs, t.now, minted)
      else if a.active && a.current.Some? then a.(current := None, recent := [])
      else a
  }

  // ── The history that forgets nothing ─────────────────────────────────────

  /** Every token superseded since the last sign-in, newest first. */
  datatype History = History(active: bool, current: Option<Token>, superseded: seq<Superseded>)

  /** Current, or one of the five most recently superseded of this chain and superseded within the window. */
  predicate Honours(h: History, windowMs: int, now: int, token: Token) {
    && h.active && h.current.Some?
    && (token == h.current.value
        || (windowMs > 0 &&
            exists k :: 0 <= k < |h.superseded| && k < MAX_RECENT_REFRESH_TOKENS
                        && h.superseded[k].token == token && h.superseded[k].at >= now - windowMs))
  }

  function HistoryStep(h: History, windowMs: int, t: Timed): History {
    match t.event
    case SignIn(token) => h.(current := Some(token), superseded := [])
    case Clear => h.(current := None, superseded := [])
    case SetActive(active) => h.(active := active)
    case Refresh(presented, minted) =>
      if Honours(h, windowMs, t.now, presented) then
        h.(current := Some(minted), superseded := [Superseded(h.current.value, t.now)] + h.superseded)
      else if h.active && h.current.Some? then h.(current := None, superseded := [])
      else h
  }

  // ── Refinement ───────────────────────────────────────────────────────────

  /** Newest first, and nothing from the future. */
  ghost predicate NewestFirst(s: seq<Superseded>, now: int) {
    && (forall i :: 0 <= i < |s| ==> s[i].at <= now)
    && (forall i, j :: 0 <= i < j < |s| ==> s[i].at >= s[j].at)
  }

  /** How many leading entries were superseded at or after `cutoff`. */
  function Leading(s: seq<Superseded>, cutoff: int): (n: nat)
    ensures n <= |s|
    ensures forall i :: 0 <= i < n ==> s[i].at >= cutoff
    ensures n < |s| ==> s[n].at < cutoff
  {
    LeadingFrom(s, cutoff, 0)
  }

  function LeadingFrom(s: seq<Superseded>, cutoff: int, k: nat): (n: nat)
    requires k <= |s|
    ensures k <= n <= |s|
    ensures forall i :: k <= i < n ==> s[i].at >= cutoff
    ensures n < |s| ==> s[n].at < cutoff
    decreases |s| - k
  {
    if k == |s| || s[k].at < cutoff then k else LeadingFrom(s, cutoff, k + 1)
  }

  lemma {:induction false} LeadingIs(s: seq<Superseded>, cutoff: int, n: nat)
    requires n <= |s| && (forall i :: 0 <= i < n ==> s[i].at >= cutoff) && (n < |s| ==> s[n].at < cutoff)
    ensures Leading(s, cutoff) == n
  {
  }

  lemma {:induction false} NewestFirstInit(s: seq<Superseded>, now: int)
    requires NewestFirst(s, now) && s != []
    ensures NewestFirst(s[..|s| - 1], now)
  {
  }

  /** How the leading part grows when an older entry is put at the end. */
  lemma {:induction false} LeadingOfInit(s: seq<Superseded>, cutoff: int, now: int)
    requires NewestFirst(s, now) && s != []
    ensures Leading(s, cutoff) == if s[|s| - 1].at >= cutoff then |s| else Leading(s[..|s| - 1], cutoff)
    ensures s[|s| - 1].at >= cutoff ==> Leading(s[..|s| - 1], cutoff) == |s| - 1
  {
    hide LeadingFrom;
    var init := s[..|s| - 1];
    var n := Leading(init, cutoff);
    if s[|s| - 1].at >= cutoff {
      LeadingIs(init, cutoff, |init|);
      LeadingIs(s, cutoff, |s|);
    } else {
      LeadingIs(s, cutoff, n);
    }
  }

  /** Of a newest-first list, the live part is a prefix. */
  lemma {:induction false} SinceIsPrefix(s: seq<Superseded>, cutoff: int, now: int)
    requires NewestFirst(s, now)
    ensures Since(s, cutoff) == s[..Leading(s, cutoff)]
  {
    hide Leading, NewestFirst;
    if s != [] {
      var init := s[..|s| - 1];
      NewestFirstInit(s, now);
      SinceIsPrefix(init, cutoff, now);
      LeadingOfInit(s, cutoff, now);
      assert s == init + [s[|s| - 1]];
    }
  }

  /** The stored list keeps exactly what the full history would still honour, now and at any later time. */
  ghost predicate Refines(a: Account, h: History, windowMs: int, now: int) {
    && a.active == h.active && a.current == h.current
    && (a.current.None? ==> a.recent == [] && h.superseded == [])
    && NewestFirst(a.recent, now) && NewestFirst(h.superseded, now)
    && forall later :: later >= now ==>
         LiveRecent(a.recent, windowMs, later) == LiveRecent(h.superseded, windowMs, later)
  }

  function Min(a: nat, b: nat): nat {
    if a <= b then a else b
  }

  lemma {:induction false} LiveIsPrefix(s: seq<Superseded>, windowMs: int, now: int, later: int)
    requires NewestFirst(s, now) && windowMs > 0
    ensures LiveRecent(s, windowMs, later)
            == s[..Min(Leading(s, later - windowMs), MAX_RECENT_REFRESH_TOKENS)]
  {
    SinceIsPrefix(s, later - windowMs, now);
  }

  /** A head superseded now is the last to leave the window, whatever prefix of the history follows it. */
  lemma {:induction false} LeadingWithHead(x: Superseded, full: seq<Superseded>, p: nat, cutoff: int)
    requires NewestFirst(full, x.at) && p <= |full|
    ensures Leading([x] + full[..p], cutoff) == if x.at < cutoff then 0 else 1 + Min(p, Leading(full, cutoff))
  {
    hide Leading;
    var n := if x.at < cutoff then 0 else 1 + Min(p, Leading(full, cutoff));
    var s := [x] + full[..p];
    assert forall i :: 1 <= i < |s| ==> s[i] == full[i - 1];
    LeadingIs(s, cutoff, n);
  }

  /** Trimming at a rotation loses nothing that a later look at the full history would still find. */
  lemma {:induction false} TrimLosesNothing(recent: seq<Superseded>, full: seq<Superseded>, x: Superseded,
                                            windowMs: int, now: int, later: int)
    requires NewestFirst(recent, now) && NewestFirst(full, now) && now <= later && x.at == now
    requires LiveRecent(recent, windowMs, now) == LiveRecent(full, windowMs, now)
    ensures LiveRecent([x] + Take(LiveRecent(recent, windowMs, now), MAX_RECENT_REFRESH_TOKENS - 1), windowMs, later)
            == LiveRecent([x] + full, windowMs, later)
  {
    hide LiveRecent, Leading;
    if windowMs > 0 {
      var cutoff := later - windowMs;
      var p := Min(Leading(full, now - windowMs), MAX_RECENT_REFRESH_TOKENS - 1);
      LiveIsPrefix(full, windowMs, now, now);
      assert Take(LiveRecent(recent, windowMs, now), MAX_RECENT_REFRESH_TOKENS - 1) == full[..p];
      LeadingWithHead(x, full, p, cutoff);
      LeadingWithHead(x, full, |full|, cutoff);
      assert full[..|full|] == full;
      HeadNewest(x, full, p);
      HeadNewest(x, full, |full|);
      LiveIsPrefix([x] + full[..p], windowMs, now, later);
      LiveIsPrefix([x] + full, windowMs, now, later);
      assert Leading(full, cutoff) <= Leading(full, now - windowMs);
    } else {
      NothingLive([x] + Take(LiveRecent(recent, windowMs, now), MAX_RECENT_REFRESH_TOKENS - 1), windowMs, later);
      NothingLive([x] + full, windowMs, later);
    }
  }

  lemma {:induction false} HeadNewest(x: Superseded, full: seq<Superseded>, p: nat)
    requires NewestFirst(full, x.at) && p <= |full|
    ensures NewestFirst([x] + full[..p], x.at)
  {
  }

  lemma {:induction false} NothingLive(s: seq<Superseded>, windowMs: int, now: int)
    requires windowMs <= 0
    ensures LiveRecent(s, windowMs, now) == []
  {
  }

  lemma {:induction false} AcceptsAsHonoured(a: Account, h: History, windowMs: int, now: int, token: Token)
    requires Refines(a, h, windowMs, now)
    ensures Accepts(a, windowMs, now, token) <==> Honours(h, windowMs, now, token)
  {
    var live := LiveRecent(h.superseded, windowMs, now);
    if windowMs > 0 {
      LiveIsPrefix(h.superseded, windowMs, now, now);
      var n := Min(Leading(h.superseded, now - windowMs), MAX_RECENT_REFRESH_TOKENS);
      assert forall k :: 0 <= k < n ==> live[k] == h.superseded[k];
      assert forall k :: n <= k < |h.superseded| && k < MAX_RECENT_REFRESH_TOKENS ==>
          h.superseded[k].at < now - windowMs;
    }
  }

  lemma {:induction false} StepRefines(a: Account, h: History, windowMs: int, before: int, t: Timed)
    requires Refines(a, h, windowMs, before) && before <= t.now
    ensures Refines(Step(a, windowMs, t), HistoryStep(h, windowMs, t), windowMs, t.now)
  {
    hide LiveRecent;
    assert Refines(a, h, windowMs, t.now);
    if t.event.Refresh? {
      AcceptsAsHonoured(a, h, windowMs, t.now, t.event.presented);
      if Accepts(a, windowMs, t.now, t.event.presented) {
        var x := Superseded(a.current.value, t.now);
        forall later | later >= t.now
          ensures LiveRecent(Step(a, windowMs, t).recent, windowMs, later)
                  == LiveRecent([x] + h.superseded, windowMs, later)
        {
          TrimLosesNothing(a.recent, h.superseded, x, windowMs, t.now, later);
        }
        KeptIsNewestFirst(a.recent, windowMs, t.now);
      }
    }
  }

  lemma {:induction false} KeptIsNewestFirst(s: seq<Superseded>, windowMs: int, now: int)
    requires NewestFirst(s, now)
    ensures NewestFirst(Take(LiveRecent(s, windowMs, now), MAX_RECENT_REFRESH_TOKENS - 1), now)
  {
    if windowMs > 0 {
      LiveIsPrefix(s, windowMs, now, now);
    }
  }

  // ── Runs ─────────────────────────────────────────────────────────────────

  function Run(a: Account, windowMs: int, events: seq<Timed>): Account {
    if events == [] then a
    else Step(Run(a, windowMs, events[..|events| - 1]), windowMs, events[|events| - 1])
  }

  function HistoryRun(h: History, windowMs: int, events: seq<Timed>): History {
    if events == [] then h
    else HistoryStep(HistoryRun(h, windowMs, events[..|events| - 1]), windowMs, events[|events| - 1])
  }

  /** The clock does not run backwards. */
  ghost predicate InOrder(events: seq<Timed>) {
    forall i, j :: 0 <= i < j < |events| ==> events[i].now <= events[j].now
  }

  lemma {:induction false} RunRefines(windowMs: int, active: bool, events: seq<Timed>, now: int)
    requires InOrder(events) && (events != [] ==> events[|events| - 1].now <= now)
    ensures Refines(Run(Account(active, None, []), windowMs, events),
                    HistoryRun(History(active, None, []), windowMs, events), windowMs, now)
  {
    if events != [] {
      var last := |events| - 1;
      RunRefines(windowMs, active, events[..last], events[last].now);
      StepRefines(Run(Account(active, None, []), windowMs, events[..last]),
                  HistoryRun(History(active, None, []), windowMs, events[..last]),
                  windowMs, events[last].now, events[last]);
    }
  }

  /**
   * After any run of sign-ins, refreshes, logouts and resets, the bounded list accepts a token exactly when
   * it is current, or among the five most recently superseded of this chain and superseded in the window.
   */
  lemma {:induction false} BoundedListIsEnough(windowMs: int, active: bool, events: seq<Timed>, now: int, token: Token)
    requires InOrder(events) && (events != [] ==> events[|events| - 1].now <= now)
    ensures Accepts(Run(Account(active, None, []), windowMs, events), windowMs, now, token)
            <==> Honours(HistoryRun(History(active, None, []), windowMs, events), windowMs, now, token)
  {
    RunRefines(windowMs, active, events, now);
    AcceptsAsHonoured(Run(Account(active, None, []), windowMs, events),
                      HistoryRun(History(active, None, []), windowMs, events), windowMs, now, token);
  }

  // ── What a broken chain forgets ──────────────────────────────────────────

  predicate Mints(t: Timed, token: Token) {
    (t.event.SignIn? && t.event.fresh_ == token) || (t.event.Refresh? && t.event.minted == token)
  }

  predicate Holds(a: Account, token: Token) {
    a.current == Some(token) || Lists(a.recent, token)
  }

  lemma {:induction false} SinceIsPart(s: seq<Superseded>, cutoff: int)
    ensures forall e :: e in Since(s, cutoff) ==> e in s
  {
    if s != [] {
      SinceIsPart(s[..|s| - 1], cutoff);
    }
  }

  lemma {:induction false} OnlyMintingAdds(a: Account, windowMs: int, t: Timed, token: Token)
    requires !Holds(a, token) && !Mints(t, token)
    ensures !Holds(Step(a, windowMs, t), token)
  {
    SinceIsPart(a.recent, t.now - windowMs);
  }

  lemma {:induction false} NeverHeldAgain(a: Account, windowMs: int, events: seq<Timed>, token: Token)
    requires !Holds(a, token) && forall t :: t in events ==> !Mints(t, token)
    ensures !Holds(Run(a, windowMs, events), token)
  {
    if events != [] {
      NeverHeldAgain(a, windowMs, events[..|events| - 1], token);
      OnlyMintingAdds(Run(a, windowMs, events[..|events| - 1]), windowMs, events[|events| - 1], token);
    }
  }

  /** A sign-in, a logout or reset, or an unknown token at a live account. */
  predicate Breaks(a: Account, windowMs: int, t: Timed) {
    t.event.SignIn? || t.event.Clear?
    || (t.event.Refresh? && a.active && a.current.Some? && !Accepts(a, windowMs, t.now, t.event.presented))
  }

  /**
   * Once a chain is broken, no token issued before is accepted again, whatever follows: tokens are unique,
   * so nothing issued from then on is the earlier token.
   */
  lemma {:induction false} BrokenForGood(a: Account, windowMs: int, t: Timed, after: seq<Timed>, now: int, token: Token)
    requires Breaks(a, windowMs, t)
    requires !Mints(t, token) || t.event.Refresh?
    requires forall u :: u in after ==> !Mints(u, token)
    ensures !Accepts(Run(Step(a, windowMs, t), windowMs, after), windowMs, now, token)
  {
    var b := Run(Step(a, windowMs, t), windowMs, after);
    NeverHeldAgain(Step(a, windowMs, t), windowMs, after, token);
    SinceIsPart(b.recent, now - windowMs);
  }

  // ── A grace hit does not extend a token's life ───────────────────────────

  /** Every list entry of a token carries the time it was superseded. */
  ghost predicate SupersededAt(a: Account, token: Token, at: int) {
    a.current != Some(token) && forall e :: e in a.recent && e.token == token ==> e.at == at
  }

  lemma {:induction false} LifetimeKept(a: Account, windowMs: int, events: seq<Timed>, token: Token, at: int)
    requires SupersededAt(a, token, at) && forall t :: t in events ==> !Mints(t, token)
    ensures SupersededAt(Run(a, windowMs, events), token, at)
  {
    if events != [] {
      var last := |events| - 1;
      var b := Run(a, windowMs, events[..last]);
      LifetimeKept(a, windowMs, events[..last], token, at);
      SinceIsPart(b.recent, events[last].now - windowMs);
      assert events[last] in events;
    }
  }

  /**
   * A superseded token is dead once the window after its supersession has passed, however often it was
   * presented and accepted in the meantime.
   */
  lemma {:induction false} GraceNotExtended(a: Account, windowMs: int, t: Timed, after: seq<Timed>, now: int)
    requires t.event.Refresh? && a.current.Some? && Accepts(a, windowMs, t.now, t.event.presented)
    requires !Lists(a.recent, a.current.value)
    requires forall u :: u in [t] + after ==> !Mints(u, a.current.value)
    ensures Accepts(Run(Step(a, windowMs, t), windowMs, after), windowMs, now, a.current.value)
            ==> now <= t.now + windowMs
  {
    var token := a.current.value;
    var b := Step(a, windowMs, t);
    assert t in [t] + after;
    forall u | u in after
      ensures !Mints(u, token)
    {
      assert u in [t] + after;
    }
    SinceIsPart(a.recent, t.now - windowMs);
    LifetimeKept(b, windowMs, after, token, t.now);
    RecentAreLive(Run(b, windowMs, after).recent, now - windowMs);
  }

  lemma {:induction false} RecentAreLive(s: seq<Superseded>, cutoff: int)
    ensures forall e :: e in Since(s, cutoff) ==> e in s && e.at >= cutoff
  {
    if s != [] {
      RecentAreLive(s[..|s| - 1], cutoff);
    }
  }

  // ── Over whole runs with unique tokens ───────────────────────────────────

  /** No token is issued twice. */
  ghost predicate UniqueTokens(events: seq<Timed>) {
    forall i, j, token :: 0 <= i < j < |events| && Mints(events[i], token) ==> !Mints(events[j], token)
  }

  lemma {:induction false} HeldWasMinted(windowMs: int, active: bool, events: seq<Timed>, token: Token)
    requires Holds(Run(Account(active, None, []), windowMs, events), token)
    ensures exists t :: t in events && Mints(t, token)
  {
    if forall t :: t in events ==> !Mints(t, token) {
      NeverHeldAgain(Account(active, None, []), windowMs, events, token);
    }
  }

  lemma {:induction false} NotMintedAgain(windowMs: int, active: bool, events: seq<Timed>, k: nat, token: Token)
    requires UniqueTokens(events) && k < |events|
    requires Holds(Run(Account(active, None, []), windowMs, events[..k]), token)
    ensures forall j :: k <= j < |events| ==> !Mints(events[j], token)
  {
    HeldWasMinted(windowMs, active, events[..k], token);
    var t :| t in events[..k] && Mints(t, token);
    var i :| 0 <= i < k && events[i] == t;
  }

  /** With unique tokens, the current token is never also listed as superseded. */
  lemma {:induction false} CurrentNotListed(windowMs: int, active: bool, events: seq<Timed>)
    requires UniqueTokens(events)
    ensures var a := Run(Account(active, None, []), windowMs, events);
      a.current.Some? ==> !Lists(a.recent, a.current.value)
  {
    if events != [] {
      var last := |events| - 1;
      var before := Run(Account(active, None, []), windowMs, events[..last]);
      CurrentNotListed(windowMs, active, events[..last]);
      var t := events[last];
      if t.event.Refresh? {
        SinceIsPart(before.recent, t.now - windowMs);
        if before.current.Some? {
          NotMintedAgain(windowMs, active, events, last, before.current.value);
        }
        if Holds(before, t.event.minted) {
          NotMintedAgain(windowMs, active, events, last, t.event.minted);
        }
      }
    }
  }

  lemma {:induction false} RunSplits(a: Account, windowMs: int, before: seq<Timed>, after: seq<Timed>)
    ensures Run(a, windowMs, before + after) == Run(Run(a, windowMs, before), windowMs, after)
  {
    if after == [] {
      assert before + after == before;
    } else {
      RunSplits(a, windowMs, before, after[..|after| - 1]);
      assert (before + after)[..|before + after| - 1] == before + after[..|after| - 1];
    }
  }

  /**
   * Over any run with unique tokens: the token that refresh `k` superseded is not accepted later than one window
   * after that refresh, however many grace hits came in between.
   */
  lemma {:induction false} GraceEndsOnTime(windowMs: int, active: bool, events: seq<Timed>, k: nat, now: int)
    requires UniqueTokens(events) && k < |events| && events[k].event.Refresh?
    requires var a := Run(Account(active, None, []), windowMs, events[..k]);
      Accepts(a, windowMs, events[k].now, events[k].event.presented)
    ensures var superseded := Run(Account(active, None, []), windowMs, events[..k]).current.value;
      Accepts(Run(Account(active, None, []), windowMs, events), windowMs, now, superseded)
      ==> now <= events[k].now + windowMs
  {
    hide Accepts, Step, Run, Mints, Lists;
    var start := Account(active, None, []);
    var a := Run(start, windowMs, events[..k]);
    AcceptsIsLive(a, windowMs, events[k].now, events[k].event.presented);
    CurrentNotListed(windowMs, active, events[..k]);
    NotMintedAgain(windowMs, active, events, k, a.current.value);
    var t, after := events[k], events[k + 1..];
    assert forall u :: u in [t] + after ==> u in events[k..];
    RunSplits(start, windowMs, events[..k], events[k..]);
    RunFrom(a, windowMs, t, after);
    assert events == events[..k] + events[k..] && events[k..] == [t] + after;
    GraceNotExtended(a, windowMs, t, after, now);
  }

  lemma {:induction false} RunFrom(a: Account, windowMs: int, t: Timed, after: seq<Timed>)
    ensures Run(a, windowMs, [t] + after) == Run(Step(a, windowMs, t), windowMs, after)
  {
    RunSplits(a, windowMs, [t], after);
    assert [t][..0] == [];
  }

  lemma {:induction false} AcceptsIsLive(a: Account, windowMs: int, now: int, token: Token)
    requires Accepts(a, windowMs, now, token)
    ensures a.current.Some?
  {
  }

  // ── The services, in place ───────────────────────────────────────────────

  /** The credential columns of one account row. */
  class UserRow {
    var active: bool
    var hashedRefreshToken: Option<Token>
    var recentRefreshTokens: seq<Superseded>

    function Columns(): Account
      reads this
    {
      Account(active, hashedRefreshToken, recentRefreshTokens)
    }

    constructor ()
      ensures Columns() == Account(true, None, [])
    {
      active, hashedRefreshToken, recentRefreshTokens := true, None, [];
    }

    method StartRefreshTokenChain(hash: Token)
      modifies this
      ensures Columns() == old(Columns()).(current := Some(hash), recent := [])
    {
      hashedRefreshToken, recentRefreshTokens := Some(hash), [];
    }

    method RotateRefreshToken(newHash: Token, superseded: Option<Token>, recent: seq<Superseded>, now: int)
      modifies this
      ensures Columns() == old(Columns()).(
        current := Some(newHash),
        recent := if superseded.Some? then [Superseded(superseded.value, now)] + recent else recent)
    {
      hashedRefreshToken := Some(newHash);
      recentRefreshTokens := if superseded.Some? then [Superseded(superseded.value, now)] + recent else recent;
    }

    method ClearRefreshTokens()
      modifies this
      ensures Columns() == old(Columns()).(current := None, recent := [])
    {
      hashedRefreshToken, recentRefreshTokens := None, [];
    }

    method MatchesRecentToken(windowMs: int, now: int, presented: Token) returns (matches: bool)
      ensures matches <==> Lists(LiveRecent(recentRefreshTokens, windowMs, now), presented)
    {
      var live := LiveRecent(recentRefreshTokens, windowMs, now);
      for i := 0 to |live|
        invariant forall j :: 0 <= j < i ==> live[j].token != presented
      {
        if live[i].token == presented {
          return true;
        }
      }
      matches := false;
    }

    /** Honours the current token or a recently superseded one; anything else ends the session. */
    method RefreshWith(windowMs: int, now: int, presented: Token, minted: Token) returns (accepted: bool)
      modifies this
      ensures accepted == Accepts(old(Columns()), windowMs, now, presented)
      ensures Columns() == Step(old(Columns()), windowMs, Timed(Refresh(presented, minted), now))
    {
      if !active || hashedRefreshToken.None? {
        return false;
      }
      accepted := hashedRefreshToken.value == presented;
      if !accepted {
        accepted := MatchesRecentToken(windowMs, now, presented);
      }
      if accepted {
        var live := LiveRecent(recentRefreshTokens, windowMs, now);
        RotateRefreshToken(minted, hashedRefreshToken, Take(live, MAX_RECENT_REFRESH_TOKENS - 1), now);
      } else {
        ClearRefreshTokens();
      }
    }
  }
}
