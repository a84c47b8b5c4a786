/**
 * Redeeming password-reset links. Looking a link up, claiming it and burning the account's other links are
 * separate database statements, so the steps of any number of callers interleave.
 */
module ResetTokens {
  import opened Wrappers

  const RESET_TOKEN_TTL_MS: int := 60 * 60_000

  type Link = nat
  type UserId = nat
  type Caller = nat

  datatype Row = Row(userId: UserId, expiresAt: int, usedAt: Option<int>)

  /** Where one caller of `resetPassword` is. */
  datatype Phase =
    | LookedUp(link: Link, userId: UserId)
    | Claimed(link: Link, userId: UserId)
    | Burned(userId: UserId)
    | Completed
    | Refused

  /** What the statements did, in order. */
  datatype Entry =
    | Minted(mintedLink: Link, mintedFor: UserId)
    | ClaimedLink(claimedBy: Caller, claimedLink: Link)
    | BurnedAll(burnedBy: Caller, burnedFor: UserId)

  datatype State = State(rows: map<Link, Row>, callers: map<Caller, Phase>, log: seq<Entry>)

  datatype Action =
    | Mint(link: Link, userId: UserId)
    | Lookup(caller: Caller, presented: Link)
    | Claim(claimer: Caller)
    | Burn(burner: Caller)
    | SetPassword(setter: Caller)

  // ── The statements ───────────────────────────────────────────────────────

  predicate Usable(rows: map<Link, Row>, link: Link, now: int) {
    link in rows && rows[link].usedAt.None? && rows[link].expiresAt >= now
  }

  /** `UPDATE ... SET usedAt WHERE id AND usedAt IS NULL` */
  function ClaimRow(rows: map<Link, Row>, link: Link, now: int): map<Link, Row> {
    if link in rows && rows[link].usedAt.None? then rows[link := rows[link].(usedAt := Some(now))] else rows
  }

  /** `UPDATE ... SET usedAt WHERE userId AND usedAt IS NULL` */
  function BurnRows(rows: map<Link, Row>, userId: UserId, now: int): map<Link, Row> {
    map link | link in rows ::
      if rows[link].userId == userId && rows[link].usedAt.None? then rows[link].(usedAt := Some(now)) else rows[link]
  }

  function Next(s: State, a: Action, now: int): State {
    match a
    case Mint(link, userId) =>
      if link in s.rows then s
      else s.(rows := s.rows[link := Row(userId, now + RESET_TOKEN_TTL_MS, None)], log := s.log + [Minted(link, userId)])
    case Lookup(caller, link) =>
      if caller in s.callers then s
      else s.(callers := s.callers[caller := if Usable(s.rows, link, now) then LookedUp(link, s.rows[link].userId)
                                             else Refused])
    case Claim(caller) =>
      if caller !in s.callers || !s.callers[caller].LookedUp? then s
      else
        var link := s.callers[caller].link;
        if ClaimRow(s.rows, link, now) == s.rows then s.(callers := s.callers[caller := Refused])
        else State(ClaimRow(s.rows, link, now), s.callers[caller := Claimed(link, s.callers[caller].userId)],
                   s.log + [ClaimedLink(caller, link)])
    case Burn(caller) =>
      if caller !in s.callers || !s.callers[caller].Claimed? then s
      else
        var userId := s.callers[caller].userId;
        State(BurnRows(s.rows, userId, now), s.callers[caller := Burned(userId)], s.log + [BurnedAll(caller, userId)])
    case SetPassword(caller) =>
      if caller !in s.callers || !s.callers[caller].Burned? then s
      else s.(callers := s.callers[caller := Completed])
  }

  function Run(s: State, steps: seq<(Action, int)>): State {
    if steps == [] then s
    else Next(Run(s, steps[..|steps| - 1]), steps[|steps| - 1].0, steps[|steps| - 1].1)
  }

  const EMPTY: State := State(map[], map[], [])

  // ── Invariant ────────────────────────────────────────────────────────────

  predicate Spent(rows: map<Link, Row>, link: Link) {
    link in rows && rows[link].usedAt.Some?
  }

  /** Every minted link has its row, and every row was minted. */
  ghost predicate MintedStored(rows: map<Link, Row>, log: seq<Entry>) {
    && (forall k :: 0 <= k < |log| && log[k].Minted? ==>
          log[k].mintedLink in rows && rows[log[k].mintedLink].userId == log[k].mintedFor)
    && (forall link :: link in rows ==> Minted(link, rows[link].userId) in log)
  }

  /** Every claimed link is spent. */
  ghost predicate ClaimedSpent(rows: map<Link, Row>, log: seq<Entry>) {
    forall k :: 0 <= k < |log| && log[k].ClaimedLink? ==> Spent(rows, log[k].claimedLink)
  }

  predicate BurnsMinted(log: seq<Entry>, i: nat, j: nat)
    requires i < |log| && j < |log|
  {
    log[i].Minted? && log[j].BurnedAll? && log[i].mintedFor == log[j].burnedFor
  }

  /** Every link minted before a burn of its account is spent. */
  ghost predicate BurnedSpent(rows: map<Link, Row>, log: seq<Entry>) {
    forall i, j :: 0 <= i < j < |log| && BurnsMinted(log, i, j) ==> Spent(rows, log[i].mintedLink)
  }

  predicate WasClaimed(log: seq<Entry>, link: Link) {
    exists k :: 0 <= k < |log| && log[k].ClaimedLink? && log[k].claimedLink == link
  }

  /** The link's account was burned after the link was minted. */
  ghost predicate WasBurned(log: seq<Entry>, link: Link) {
    exists i, j :: 0 <= i < j < |log| && BurnsMinted(log, i, j) && log[i].mintedLink == link
  }

  /** Nothing but a claim of the link, or a burn of its account, spends it. */
  ghost predicate SpentLogged(rows: map<Link, Row>, log: seq<Entry>) {
    forall link :: Spent(rows, link) ==> WasClaimed(log, link) || WasBurned(log, link)
  }

  /** A caller that looked a link up, or has claimed it, knows a stored link and its account. */
  ghost predicate CallersKnow(rows: map<Link, Row>, callers: map<Caller, Phase>) {
    forall caller :: caller in callers && (callers[caller].LookedUp? || callers[caller].Claimed?) ==>
      callers[caller].link in rows && rows[callers[caller].link].userId == callers[caller].userId
  }

  ghost predicate Inv(s: State) {
    && MintedStored(s.rows, s.log) && ClaimedSpent(s.rows, s.log) && BurnedSpent(s.rows, s.log)
    && ClaimedOnce(s.log) && BurnedStayDead(s.log)
    && SpentLogged(s.rows, s.log) && CallersKnow(s.rows, s.callers)
  }

  /** No link is claimed twice. */
  ghost predicate ClaimedOnce(log: seq<Entry>) {
    forall j, k :: 0 <= j < k < |log| && log[j].ClaimedLink? && log[k].ClaimedLink? ==>
      log[j].claimedLink != log[k].claimedLink
  }

  /** A link minted before a burn of its account is not claimed after it. */
  ghost predicate BurnedStayDead(log: seq<Entry>) {
    forall i, j, k :: 0 <= i < j < k < |log| && BurnsMinted(log, i, j) && log[k].ClaimedLink? ==>
      log[i].mintedLink != log[k].claimedLink
  }

  /** Rows are never deleted, handed to another account or un-spent. */
  ghost predicate OnlySpends(rows: map<Link, Row>, rows1: map<Link, Row>) {
    forall link :: link in rows ==>
      link in rows1 && rows1[link].userId == rows[link].userId && (Spent(rows, link) ==> Spent(rows1, link))
  }

  /** What a statement must have done to log an entry. */
  ghost predicate Justified(rows: map<Link, Row>, rows1: map<Link, Row>, e: Entry) {
    match e
    case Minted(link, userId) => link !in rows && rows1.Keys == rows.Keys + {link} && rows1[link].userId == userId
    case ClaimedLink(_, link) => link in rows && !Spent(rows, link) && Spent(rows1, link) && rows1.Keys == rows.Keys
    case BurnedAll(_, userId) =>
      rows1.Keys == rows.Keys && forall link :: link in rows && rows[link].userId == userId ==> Spent(rows1, link)
  }

  lemma {:induction false} EntryKeeps(rows: map<Link, Row>, rows1: map<Link, Row>, log: seq<Entry>, e: Entry)
    requires MintedStored(rows, log) && ClaimedSpent(rows, log) && BurnedSpent(rows, log)
    requires OnlySpends(rows, rows1) && Justified(rows, rows1, e)
    ensures MintedStored(rows1, log + [e]) && ClaimedSpent(rows1, log + [e])
  {
    forall link | link in rows1
      ensures Minted(link, rows1[link].userId) in log + [e]
    {
      if link in rows {
        assert Minted(link, rows[link].userId) in log;
      }
    }
  }

  lemma {:induction false} BurnKeeps(rows: map<Link, Row>, rows1: map<Link, Row>, log: seq<Entry>, e: Entry)
    requires MintedStored(rows, log) && BurnedSpent(rows, log)
    requires OnlySpends(rows, rows1) && Justified(rows, rows1, e)
    ensures BurnedSpent(rows1, log + [e])
  {
    forall i, j | 0 <= i < j < |log + [e]| && BurnsMinted(log + [e], i, j)
      ensures Spent(rows1, (log + [e])[i].mintedLink)
    {
      assert log[i].Minted?;
      if j < |log| {
        assert BurnsMinted(log, i, j);
      }
    }
  }

  lemma {:induction false} ClaimKeeps(rows: map<Link, Row>, rows1: map<Link, Row>, log: seq<Entry>, e: Entry)
    requires ClaimedSpent(rows, log) && BurnedSpent(rows, log) && Justified(rows, rows1, e)
    requires ClaimedOnce(log) && BurnedStayDead(log)
    ensures ClaimedOnce(log + [e]) && BurnedStayDead(log + [e])
  {
    forall i, j, k | 0 <= i < j < k < |log + [e]| && BurnsMinted(log + [e], i, j) && (log + [e])[k].ClaimedLink?
      ensures (log + [e])[i].mintedLink != (log + [e])[k].claimedLink
    {
      assert BurnsMinted(log, i, j);
    }
  }

  /** The links a statement spent, by the entry it logged. */
  ghost predicate SpendsOnly(rows: map<Link, Row>, rows1: map<Link, Row>, e: Entry) {
    forall link :: Spent(rows1, link) && !Spent(rows, link) ==>
      && link in rows
      && match e
         case Minted(_, _) => false
         case ClaimedLink(_, claimed) => link == claimed
         case BurnedAll(_, userId) => rows[link].userId == userId
  }

  lemma {:induction false} SpentKeeps(rows: map<Link, Row>, rows1: map<Link, Row>, log: seq<Entry>, e: Entry)
    requires MintedStored(rows, log) && SpentLogged(rows, log) && SpendsOnly(rows, rows1, e)
    ensures SpentLogged(rows1, log + [e])
  {
    var log1 := log + [e];
    forall link | Spent(rows1, link)
      ensures WasClaimed(log1, link) || WasBurned(log1, link)
    {
      if Spent(rows, link) {
        StaysLogged(log, e, link);
      } else if e.ClaimedLink? {
        assert log1[|log|].claimedLink == link;
      } else {
        assert Minted(link, rows[link].userId) in log;
        var i :| 0 <= i < |log| && log[i] == Minted(link, rows[link].userId);
        assert BurnsMinted(log1, i, |log|);
      }
    }
  }

  lemma {:induction false} StaysLogged(log: seq<Entry>, e: Entry, link: Link)
    ensures WasClaimed(log, link) ==> WasClaimed(log + [e], link)
    ensures WasBurned(log, link) ==> WasBurned(log + [e], link)
  {
    var log1 := log + [e];
    if WasClaimed(log, link) {
      var k :| 0 <= k < |log| && log[k].ClaimedLink? && log[k].claimedLink == link;
      assert log1[k] == log[k];
    }
    if WasBurned(log, link) {
      var i, j :| 0 <= i < j < |log| && BurnsMinted(log, i, j) && log[i].mintedLink == link;
      assert BurnsMinted(log1, i, j);
    }
  }

  lemma {:induction false} CallersKeep(s: State, a: Action, now: int)
    requires CallersKnow(s.rows, s.callers)
    ensures CallersKnow(Next(s, a, now).rows, Next(s, a, now).callers)
  {
  }

  lemma {:induction false} NextKeeps(s: State, a: Action, now: int)
    requires Inv(s)
    ensures Inv(Next(s, a, now))
  {
    var s1 := Next(s, a, now);
    if s1.log != s.log {
      var e := s1.log[|s.log|];
      StepJustified(s, a, now);
      EntryKeeps(s.rows, s1.rows, s.log, e);
      BurnKeeps(s.rows, s1.rows, s.log, e);
      ClaimKeeps(s.rows, s1.rows, s.log, e);
      SpentKeeps(s.rows, s1.rows, s.log, e);
    }
    CallersKeep(s, a, now);
  }

  lemma {:induction false} StepJustified(s: State, a: Action, now: int)
    requires Next(s, a, now).log != s.log
    ensures var s1 := Next(s, a, now);
      && |s1.log| == |s.log| + 1 && s1.log == s.log + [s1.log[|s.log|]]
      && OnlySpends(s.rows, s1.rows) && Justified(s.rows, s1.rows, s1.log[|s.log|])
      && SpendsOnly(s.rows, s1.rows, s1.log[|s.log|])
  {
  }

  /**
   * For any number of callers and any interleaving of their steps: each link is claimed at most once, and
   * once a redemption has burned an account's links, no link minted before that burn is ever claimed.
   */
  lemma {:induction false} RedemptionIsSafe(steps: seq<(Action, int)>)
    ensures Inv(Run(EMPTY, steps))
    ensures ClaimedOnce(Run(EMPTY, steps).log) && BurnedStayDead(Run(EMPTY, steps).log)
  {
    if steps != [] {
      RedemptionIsSafe(steps[..|steps| - 1]);
      NextKeeps(Run(EMPTY, steps[..|steps| - 1]), steps[|steps| - 1].0, steps[|steps| - 1].1);
    }
  }

  /** A claim looks at its own row alone. */
  lemma {:induction false} ClaimSucceedsIffUnspent(s: State, caller: Caller, now: int)
    requires caller in s.callers && s.callers[caller].LookedUp? && s.callers[caller].link in s.rows
    ensures Next(s, Claim(caller), now).callers[caller].Claimed?
            <==> !Spent(s.rows, s.callers[caller].link)
  {
    var link := s.callers[caller].link;
    if !Spent(s.rows, link) {
      assert ClaimRow(s.rows, link, now)[link] != s.rows[link];
    }
  }

  /**
   * In every reachable state, the claim of a looked-up link succeeds if and only if nobody has claimed that
   * link and no redemption has burned its account since it was minted - however many other links of the
   * account are claimed and not yet burned, and whether or not the link has expired since the lookup.
   */
  lemma {:induction false} ClaimSucceedsIffAlive(steps: seq<(Action, int)>, caller: Caller, now: int)
    requires var s := Run(EMPTY, steps); caller in s.callers && s.callers[caller].LookedUp?
    ensures var s := Run(EMPTY, steps); var link := s.callers[caller].link;
      Next(s, Claim(caller), now).callers[caller].Claimed?
      <==> !WasClaimed(s.log, link) && !WasBurned(s.log, link)
  {
    hide Next, MintedStored, ClaimedOnce, BurnedStayDead;
    var s := Run(EMPTY, steps);
    RedemptionIsSafe(steps);
    ClaimSucceedsIffUnspent(s, caller, now);
  }

  /**
   * So of two looked-up links of one account, the second can be claimed after the first, with no burn in
   * between, exactly when it could be claimed before.
   */
  lemma {:induction false} SecondLinkUnaffected(steps: seq<(Action, int)>, a: Caller, b: Caller, now: int, later: int)
    requires var s := Run(EMPTY, steps);
      && a in s.callers && s.callers[a].LookedUp? && b in s.callers && s.callers[b].LookedUp?
      && s.callers[a].link != s.callers[b].link
    ensures var s := Run(EMPTY, steps);
      Next(Next(s, Claim(a), now), Claim(b), later).callers[b].Claimed?
      <==> !WasClaimed(s.log, s.callers[b].link) && !WasBurned(s.log, s.callers[b].link)
  {
    hide Inv, WasClaimed, WasBurned;
    var s := Run(EMPTY, steps);
    ClaimSucceedsIffAlive(steps, b, later);
    ClaimsApart(s, a, b, now, later);
  }

  lemma {:induction false} ClaimsApart(s: State, a: Caller, b: Caller, now: int, later: int)
    requires a in s.callers && s.callers[a].LookedUp? && b in s.callers && s.callers[b].LookedUp?
    requires s.callers[a].link != s.callers[b].link
    ensures Next(Next(s, Claim(a), now), Claim(b), later).callers[b].Claimed?
            <==> Next(s, Claim(b), later).callers[b].Claimed?
  {
    var first, link := Next(s, Claim(a), now), s.callers[b].link;
    assert link in first.rows <==> link in s.rows;
    assert link in s.rows ==> first.rows[link] == s.rows[link];
    ClaimChanges(s.rows, link, later);
    ClaimChanges(first.rows, link, later);
  }

  lemma {:induction false} ClaimChanges(rows: map<Link, Row>, link: Link, now: int)
    ensures ClaimRow(rows, link, now) != rows <==> link in rows && !Spent(rows, link)
  {
    if link in rows && !Spent(rows, link) {
      assert ClaimRow(rows, link, now)[link] != rows[link];
    }
  }

  lemma {:induction false} RunNext(s: State, steps: seq<(Action, int)>, step: (Action, int))
    ensures Run(s, steps + [step]) == Next(Run(s, steps), step.0, step.1)
    ensures Run(s, []) == s
  {
    assert (steps + [step])[..|steps|] == steps;
  }

  lemma {:induction false} TwoLinksCanBothBeRedeemed()
    ensures exists steps ::
      Run(EMPTY, steps).callers == map[1 := Claimed(10, 7), 2 := Claimed(20, 7)]
  {
    hide Run;
    var s1 := Next(EMPTY, Mint(10, 7), 0);
    var s2 := Next(s1, Mint(20, 7), 0);
    var s3 := Next(s2, Lookup(1, 10), 1);
    var s4 := Next(s3, Lookup(2, 20), 1);
    ClaimSucceedsIffUnspent(s4, 1, 2);
    var s5 := Next(s4, Claim(1), 2);
    ClaimSucceedsIffUnspent(s5, 2, 3);
    var s6 := Next(s5, Claim(2), 3);
    var a: seq<(Action, int)> := [(Mint(10, 7), 0)];
    var b := a + [(Mint(20, 7), 0)];
    var c := b + [(Lookup(1, 10), 1)];
    var d := c + [(Lookup(2, 20), 1)];
    var e := d + [(Claim(1), 2)];
    var f := e + [(Claim(2), 3)];
    RunNext(EMPTY, [], a[0]);
    RunNext(EMPTY, a, b[1]);
    RunNext(EMPTY, b, c[2]);
    RunNext(EMPTY, c, d[3]);
    RunNext(EMPTY, d, e[4]);
    RunNext(EMPTY, e, f[5]);
    assert [] + a == a;
    assert s6.callers == map[1 := Claimed(10, 7), 2 := Claimed(20, 7)];
  }

  /**
   * In every reachable state, the burn of a caller that claimed a link spends every link of that link's
   * account and changes no other account's.
   */
  lemma {:induction false} BurnSpendsTheAccount(steps: seq<(Action, int)>, caller: Caller, now: int)
    requires var s := Run(EMPTY, steps); caller in s.callers && s.callers[caller].Claimed?
    ensures var s := Run(EMPTY, steps); var link, rows1 := s.callers[caller].link, Next(s, Burn(caller), now).rows;
      && link in s.rows && rows1.Keys == s.rows.Keys
      && forall l :: l in s.rows ==>
           if s.rows[l].userId == s.rows[link].userId then Spent(rows1, l) else rows1[l] == s.rows[l]
  {
    RedemptionIsSafe(steps);
  }

  // ── Expiry, from the steps ───────────────────────────────────────────────

  /** Step `j` is the one that minted the link, and `deadline` is an hour after it. */
  predicate MintedAt(steps: seq<(Action, int)>, j: nat, link: Link, userId: UserId, deadline: int) {
    && j < |steps| && steps[j].0 == Mint(link, userId) && deadline == steps[j].1 + 3_600_000
    && forall k :: 0 <= k < j ==> !(steps[k].0.Mint? && steps[k].0.link == link)
  }

  /** Step `i` is a lookup of the link by the caller, within an hour of the step that minted it. */
  ghost predicate TimelyLookup(steps: seq<(Action, int)>, i: nat, caller: Caller, link: Link) {
    && i < |steps| && steps[i].0 == Lookup(caller, link)
    && exists j: nat, userId: UserId, deadline: int ::
         j < i && MintedAt(steps, j, link, userId, deadline) && steps[i].1 <= deadline
  }

  /** Rows expire an hour after the step that minted them. */
  ghost predicate RowsTraced(steps: seq<(Action, int)>, rows: map<Link, Row>) {
    && (forall link :: link in rows ==>
          exists j: nat :: MintedAt(steps, j, link, rows[link].userId, rows[link].expiresAt))
    && (forall k :: 0 <= k < |steps| && steps[k].0.Mint? ==> steps[k].0.link in rows)
  }

  /** Whoever holds a link, or has claimed one, looked it up in time. */
  ghost predicate LookupsTraced(steps: seq<(Action, int)>, s: State) {
    && (forall caller :: caller in s.callers && (s.callers[caller].LookedUp? || s.callers[caller].Claimed?) ==>
          exists i: nat :: TimelyLookup(steps, i, caller, s.callers[caller].link))
    && (forall k :: 0 <= k < |s.log| && s.log[k].ClaimedLink? ==>
          exists i: nat :: TimelyLookup(steps, i, s.log[k].claimedBy, s.log[k].claimedLink))
  }

  lemma {:induction false} MintedLater(steps: seq<(Action, int)>, step: (Action, int), j: nat, link: Link, userId: UserId,
                                       deadline: int)
    requires MintedAt(steps, j, link, userId, deadline)
    ensures MintedAt(steps + [step], j, link, userId, deadline)
  {
  }

  lemma {:induction false} LookupLater(steps: seq<(Action, int)>, step: (Action, int), i: nat, caller: Caller, link: Link)
    requires TimelyLookup(steps, i, caller, link)
    ensures TimelyLookup(steps + [step], i, caller, link)
  {
    hide MintedAt;
    var j: nat, userId: UserId, deadline: int :|
      j < i && MintedAt(steps, j, link, userId, deadline) && steps[i].1 <= deadline;
    MintedLater(steps, step, j, link, userId, deadline);
    assert (steps + [step])[i] == steps[i];
  }

  /** A statement leaves the owner and the expiry of every row alone, and only minting adds one. */
  lemma {:induction false} NextRows(s: State, a: Action, now: int)
    ensures var rows1 := Next(s, a, now).rows;
      && (forall link :: link in s.rows ==>
            link in rows1 && rows1[link].userId == s.rows[link].userId && rows1[link].expiresAt == s.rows[link].expiresAt)
      && (forall link :: link in rows1 && link !in s.rows ==>
            a.Mint? && a.link == link && rows1[link].userId == a.userId && rows1[link].expiresAt == now + 3_600_000)
      && (a.Mint? ==> a.link in rows1)
  {
  }

  lemma {:induction false} NextRowsTraced(steps: seq<(Action, int)>, s: State, step: (Action, int))
    requires RowsTraced(steps, s.rows)
    ensures RowsTraced(steps + [step], Next(s, step.0, step.1).rows)
  {
    hide Next;
    NextRows(s, step.0, step.1);
    var all, rows1 := steps + [step], Next(s, step.0, step.1).rows;
    forall link | link in rows1
      ensures exists j: nat :: MintedAt(all, j, link, rows1[link].userId, rows1[link].expiresAt)
    {
      if link in s.rows {
        var j: nat :| MintedAt(steps, j, link, s.rows[link].userId, s.rows[link].expiresAt);
        MintedLater(steps, step, j, link, s.rows[link].userId, s.rows[link].expiresAt);
      } else {
        assert forall k :: 0 <= k < |steps| ==> all[k] == steps[k];
        assert MintedAt(all, |steps|, link, rows1[link].userId, rows1[link].expiresAt);
      }
    }
  }

  /** What one statement does to the phases and the log. */
  lemma {:induction false} NextLookups(s: State, a: Action, now: int)
    ensures var s1 := Next(s, a, now);
      && (forall caller :: caller in s1.callers && (s1.callers[caller].LookedUp? || s1.callers[caller].Claimed?) ==>
            || (caller in s.callers && (s.callers[caller].LookedUp? || s.callers[caller].Claimed?)
                && s1.callers[caller].link == s.callers[caller].link)
            || (a == Lookup(caller, s1.callers[caller].link) && s1.callers[caller].link in s.rows
                && now <= s.rows[s1.callers[caller].link].expiresAt))
      && s.log <= s1.log && |s1.log| <= |s.log| + 1
      && (|s1.log| > |s.log| && s1.log[|s.log|].ClaimedLink? ==>
            var e := s1.log[|s.log|];
            e.claimedBy in s.callers && s.callers[e.claimedBy].LookedUp? && s.callers[e.claimedBy].link == e.claimedLink)
  {
  }

  lemma {:induction false} NextLookupsTraced(steps: seq<(Action, int)>, s: State, step: (Action, int))
    requires RowsTraced(steps, s.rows) && LookupsTraced(steps, s)
    ensures LookupsTraced(steps + [step], Next(s, step.0, step.1))
  {
    hide Next, TimelyLookup, MintedAt;
    NextLookups(s, step.0, step.1);
    var all, s1 := steps + [step], Next(s, step.0, step.1);
    forall caller | caller in s1.callers && (s1.callers[caller].LookedUp? || s1.callers[caller].Claimed?)
      ensures exists i: nat :: TimelyLookup(all, i, caller, s1.callers[caller].link)
    {
      var link := s1.callers[caller].link;
      if caller in s.callers && (s.callers[caller].LookedUp? || s.callers[caller].Claimed?)
         && s.callers[caller].link == link
      {
        var i: nat :| TimelyLookup(steps, i, caller, link);
        LookupLater(steps, step, i, caller, link);
      } else {
        LookedUpNow(steps, s.rows, step, caller, link);
      }
    }
    forall k | 0 <= k < |s1.log| && s1.log[k].ClaimedLink?
      ensures exists i: nat :: TimelyLookup(all, i, s1.log[k].claimedBy, s1.log[k].claimedLink)
    {
      var e := s1.log[k];
      assert k < |s.log| ==> s.log[k] == e;
      var i: nat :| TimelyLookup(steps, i, e.claimedBy, e.claimedLink);
      LookupLater(steps, step, i, e.claimedBy, e.claimedLink);
    }
  }

  lemma {:induction false} LookedUpNow(steps: seq<(Action, int)>, rows: map<Link, Row>, step: (Action, int),
                                       caller: Caller, link: Link)
    requires RowsTraced(steps, rows) && step.0 == Lookup(caller, link)
    requires link in rows && step.1 <= rows[link].expiresAt
    ensures TimelyLookup(steps + [step], |steps|, caller, link)
  {
    hide MintedAt;
    var j: nat :| MintedAt(steps, j, link, rows[link].userId, rows[link].expiresAt);
    MintedLater(steps, step, j, link, rows[link].userId, rows[link].expiresAt);
    assert (steps + [step])[|steps|] == step;
  }

  lemma {:induction false} RunStepsTraced(steps: seq<(Action, int)>)
    ensures RowsTraced(steps, Run(EMPTY, steps).rows) && LookupsTraced(steps, Run(EMPTY, steps))
  {
    hide Next, RowsTraced, LookupsTraced;
    if steps == [] {
      NothingTraced();
    } else {
      var last := |steps| - 1;
      RunStepsTraced(steps[..last]);
      NextRowsTraced(steps[..last], Run(EMPTY, steps[..last]), steps[last]);
      NextLookupsTraced(steps[..last], Run(EMPTY, steps[..last]), steps[last]);
      assert steps[..last] + [steps[last]] == steps;
    }
  }

  lemma {:induction false} NothingTraced()
    ensures RowsTraced([], EMPTY.rows) && LookupsTraced([], EMPTY)
  {
  }

  /** The link was minted at most an hour before `now`. */
  ghost predicate MintedWithinHour(steps: seq<(Action, int)>, link: Link, now: int) {
    exists j: nat, userId: UserId, deadline: int :: MintedAt(steps, j, link, userId, deadline) && now <= deadline
  }

  /**
   * In every reachable state, a new caller's lookup succeeds if and only if the link was minted within the
   * hour, nobody has claimed it, and no redemption has burned its account since. The caller then holds that
   * very link and the account it was minted for.
   */
  lemma {:induction false} LookupSucceedsIff(steps: seq<(Action, int)>, caller: Caller, link: Link, now: int)
    requires caller !in Run(EMPTY, steps).callers
    ensures var s := Run(EMPTY, steps); var phase := Next(s, Lookup(caller, link), now).callers[caller];
      && (phase.LookedUp? || phase.Refused?)
      && (phase.LookedUp? <==>
            MintedWithinHour(steps, link, now) && !WasClaimed(s.log, link) && !WasBurned(s.log, link))
      && (phase.LookedUp? ==>
            phase.link == link && exists j: nat, deadline: int :: MintedAt(steps, j, link, phase.userId, deadline))
  {
    hide WasClaimed, WasBurned;
    var s := Run(EMPTY, steps);
    RunStepsTraced(steps);
    RedemptionIsSafe(steps);
    SpentIffDead(s, link);
    if MintedWithinHour(steps, link, now) {
      var j: nat, userId: UserId, deadline: int :| MintedAt(steps, j, link, userId, deadline) && now <= deadline;
      assert steps[j].0.link in s.rows;
      var k: nat :| MintedAt(steps, k, link, s.rows[link].userId, s.rows[link].expiresAt);
      assert j == k;
    }
  }

  /** In a state that keeps the invariant, a stored link is spent exactly when it was claimed or burned. */
  lemma {:induction false} SpentIffDead(s: State, link: Link)
    requires Inv(s)
    ensures link in s.rows ==> (Spent(s.rows, link) <==> WasClaimed(s.log, link) || WasBurned(s.log, link))
  {
  }

  /** Every link that was ever claimed was looked up by its claimer within an hour of being minted. */
  lemma {:induction false} ClaimedWasTimely(steps: seq<(Action, int)>, k: nat)
    requires var log := Run(EMPTY, steps).log; k < |log| && log[k].ClaimedLink?
    ensures var e := Run(EMPTY, steps).log[k]; exists i: nat :: TimelyLookup(steps, i, e.claimedBy, e.claimedLink)
  {
    hide TimelyLookup;
    RunStepsTraced(steps);
  }

  // ── The table, in place ──────────────────────────────────────────────────

  class ResetTokenTable {
    var rows: map<Link, Row>

    method MintLink(link: Link, userId: UserId, now: int) returns (stored: bool)
      modifies this
      ensures stored == (link !in old(rows))
      ensures rows == if stored then old(rows)[link := Row(userId, now + RESET_TOKEN_TTL_MS, None)] else old(rows)
    {
      stored := link !in rows;
      if stored {
        rows := rows[link := Row(userId, now + RESET_TOKEN_TTL_MS, None)];
      }
    }

    method ClaimUnused(link: Link, now: int) returns (affected: nat)
      modifies this
      ensures rows == ClaimRow(old(rows), link, now)
      ensures affected == if link in old(rows) && !Spent(old(rows), link) then 1 else 0
    {
      affected := 0;
      if link in rows && rows[link].usedAt.None? {
        rows := rows[link := rows[link].(usedAt := Some(now))];
        affected := 1;
      }
    }

    method BurnAll(userId: UserId, now: int)
      modifies this
      ensures rows == BurnRows(old(rows), userId, now)
    {
      var todo := rows.Keys;
      ghost var before := rows;
      while todo != {}
        invariant todo <= before.Keys && rows.Keys == before.Keys
        invariant forall link :: link in todo ==> rows[link] == before[link]
        invariant forall link :: link in before.Keys - todo ==> rows[link] == BurnRows(before, userId, now)[link]
        decreases |todo|
      {
        var link :| link in todo;
        if rows[link].userId == userId && rows[link].usedAt.None? {
          rows := rows[link := rows[link].(usedAt := Some(now))];
        }
        todo := todo - {link};
      }
    }

    /** One call of `resetPassword` that nothing interleaves with: it redeems a usable link and spends the rest. */
    method ResetPassword(link: Link, now: int) returns (redeemedFor: Option<UserId>)
      modifies this
      ensures redeemedFor.Some? <==>
                link in old(rows) && old(rows)[link].usedAt.None? && now <= old(rows)[link].expiresAt
      ensures redeemedFor.None? ==> rows == old(rows)
      ensures redeemedFor.Some? ==>
        && redeemedFor.value == old(rows)[link].userId
        && rows == BurnRows(old(rows), redeemedFor.value, now)
        && (forall l :: l in rows && rows[l].userId == redeemedFor.value ==> Spent(rows, l))
    {
      if !Usable(rows, link, now) {
        return None;
      }
      var userId := rows[link].userId;
      var affected := ClaimUnused(link, now);
      if affected == 0 {
        return None;
      }
      BurnAll(userId, now);
      redeemedFor := Some(userId);
      assert rows == BurnRows(old(rows), userId, now);
    }
  }
}
