/**
 * The question bank: platform questions shared by every organisation, and the private copies an
 * organisation takes of them when it edits or hides one.
 */
module QuestionForks {
  import opened Wrappers

  type QuestionId = nat
  type ModuleId = nat
  type Org = nat
  type Text = string
  type Options = nat   // the authored options, as one opaque value

  datatype ScoringType = Objective | Trait
  datatype Status = Draft | Active | Archived
  datatype Pattern = Situational | ForcedChoice | TradeOff | Ranking

  datatype Details =
    | Mcq(options: Options, correctOption: Text, difficulty: int)
    | Personality(options: Options, pattern: Option<Pattern>)
    | NoDetails

  datatype Question = Question(
    moduleId: ModuleId,
    text: Text,
    status: Status,
    tags: seq<Text>,
    probeGroup: Option<Text>,
    isSample: bool,
    org: Option<Org>,
    forkedFrom: Option<QuestionId>,
    details: Details)

  datatype McqDto = McqDto(options: Options, correctOption: Text, difficulty: Option<int>)
  datatype PersonalityDto = PersonalityDto(options: Options, pattern: Option<Pattern>)

  datatype CreateDto = CreateDto(
    moduleId: ModuleId, text: Text, status: Option<Status>, tags: Option<seq<Text>>,
    probeGroup: Option<Text>, isSample: Option<bool>, mcq: Option<McqDto>, personality: Option<PersonalityDto>)

  datatype UpdateDto = UpdateDto(
    text: Option<Text>, status: Option<Status>, tags: Option<seq<Text>>,
    probeGroup: Option<Text>, isSample: Option<bool>, mcq: Option<McqDto>, personality: Option<PersonalityDto>)

  datatype Error = NotFound | Forbidden | BadRequest | Conflict

  /** The module catalogue, and the checks on the authored content of a payload. */
  datatype Rules = Rules(
    modules: map<ModuleId, ScoringType>,
    validMcq: McqDto -> bool,
    validPersonality: (ModuleId, PersonalityDto, Option<Pattern>) -> bool)

  type Bank = map<QuestionId, Question>

  const DEFAULT_DIFFICULTY_SCORE: int := 1000

  // ── Visibility ───────────────────────────────────────────────────────────

  predicate IsFork(q: Question, original: QuestionId, org: Org) {
    q.forkedFrom == Some(original) && q.org == Some(org)
  }

  predicate HasFork(bank: Bank, original: QuestionId, org: Org) {
    exists f :: f in bank && IsFork(bank[f], original, org)
  }

  /** An organisation sees its own questions, and the platform questions that it has not forked. */
  predicate Visible(bank: Bank, id: QuestionId, org: Org) {
    id in bank && (bank[id].org == Some(org) || (bank[id].org.None? && !HasFork(bank, id, org)))
  }

  /** Everything an organisation sees, with its content. */
  function View(bank: Bank, org: Org): Bank {
    map id | id in bank && Visible(bank, id, org) :: bank[id]
  }

  // ── Checks ───────────────────────────────────────────────────────────────

  /** The payload has exactly the block its module's scoring type needs, with valid content. */
  predicate PayloadFits(rules: Rules, moduleId: ModuleId, mcq: Option<McqDto>, personality: Option<PersonalityDto>,
                        existingPattern: Option<Pattern>)
  {
    && moduleId in rules.modules
    && (mcq.Some? != personality.Some?)
    && (if rules.modules[moduleId].Objective? then mcq.Some? && rules.validMcq(mcq.value)
        else personality.Some? && rules.validPersonality(moduleId, personality.value, existingPattern))
  }

  /** No sibling in the group, in the same namespace, belongs to another module. */
  predicate ProbeGroupFits(bank: Bank, group: Option<Text>, moduleId: ModuleId, org: Option<Org>,
                           exclude: Option<QuestionId>)
  {
    group.None? || group.value == "" ||
    forall id :: id in bank && bank[id].probeGroup == group && bank[id].org == org && Some(id) != exclude
      ==> bank[id].moduleId == moduleId
  }

  function OrNull(group: Text): Option<Text> {
    if group == "" then None else Some(group)
  }

  function Or<T>(new_: Option<T>, old_: T): T {
    if new_.Some? then new_.value else old_
  }

  // ── Operations ───────────────────────────────────────────────────────────

  /** `id` is the id the database gives the new row. A null organisation creates a platform question. */
  function Create(rules: Rules, bank: Bank, dto: CreateDto, org: Option<Org>, id: QuestionId): Result<Bank, Error> {
    if dto.moduleId !in rules.modules then Err(NotFound)
    else if !PayloadFits(rules, dto.moduleId, dto.mcq, dto.personality, None)
            || (dto.personality.Some? && dto.personality.value.pattern.None?)
            || !ProbeGroupFits(bank, dto.probeGroup, dto.moduleId, org, None) then Err(BadRequest)
    else
      var details := if dto.mcq.Some?
        then Mcq(dto.mcq.value.options, dto.mcq.value.correctOption,
                 Or(dto.mcq.value.difficulty, DEFAULT_DIFFICULTY_SCORE))
        else Personality(dto.personality.value.options, dto.personality.value.pattern);
      Ok(bank[id := Question(dto.moduleId, dto.text, Or(dto.status, Draft), Or(dto.tags, []),
                             OrNull(Or(dto.probeGroup, "")), Or(dto.isSample, false), org, None, details)])
  }

  /** The row a fork inserts: the original's content where `dto` is silent, owned by `org`. */
  function ForkOf(original: Question, originalId: QuestionId, dto: UpdateDto, org: Org): Question {
    var details := match original.details
      case Mcq(options, correct, difficulty) =>
        if dto.mcq.None? then original.details
        else Mcq(dto.mcq.value.options, dto.mcq.value.correctOption, Or(dto.mcq.value.difficulty, difficulty))
      case Personality(options, pattern) =>
        if dto.personality.None? then original.details
        else Personality(dto.personality.value.options,
                         if dto.personality.value.pattern.Some? then dto.personality.value.pattern else pattern)
      case NoDetails => NoDetails;
    Question(original.moduleId, Or(dto.text, original.text), Or(dto.status, original.status),
             Or(dto.tags, original.tags),
             if dto.probeGroup.None? then original.probeGroup else OrNull(dto.probeGroup.value),
             Or(dto.isSample, original.isSample), Some(org), Some(originalId), details)
  }

  /** An organisation's own question, edited in place. */
  function Edited(q: Question, dto: UpdateDto): Question {
    var details :=
      if dto.mcq.Some? && q.details.Mcq? then
        Mcq(dto.mcq.value.options, dto.mcq.value.correctOption, Or(dto.mcq.value.difficulty, q.details.difficulty))
      else if dto.personality.Some? && q.details.Personality? then
        Personality(dto.personality.value.options,
                    if dto.personality.value.pattern.Some? then dto.personality.value.pattern else q.details.pattern)
      else q.details;
    q.(text := Or(dto.text, q.text), status := Or(dto.status, q.status), tags := Or(dto.tags, q.tags),
       probeGroup := if dto.probeGroup.None? then q.probeGroup else OrNull(dto.probeGroup.value),
       isSample := Or(dto.isSample, q.isSample), details := details)
  }

  function PatternOf(q: Question): Option<Pattern> {
    if q.details.Personality? then q.details.pattern else None
  }

  /** The bank after an edit, and the id of the organisation's version of the question. */
  function Update(rules: Rules, bank: Bank, id: QuestionId, dto: UpdateDto, org: Org, forkId: QuestionId)
    : Result<(Bank, QuestionId), Error>
  {
    if !Visible(bank, id, org) then Err(NotFound)
    else
      var target := bank[id];
      if (dto.mcq.Some? || dto.personality.Some?)
         && !PayloadFits(rules, target.moduleId, dto.mcq, dto.personality, PatternOf(target)) then Err(BadRequest)
      else if !ProbeGroupFits(bank, dto.probeGroup, target.moduleId, Some(org),
                              if target.org.None? then None else Some(id)) then Err(BadRequest)
      else if target.org.None? then Ok((bank[forkId := ForkOf(target, id, dto, org)], forkId))
      else Ok((bank[id := Edited(target, dto)], id))
  }

  const NO_CHANGES: UpdateDto := UpdateDto(None, None, None, None, None, None, None)

  function SetStatus(bank: Bank, id: QuestionId, status: Status, org: Org, forkId: QuestionId)
    : Result<(Bank, QuestionId), Error>
  {
    if !Visible(bank, id, org) then Err(NotFound)
    else if bank[id].org.None? then
      Ok((bank[forkId := ForkOf(bank[id], id, NO_CHANGES.(status := Some(status)), org)], forkId))
    else Ok((bank[id := bank[id].(status := status)], id))
  }

  /** Deletes a row; a reference to it from a fork becomes null. */
  function Delete(bank: Bank, id: QuestionId): Bank {
    map q | q in bank && q != id ::
      if bank[q].forkedFrom == Some(id) then bank[q].(forkedFrom := None) else bank[q]
  }

  function Remove(bank: Bank, id: QuestionId, org: Org, answered: bool): Result<Bank, Error> {
    if !Visible(bank, id, org) then Err(NotFound)
    else if bank[id].org.None? then Err(Forbidden)
    else if answered then Err(Conflict)
    else Ok(Delete(bank, id))
  }

  // ── Runs ─────────────────────────────────────────────────────────────────

  datatype Action =
    | DoSeed(seed: CreateDto)
    | DoCreate(createdBy: Org, create: CreateDto)
    | DoUpdate(updatedBy: Org, updated: QuestionId, update: UpdateDto)
    | DoSetStatus(setBy: Org, setOn: QuestionId, status: Status)
    | DoArchive(archivedBy: Org, archived: QuestionId)
    | DoRemove(removedBy: Org, removed: QuestionId, answered: bool)

  /** The organisation an action is taken by; None for the platform's own seeding. */
  function Actor(a: Action): Option<Org> {
    match a
    case DoSeed(_) => None
    case DoCreate(org, _) => Some(org)
    case DoUpdate(org, _, _) => Some(org)
    case DoSetStatus(org, _, _) => Some(org)
    case DoArchive(org, _) => Some(org)
    case DoRemove(org, _, _) => Some(org)
  }

  /** The bank after an action; a refused one changes nothing. `newId` is the id any new row would get. */
  function Apply(rules: Rules, bank: Bank, a: Action, newId: QuestionId): Bank {
    match a
    case DoSeed(dto) => Kept(bank, Create(rules, bank, dto, None, newId))
    case DoCreate(org, dto) => Kept(bank, Create(rules, bank, dto, Some(org), newId))
    case DoUpdate(org, id, dto) => KeptPair(bank, Update(rules, bank, id, dto, org, newId))
    case DoSetStatus(org, id, status) => KeptPair(bank, SetStatus(bank, id, status, org, newId))
    case DoArchive(org, id) => KeptPair(bank, SetStatus(bank, id, Archived, org, newId))
    case DoRemove(org, id, answered) => Kept(bank, Remove(bank, id, org, answered))
  }

  function Kept(bank: Bank, r: Result<Bank, Error>): Bank {
    if r.Ok? then r.value else bank
  }

  function KeptPair(bank: Bank, r: Result<(Bank, QuestionId), Error>): Bank {
    if r.Ok? then r.value.0 else bank
  }

  function Run(rules: Rules, bank: Bank, steps: seq<(Action, QuestionId)>): Bank {
    if steps == [] then bank
    else Apply(rules, Run(rules, bank, steps[..|steps| - 1]), steps[|steps| - 1].0, steps[|steps| - 1].1)
  }

  /** Every new row gets an id that no row has. */
  ghost predicate FreshIds(rules: Rules, bank: Bank, steps: seq<(Action, QuestionId)>) {
    forall k :: 0 <= k < |steps| ==> steps[k].1 !in Run(rules, bank, steps[..k])
  }

  // ── Invariant ────────────────────────────────────────────────────────────

  /** Forks are private copies of platform questions, and an organisation has at most one of each. */
  ghost predicate Inv(bank: Bank) {
    && (forall f :: f in bank && bank[f].forkedFrom.Some? ==>
          && bank[f].org.Some?
          && bank[f].forkedFrom.value in bank && bank[bank[f].forkedFrom.value].org.None?)
    && (forall f, g :: f in bank && g in bank && f != g && bank[f].forkedFrom.Some?
          ==> !(bank[f].forkedFrom == bank[g].forkedFrom && bank[f].org == bank[g].org))
  }

  /** What one action can do to the rows. */
  datatype Change =
    | Nothing
    | Added(question: Question)
    | Edit(edited: QuestionId, content: Question)
    | Deleted(deleted: QuestionId)

  ghost predicate Makes(bank: Bank, after: Bank, actor: Option<Org>, newId: QuestionId, change: Change) {
    match change
    case Nothing => after == bank
    case Added(q) =>
      && after == bank[newId := q] && q.org == actor
      && (q.forkedFrom.Some? ==>
            && actor.Some? && q.forkedFrom.value in bank && bank[q.forkedFrom.value].org.None?
            && !HasFork(bank, q.forkedFrom.value, actor.value))
    case Edit(id, q) =>
      && id in bank && bank[id].org == actor && actor.Some? && after == bank[id := q]
      && q.org == actor && q.forkedFrom == bank[id].forkedFrom
    case Deleted(id) => id in bank && bank[id].org == actor && actor.Some? && after == Delete(bank, id)
  }

  /** Every action adds one row, edits one of its organisation's own, deletes one of those, or does nothing. */
  lemma {:induction false} ApplyMakes(rules: Rules, bank: Bank, a: Action, newId: QuestionId) returns (change: Change)
    ensures Makes(bank, Apply(rules, bank, a, newId), Actor(a), newId, change)
  {
    hide PayloadFits, ProbeGroupFits, HasFork;
    var after := Apply(rules, bank, a, newId);
    if after == bank {
      change := Nothing;
    } else if newId in after && after == bank[newId := after[newId]] && (newId !in bank || a.DoSeed? || a.DoCreate?) {
      change := Added(after[newId]);
    } else if a.DoRemove? {
      change := Deleted(a.removed);
    } else {
      var id := match a case DoUpdate(_, id, _) => id case DoSetStatus(_, id, _) => id case DoArchive(_, id) => id;
      change := if bank[id].org.None? then Added(after[newId]) else Edit(id, after[id]);
    }
  }

  lemma {:induction false} ChangeKeeps(bank: Bank, after: Bank, actor: Option<Org>, newId: QuestionId, change: Change)
    requires Inv(bank) && newId !in bank && Makes(bank, after, actor, newId, change)
    ensures Inv(after)
  {
  }

  lemma {:induction false} ApplyKeeps(rules: Rules, bank: Bank, a: Action, newId: QuestionId)
    requires Inv(bank) && newId !in bank
    ensures Inv(Apply(rules, bank, a, newId))
  {
    hide Apply, Makes, Inv;
    var change := ApplyMakes(rules, bank, a, newId);
    ChangeKeeps(bank, Apply(rules, bank, a, newId), Actor(a), newId, change);
  }

  lemma {:induction false} RunKeeps(rules: Rules, bank: Bank, steps: seq<(Action, QuestionId)>)
    requires Inv(bank) && FreshIds(rules, bank, steps)
    ensures Inv(Run(rules, bank, steps))
  {
    hide Apply;
    if steps != [] {
      var last := |steps| - 1;
      PrefixFresh(rules, bank, steps);
      RunKeeps(rules, bank, steps[..last]);
      ApplyKeeps(rules, Run(rules, bank, steps[..last]), steps[last].0, steps[last].1);
    }
  }

  lemma {:induction false} PrefixFresh(rules: Rules, bank: Bank, steps: seq<(Action, QuestionId)>)
    requires FreshIds(rules, bank, steps) && steps != []
    ensures FreshIds(rules, bank, steps[..|steps| - 1])
    ensures steps[|steps| - 1].1 !in Run(rules, bank, steps[..|steps| - 1])
  {
    var init := steps[..|steps| - 1];
    forall k | 0 <= k < |init|
      ensures init[k].1 !in Run(rules, bank, init[..k])
    {
      assert init[..k] == steps[..k];
    }
  }

  // ── Isolation ────────────────────────────────────────────────────────────

  lemma {:induction false} ForksUntouched(bank: Bank, after: Bank, actor: Option<Org>, newId: QuestionId,
                                          change: Change, id: QuestionId, org: Org)
    requires Inv(bank) && newId !in bank && Makes(bank, after, actor, newId, change)
    requires actor.Some? && actor != Some(org) && id in bank && bank[id].org.None?
    ensures id in after && after[id] == bank[id] && (HasFork(after, id, org) <==> HasFork(bank, id, org))
  {
    assert forall f :: f in bank && IsFork(bank[f], id, org) ==> f in after && IsFork(after[f], id, org);
    assert forall f :: f in after && IsFork(after[f], id, org) ==> f in bank && IsFork(bank[f], id, org);
  }

  lemma {:induction false} OthersUntouched(rules: Rules, bank: Bank, a: Action, newId: QuestionId, org: Org)
    requires Inv(bank) && newId !in bank && Actor(a).Some? && Actor(a) != Some(org)
    ensures View(Apply(rules, bank, a, newId), org) == View(bank, org)
  {
    hide Apply, HasFork;
    var after := Apply(rules, bank, a, newId);
    var change := ApplyMakes(rules, bank, a, newId);
    forall id | id in bank || id in after
      ensures Visible(after, id, org) <==> Visible(bank, id, org)
      ensures Visible(bank, id, org) ==> after[id] == bank[id]
    {
      if id in bank && bank[id].org.None? {
        ForksUntouched(bank, after, Actor(a), newId, change, id, org);
      }
    }
  }

  /**
   * Whatever other organisations do, in any order and number, an organisation keeps seeing exactly the
   * same questions with exactly the same content.
   */
  lemma {:induction false} TenantsAreIsolated(rules: Rules, bank: Bank, steps: seq<(Action, QuestionId)>, org: Org)
    requires Inv(bank) && FreshIds(rules, bank, steps)
    requires forall s :: s in steps ==> Actor(s.0).Some? && Actor(s.0) != Some(org)
    ensures View(Run(rules, bank, steps), org) == View(bank, org)
  {
    hide Apply, View;
    if steps != [] {
      var last := |steps| - 1;
      PrefixFresh(rules, bank, steps);
      assert steps[last] in steps;
      TenantsAreIsolated(rules, bank, steps[..last], org);
      RunKeeps(rules, bank, steps[..last]);
      OthersUntouched(rules, Run(rules, bank, steps[..last]), steps[last].0, steps[last].1, org);
    }
  }

  /** The versions of a platform question that an organisation sees. */
  function Versions(bank: Bank, original: QuestionId, org: Org): set<QuestionId> {
    set id | id in bank && Visible(bank, id, org) && (id == original || IsFork(bank[id], original, org))
  }

  /** In every reachable bank, an organisation sees exactly one version of every platform question. */
  lemma {:induction false} ExactlyOneVersion(rules: Rules, bank: Bank, steps: seq<(Action, QuestionId)>,
                                             original: QuestionId, org: Org)
    requires Inv(bank) && FreshIds(rules, bank, steps)
    requires var after := Run(rules, bank, steps); original in after && after[original].org.None?
    ensures |Versions(Run(rules, bank, steps), original, org)| == 1
  {
    hide Run;
    RunKeeps(rules, bank, steps);
    var after := Run(rules, bank, steps);
    var seen := Versions(after, original, org);
    if HasFork(after, original, org) {
      var f :| f in after && IsFork(after[f], original, org);
      assert seen == {f};
    } else {
      assert seen == {original};
    }
  }

  /** An edit or a status change of a platform question swaps it for a private copy, for this organisation only. */
  lemma {:induction false} EditingForks(rules: Rules, bank: Bank, id: QuestionId, dto: UpdateDto, org: Org,
                                        forkId: QuestionId)
    requires Inv(bank) && forkId !in bank && Visible(bank, id, org) && bank[id].org.None?
    requires Update(rules, bank, id, dto, org, forkId).Ok?
    ensures var (after, version) := Update(rules, bank, id, dto, org, forkId).value;
      && after[id] == bank[id]
      && Visible(after, version, org) && !Visible(after, id, org)
      && Versions(after, id, org) == {version}
      && (forall other :: other != org ==> (Visible(after, id, other) <==> Visible(bank, id, other)))
  {
    var (after, version) := Update(rules, bank, id, dto, org, forkId).value;
    assert IsFork(after[version], id, org);
    forall other | other != org
      ensures HasFork(after, id, other) <==> HasFork(bank, id, other)
    {
      assert forall f :: f in bank && IsFork(bank[f], id, other) ==> f in after && IsFork(after[f], id, other);
    }
  }

  /**
   * Editing through a fork and editing in place come to the same content: the organisation's version after any
   * successful edit is the version it saw, with the requested changes, owned by it and tied to the same original.
   */
  lemma {:induction false} ForkingIsEditing(rules: Rules, bank: Bank, id: QuestionId, dto: UpdateDto, org: Org,
                                            forkId: QuestionId)
    requires Visible(bank, id, org) && Update(rules, bank, id, dto, org, forkId).Ok?
    ensures var (after, version) := Update(rules, bank, id, dto, org, forkId).value;
      && version in after
      && after[version] == Edited(bank[id], dto).(
           org := Some(org), forkedFrom := if bank[id].org.None? then Some(id) else bank[id].forkedFrom)
      && after - {version} == bank - {version}
  {
  }

  /** A status change alters nothing but the status of the organisation's version. */
  lemma {:induction false} StatusChangeOnly(bank: Bank, id: QuestionId, status: Status, org: Org, forkId: QuestionId)
    requires Visible(bank, id, org)
    ensures SetStatus(bank, id, status, org, forkId).Ok?
    ensures var (after, version) := SetStatus(bank, id, status, org, forkId).value;
      && version in after
      && after[version] == bank[id].(
           status := status, org := Some(org),
           forkedFrom := if bank[id].org.None? then Some(id) else bank[id].forkedFrom)
      && after - {version} == bank - {version}
  {
  }

  /** Deleting its fork gives an organisation the platform question back, as it was. */
  lemma {:induction false} RemovingForkRestores(bank: Bank, fork: QuestionId, org: Org, original: QuestionId)
    requires Inv(bank) && fork in bank && IsFork(bank[fork], original, org)
    requires Remove(bank, fork, org, false).Ok?
    ensures var after := Remove(bank, fork, org, false).value;
      && original in after && after[original] == bank[original]
      && Visible(after, original, org) && Versions(after, original, org) == {original}
  {
    var after := Remove(bank, fork, org, false).value;
    assert !HasFork(after, original, org);
  }

  /** A question leaves the bank exactly when its own organisation removes it and nobody has answered it. */
  lemma {:induction false} RemovedIffOwnAndUnanswered(rules: Rules, bank: Bank, id: QuestionId, org: Org,
                                                      answered: bool, newId: QuestionId)
    requires id in bank
    ensures var after := Apply(rules, bank, DoRemove(org, id, answered), newId);
      && (id !in after <==> bank[id].org == Some(org) && !answered)
      && (id in after ==> after == bank)
      && (id !in after ==> after.Keys == bank.Keys - {id})
      && (id !in after && Inv(bank) ==> after == bank - {id})
  {
    if bank[id].org == Some(org) && !answered {
      assert id !in Delete(bank, id);
      if Inv(bank) {
        assert forall q :: q in bank ==> bank[q].forkedFrom != Some(id);
        assert Delete(bank, id) == bank - {id};
      }
    }
  }

  /** Why a removal is refused: out of sight, the platform's, or answered, in that order. */
  lemma {:induction false} RemovalRefused(bank: Bank, id: QuestionId, org: Org, answered: bool)
    ensures var r := Remove(bank, id, org, answered);
      && (r == Err(NotFound) <==> id !in View(bank, org))
      && (r == Err(Forbidden) <==> id in View(bank, org) && bank[id].org.None?)
      && (r == Err(Conflict) <==> id in View(bank, org) && bank[id].org.Some? && answered)
      && (r.Ok? <==> id in bank && bank[id].org == Some(org) && !answered)
  {
  }

  /** A platform question is never changed or deleted by an organisation. */
  lemma {:induction false} PlatformIsReadOnly(rules: Rules, bank: Bank, steps: seq<(Action, QuestionId)>, id: QuestionId)
    requires Inv(bank) && FreshIds(rules, bank, steps) && id in bank && bank[id].org.None?
    ensures id in Run(rules, bank, steps) && Run(rules, bank, steps)[id] == bank[id]
  {
    hide Apply;
    if steps != [] {
      var last := |steps| - 1;
      PrefixFresh(rules, bank, steps);
      PlatformIsReadOnly(rules, bank, steps[..last], id);
      RunKeeps(rules, bank, steps[..last]);
      var change := ApplyMakes(rules, Run(rules, bank, steps[..last]), steps[last].0, steps[last].1);
    }
  }

  // ── What may be authored ─────────────────────────────────────────────────

  /** The group is free, or every question of the owner's that already uses it is in the module. */
  ghost predicate GroupOpen(bank: Bank, group: Option<Text>, owner: Option<Org>, moduleId: ModuleId) {
    group.Some? && group.value != "" ==>
      forall q :: q in bank.Values && q.probeGroup == group && q.org == owner ==> q.moduleId == moduleId
  }

  /**
   * A new question is stored exactly when its module exists, it has the one block that the module's scoring
   * type calls for, valid and - for traits - with a pattern, and its probe group stays in the module. It is
   * then visible to its own organisation alone, and has what was authored.
   */
  lemma {:induction false} CreatedIff(rules: Rules, bank: Bank, dto: CreateDto, org: Org, newId: QuestionId)
    requires newId !in bank
    ensures var after := Apply(rules, bank, DoCreate(org, dto), newId);
      && (newId in after <==>
            && dto.moduleId in rules.modules
            && GroupOpen(bank, dto.probeGroup, Some(org), dto.moduleId)
            && match rules.modules[dto.moduleId]
               case Objective => dto.personality.None? && dto.mcq.Some? && rules.validMcq(dto.mcq.value)
               case Trait =>
                 && dto.mcq.None? && dto.personality.Some? && dto.personality.value.pattern.Some?
                 && rules.validPersonality(dto.moduleId, dto.personality.value, None))
      && (newId !in after ==> after == bank)
      && (newId in after ==>
            && after - {newId} == bank
            && (forall other :: Visible(after, newId, other) <==> other == org)
            && after[newId].text == dto.text && after[newId].moduleId == dto.moduleId
            && (after[newId].status == Active <==> dto.status == Some(Active))
            && (dto.mcq.Some? ==>
                  && after[newId].details.Mcq?
                  && after[newId].details.options == dto.mcq.value.options
                  && after[newId].details.correctOption == dto.mcq.value.correctOption)
            && (dto.personality.Some? ==>
                  after[newId].details == Personality(dto.personality.value.options, dto.personality.value.pattern)))
  {
    GroupOpenFits(bank, dto.probeGroup, dto.moduleId, Some(org), None);
  }

  lemma {:induction false} GroupOpenFits(bank: Bank, group: Option<Text>, moduleId: ModuleId, owner: Option<Org>,
                                         exclude: Option<QuestionId>)
    requires exclude.Some? ==> exclude.value in bank && bank[exclude.value].moduleId == moduleId
    ensures ProbeGroupFits(bank, group, moduleId, owner, exclude) <==> GroupOpen(bank, group, owner, moduleId)
  {
    if GroupOpen(bank, group, owner, moduleId) {
      assert forall id :: id in bank ==> bank[id] in bank.Values;
    }
  }

  /**
   * An edit changes the bank's version for its organisation exactly when the question is in its view, a new
   * block is the one its module calls for and valid - against the stored pattern when it names none - and the
   * probe group named stays in the module. Otherwise the refusal says which.
   */
  lemma {:induction false} EditedIff(rules: Rules, bank: Bank, id: QuestionId, dto: UpdateDto, org: Org, forkId: QuestionId)
    ensures var r := Update(rules, bank, id, dto, org, forkId);
      && (r == Err(NotFound) <==> id !in View(bank, org))
      && (r.Err? ==> r.error in {NotFound, BadRequest})
      && (id in View(bank, org) ==>
            (r.Ok? <==>
              && GroupOpen(bank, dto.probeGroup, Some(org), bank[id].moduleId)
              && (dto.mcq.Some? || dto.personality.Some? ==>
                    && bank[id].moduleId in rules.modules
                    && match rules.modules[bank[id].moduleId]
                       case Objective => dto.personality.None? && dto.mcq.Some? && rules.validMcq(dto.mcq.value)
                       case Trait =>
                         && dto.mcq.None? && dto.personality.Some?
                         && rules.validPersonality(bank[id].moduleId, dto.personality.value, PatternOf(bank[id])))))
  {
    if id in View(bank, org) {
      GroupOpenFits(bank, dto.probeGroup, bank[id].moduleId, Some(org),
                    if bank[id].org.None? then None else Some(id));
    }
  }

  /** An edit gives its organisation's version what it names, and leaves everything it does not name as it was. */
  lemma {:induction false} EditTakesEffect(rules: Rules, bank: Bank, id: QuestionId, dto: UpdateDto, org: Org,
                                           forkId: QuestionId)
    requires DetailsFit(rules, bank) && Update(rules, bank, id, dto, org, forkId).Ok?
    ensures var (after, version) := Update(rules, bank, id, dto, org, forkId).value;
      && version in after && id in bank
      && var q, was := after[version], bank[id];
         && q.moduleId == was.moduleId && q.org == Some(org)
         && (forall text :: dto.text == Some(text) ==> q.text == text) && (dto.text.None? ==> q.text == was.text)
         && (forall st :: dto.status == Some(st) ==> q.status == st) && (dto.status.None? ==> q.status == was.status)
         && (forall tags :: dto.tags == Some(tags) ==> q.tags == tags) && (dto.tags.None? ==> q.tags == was.tags)
         && (dto.probeGroup.None? ==> q.probeGroup == was.probeGroup)
         && (dto.probeGroup == Some("") ==> q.probeGroup.None?)
         && (dto.probeGroup.Some? && dto.probeGroup.value != "" ==> q.probeGroup == dto.probeGroup)
         && (forall b :: dto.isSample == Some(b) ==> q.isSample == b) && (dto.isSample.None? ==> q.isSample == was.isSample)
         && (dto.mcq.None? && dto.personality.None? ==> q.details == was.details)
         && (dto.mcq.Some? ==>
               && q.details.Mcq? && was.details.Mcq?
               && q.details.options == dto.mcq.value.options
               && q.details.correctOption == dto.mcq.value.correctOption
               && Some(q.details.difficulty) in {dto.mcq.value.difficulty, Some(was.details.difficulty)}
               && (dto.mcq.value.difficulty.Some? ==> Some(q.details.difficulty) == dto.mcq.value.difficulty))
         && (dto.personality.Some? ==>
               && q.details.Personality? && was.details.Personality?
               && q.details.options == dto.personality.value.options
               && (dto.personality.value.pattern.Some? ==> q.details.pattern == dto.personality.value.pattern)
               && (dto.personality.value.pattern.None? ==> q.details.pattern == was.details.pattern))
  {
    hide ProbeGroupFits, HasFork;
  }

  /** After an edit that names a probe group, the owner has that group in one module only. */
  lemma {:induction false} NamedGroupInOneModule(rules: Rules, bank: Bank, id: QuestionId, dto: UpdateDto, org: Org,
                                                 forkId: QuestionId)
    requires forkId !in bank && Update(rules, bank, id, dto, org, forkId).Ok?
    requires dto.probeGroup.Some? && dto.probeGroup.value != ""
    ensures var (after, version) := Update(rules, bank, id, dto, org, forkId).value;
      && version in after && after[version].probeGroup == dto.probeGroup
      && forall q :: q in after && after[q].org == Some(org) && after[q].probeGroup == dto.probeGroup ==>
           after[q].moduleId == after[version].moduleId
  {
    hide PayloadFits, HasFork;
  }

  /** Every question has the details that its module's scoring type needs. */
  ghost predicate DetailsFit(rules: Rules, bank: Bank) {
    forall id :: id in bank ==>
      && bank[id].moduleId in rules.modules
      && (if rules.modules[bank[id].moduleId].Objective? then bank[id].details.Mcq? else bank[id].details.Personality?)
  }

  lemma {:induction false} ApplyKeepsDetails(rules: Rules, bank: Bank, a: Action, newId: QuestionId)
    requires DetailsFit(rules, bank)
    ensures DetailsFit(rules, Apply(rules, bank, a, newId))
  {
    hide ProbeGroupFits, HasFork;
  }

  /** No run of authoring, forking and deleting leaves a question without the details its module needs. */
  lemma {:induction false} DetailsFitOverRuns(rules: Rules, steps: seq<(Action, QuestionId)>)
    ensures DetailsFit(rules, Run(rules, map[], steps))
  {
    hide Apply, DetailsFit;
    if steps == [] {
      NothingUnfit(rules);
    } else {
      DetailsFitOverRuns(rules, steps[..|steps| - 1]);
      ApplyKeepsDetails(rules, Run(rules, map[], steps[..|steps| - 1]), steps[|steps| - 1].0, steps[|steps| - 1].1);
    }
  }

  lemma {:induction false} NothingUnfit(rules: Rules)
    ensures DetailsFit(rules, map[])
  {
  }

  // ── The table, in place ──────────────────────────────────────────────────

  /** The questions table; every operation does to it what the function of the same name says. */
  class QuestionTable {
    var rows: Bank

    method CreateQuestion(rules: Rules, dto: CreateDto, org: Option<Org>, id: QuestionId)
      returns (r: Result<QuestionId, Error>)
      modifies this
      ensures match Create(rules, old(rows), dto, org, id)
        case Ok(after) => rows == after && r == Ok(id)
        case Err(e) => rows == old(rows) && r == Err(e)
    {
      if dto.moduleId !in rules.modules {
        return Err(NotFound);
      }
      if !PayloadFits(rules, dto.moduleId, dto.mcq, dto.personality, None)
         || (dto.personality.Some? && dto.personality.value.pattern.None?)
         || !ProbeGroupFits(rows, dto.probeGroup, dto.moduleId, org, None)
      {
        return Err(BadRequest);
      }
      var details := NoDetails;
      if dto.mcq.Some? {
        var mcq := dto.mcq.value;
        details := Mcq(mcq.options, mcq.correctOption, Or(mcq.difficulty, DEFAULT_DIFFICULTY_SCORE));
      } else {
        details := Personality(dto.personality.value.options, dto.personality.value.pattern);
      }
      rows := rows[id := Question(dto.moduleId, dto.text, Or(dto.status, Draft), Or(dto.tags, []),
                                  OrNull(Or(dto.probeGroup, "")), Or(dto.isSample, false), org, None, details)];
      r := Ok(id);
    }

    method ForkPlatformQuestion(originalId: QuestionId, dto: UpdateDto, org: Org, forkId: QuestionId)
      requires originalId in rows
      modifies this
      ensures rows == old(rows)[forkId := ForkOf(old(rows)[originalId], originalId, dto, org)]
    {
      rows := rows[forkId := ForkOf(rows[originalId], originalId, dto, org)];
    }

    method UpdateQuestion(rules: Rules, id: QuestionId, dto: UpdateDto, org: Org, forkId: QuestionId)
      returns (r: Result<QuestionId, Error>)
      modifies this
      ensures match Update(rules, old(rows), id, dto, org, forkId)
        case Ok((after, version)) => rows == after && r == Ok(version)
        case Err(e) => rows == old(rows) && r == Err(e)
    {
      if !Visible(rows, id, org) {
        return Err(NotFound);
      }
      var target := rows[id];
      if (dto.mcq.Some? || dto.personality.Some?)
         && !PayloadFits(rules, target.moduleId, dto.mcq, dto.personality, PatternOf(target))
      {
        return Err(BadRequest);
      }
      if target.org.None? {
        if !ProbeGroupFits(rows, dto.probeGroup, target.moduleId, Some(org), None) {
          return Err(BadRequest);
        }
        ForkPlatformQuestion(id, dto, org, forkId);
        return Ok(forkId);
      }
      if !ProbeGroupFits(rows, dto.probeGroup, target.moduleId, Some(org), Some(id)) {
        return Err(BadRequest);
      }
      rows := rows[id := Edited(target, dto)];
      r := Ok(id);
    }

    method SetStatusOf(id: QuestionId, status: Status, org: Org, forkId: QuestionId)
      returns (r: Result<QuestionId, Error>)
      modifies this
      ensures match SetStatus(old(rows), id, status, org, forkId)
        case Ok((after, version)) => rows == after && r == Ok(version)
        case Err(e) => rows == old(rows) && r == Err(e)
    {
      if !Visible(rows, id, org) {
        return Err(NotFound);
      }
      if rows[id].org.None? {
        ForkPlatformQuestion(id, NO_CHANGES.(status := Some(status)), org, forkId);
        return Ok(forkId);
      }
      rows := rows[id := rows[id].(status := status)];
      r := Ok(id);
    }

    method RemoveQuestion(id: QuestionId, org: Org, responseCount: nat) returns (r: Result<QuestionId, Error>)
      modifies this
      ensures match Remove(old(rows), id, org, responseCount > 0)
        case Ok(after) => rows == after && r == Ok(id)
        case Err(e) => rows == old(rows) && r == Err(e)
    {
      if !Visible(rows, id, org) {
        return Err(NotFound);
      }
      if rows[id].org.None? {
        return Err(Forbidden);
      }
      if responseCount > 0 {
        return Err(Conflict);
      }
      rows := Delete(rows, id);
      r := Ok(id);
    }
  }
}
