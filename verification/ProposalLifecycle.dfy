/** The life of the proposals on one location: creation, votes, moderator
    decisions, direct edits, takedowns and account erasure, each one transaction
    under the location's row lock. */
module ProposalLifecycle {
  import opened Common
  import opened ParkingEdits
  import opened ProposalCodec
  import opened Publication

  type UserId = nat
  type ProposalId = nat

  datatype Place = Active | PendingReview | Flagged | Invalid | Removed

  datatype Status = Pending | Approved | Rejected | Superseded

  datatype Vote = For | Against

  /** `proposer` is forgotten when the account is erased; `author` is who that was.
      `editsAt` is how many direct edits had been made when it was. */
  datatype Proposal = Proposal(
    proposer: Option<UserId>,
    author: UserId,
    baseVersion: int,
    kind: ProposalKind,
    change: ProposedChange,
    status: Status,
    escalated: bool,
    votes: map<UserId, Vote>,
    editsAt: nat)

  datatype Decider = Moderator(user: UserId) | Community(approvers: set<UserId>)

  datatype Published = Published(id: ProposalId, baseVersion: int, decider: Decider, applied: Application)

  /** `edits` counts the direct edits so far; `history` is every publication, in order. */
  datatype State = State(
    version: int,
    edits: nat,
    place: Place,
    proposals: map<ProposalId, Proposal>,
    eligible: set<UserId>,
    erased: set<UserId>,
    history: seq<Published>)

  datatype Refusal =
    | NoSuchProposal | PlaceNotActive | VersionMoved | Conflict | OwnProposal | NotEligible
    | WrongState | StaleProposal | NotMergeable

  const COMMUNITY_APPROVALS_TO_PUBLISH: nat := 6

  // ---------------------------------------------------------------------------
  // The transactions
  // ---------------------------------------------------------------------------

  /** Every pending proposal but `except` is superseded. */
  function Supersede(proposals: map<ProposalId, Proposal>, except: Option<ProposalId>): map<ProposalId, Proposal> {
    map id | id in proposals ::
      if proposals[id].status == Pending && Some(id) != except then proposals[id].(status := Superseded)
        else proposals[id]
  }

  function PlaceAfter(place: Place, applied: Application): Place {
    if applied.ApplyExistence? then (if applied.present then Active else Removed) else place
  }

  function Create(s: State, id: ProposalId, user: UserId, base: int, kind: ProposalKind,
                  change: ProposedChange): Result<State, Refusal>
  {
    if s.place != Active then Err(PlaceNotActive)
    else if s.version != base then Err(VersionMoved)
    else if user !in s.eligible then Err(NotEligible)
    else if id in s.proposals then Err(Conflict)
    else Ok(s.(proposals :=
        s.proposals[id := Proposal(Some(user), user, base, kind, change, Pending, false, map[], s.edits)]))
  }

  /** The shared publisher: only a pending proposal, made against the version the
      location still has, of the kind being applied, and not by its own proposer. */
  function Publish(s: State, id: ProposalId, actor: UserId, applied: Application,
                   decider: Decider): Result<State, Refusal>
  {
    if id !in s.proposals then Err(NoSuchProposal)
    else
      var p := s.proposals[id];
      if p.status != Pending then Err(WrongState)
      else if p.baseVersion != s.version then Err(StaleProposal)
      else if p.kind != KindOf(applied) || p.proposer == Some(actor) then Err(WrongState)
      else if applied.ApplyEdit? && s.place != Active then Err(StaleProposal)
      else Ok(s.(version := s.version + 1,
                 place := PlaceAfter(s.place, applied),
                 proposals := Supersede(s.proposals, Some(id))[id := p.(status := Approved)],
                 history := s.history + [Published(id, p.baseVersion, decider, applied)]))
  }

  /** The eligible accounts whose live vote approves. */
  function Approvers(p: Proposal, eligible: set<UserId>): set<UserId> {
    set u | u in p.votes && p.votes[u] == For && u in eligible
  }

  function CastVote(s: State, zones: ZoneTable, id: ProposalId, voter: UserId, vote: Vote): Result<State, Refusal> {
    if id !in s.proposals then Err(NoSuchProposal)
    else if s.place != Active then Err(PlaceNotActive)
    else
      var p := s.proposals[id];
      if p.baseVersion != s.version then Err(VersionMoved)
      else if p.status != Pending then Err(Conflict)
      else if p.proposer == Some(voter) then Err(OwnProposal)
      else if voter !in s.eligible then Err(NotEligible)
      else
        var voted := p.(votes := p.votes[voter := vote]);
        var next := s.(proposals := s.proposals[id := voted]);
        var approvers := Approvers(voted, s.eligible);
        if |approvers| < COMMUNITY_APPROVALS_TO_PUBLISH || p.escalated then Ok(next)
        else
          var applied := Merge(zones, p.kind, p.change, KEEP_ALL);
          if applied.Err? then Ok(s.(proposals := s.proposals[id := voted.(escalated := true)]))
          else Publish(next, id, voter, applied.value, Community(approvers))
  }

  /** A moderator's approval merges what was retyped over what was proposed. An
      erased account has no role or session left to approve with. */
  function Approve(s: State, zones: ZoneTable, id: ProposalId, moderator: UserId,
                   over: ProposalOverride): Result<State, Refusal>
  {
    if moderator in s.erased then Err(NotEligible)
    else if id !in s.proposals then Err(NoSuchProposal)
    else
      var applied := Merge(zones, s.proposals[id].kind, s.proposals[id].change, over);
      if applied.Err? then Err(NotMergeable) else Publish(s, id, moderator, applied.value, Moderator(moderator))
  }

  function Reject(s: State, id: ProposalId): Result<State, Refusal> {
    if id !in s.proposals || s.proposals[id].status != Pending then Err(WrongState)
    else Ok(s.(proposals := s.proposals[id := s.proposals[id].(status := Rejected)]))
  }

  /** The direct edit path bumps the version and leaves proposals alone. */
  function DirectEdit(s: State, expected: int): Result<State, Refusal> {
    if s.place != Active then Err(PlaceNotActive)
    else if s.version != expected then Err(VersionMoved)
    else Ok(s.(version := s.version + 1, edits := s.edits + 1))
  }

  /** Takedown and restoration: bump the version, retire every pending proposal. */
  function SetPlace(s: State, from: set<Place>, to: Place): Result<State, Refusal> {
    if s.place !in from then Err(WrongState)
    else Ok(s.(version := s.version + 1, place := to, proposals := Supersede(s.proposals, None)))
  }

  /** Erasure forgets the account as proposer and deletes its votes. */
  function Erase(s: State, user: UserId): State {
    s.(eligible := s.eligible - {user}, erased := s.erased + {user},
       proposals := map id | id in s.proposals ::
         var p := s.proposals[id];
         p.(proposer := if p.proposer == Some(user) then None else p.proposer, votes := p.votes - {user}))
  }

  /** Suspension, restoration and verification change who is eligible. */
  function SetEligible(s: State, user: UserId, on: bool): State {
    if user in s.erased then s
    else s.(eligible := if on then s.eligible + {user} else s.eligible - {user})
  }

  datatype Step =
    | DoCreate(id: ProposalId, user: UserId, base: int, kind: ProposalKind, change: ProposedChange)
    | DoVote(id: ProposalId, user: UserId, vote: Vote)
    | DoApprove(id: ProposalId, user: UserId, over: ProposalOverride)
    | DoReject(id: ProposalId)
    | DoEdit(expected: int)
    | DoSetPlace(from: set<Place>, to: Place)
    | DoErase(user: UserId)
    | DoSetEligible(user: UserId, on: bool)

  function Kept(s: State, r: Result<State, Refusal>): State {
    if r.Ok? then r.value else s
  }

  /** A refused transaction changes nothing. */
  function Apply(s: State, zones: ZoneTable, step: Step): State {
    match step
    case DoCreate(id, user, base, kind, change) => Kept(s, Create(s, id, user, base, kind, change))
    case DoVote(id, user, vote) => Kept(s, CastVote(s, zones, id, user, vote))
    case DoApprove(id, user, over) => Kept(s, Approve(s, zones, id, user, over))
    case DoReject(id) => Kept(s, Reject(s, id))
    case DoEdit(expected) => Kept(s, DirectEdit(s, expected))
    case DoSetPlace(from, to) => Kept(s, SetPlace(s, from, to))
    case DoErase(user) => Erase(s, user)
    case DoSetEligible(user, on) => SetEligible(s, user, on)
  }

  function Run(s: State, zones: ZoneTable, steps: seq<Step>): State
    decreases |steps|
  {
    if steps == [] then s else Run(Apply(s, zones, steps[0]), zones, steps[1..])
  }

  /** A freshly created location. */
  const CREATED: State := State(1, 0, Active, map[], {}, {}, [])

  // ---------------------------------------------------------------------------
  // What every transaction keeps
  // ---------------------------------------------------------------------------

  /** The direct edits made after the proposal. */
  function EditsSince(s: State, p: Proposal): int {
    s.edits - p.editsAt
  }

  /** A pending proposal stands on an active location, and is behind the version by
      exactly the direct edits made since. */
  ghost predicate PendingIsCurrent(s: State) {
    forall id :: id in s.proposals ==>
      && EditsSince(s, s.proposals[id]) >= 0
      && (s.proposals[id].status == Pending ==>
            s.place == Active && s.proposals[id].baseVersion + EditsSince(s, s.proposals[id]) == s.version)
  }

  /** Nobody's own proposal ever carries their vote. */
  ghost predicate AuthorsDoNotVote(s: State) {
    && s.eligible !! s.erased
    && forall id :: id in s.proposals ==>
         && s.proposals[id].author !in s.proposals[id].votes
         && (s.proposals[id].proposer == Some(s.proposals[id].author) || s.proposals[id].author in s.erased)
  }

  /** Publications consume versions one after the other, each by a moderator who
      is not the author or by enough distinct approvers other than the author. */
  ghost predicate HistoryIsOrdered(s: State) {
    && (forall i, j :: 0 <= i < j < |s.history| ==> s.history[i].baseVersion < s.history[j].baseVersion)
    && (forall i :: 0 <= i < |s.history| ==>
          && s.history[i].baseVersion < s.version
          && s.history[i].id in s.proposals
          && s.proposals[s.history[i].id].status == Approved
          && s.proposals[s.history[i].id].baseVersion == s.history[i].baseVersion
          && DecidedFairly(s.history[i].decider, s.proposals[s.history[i].id].author))
  }

  predicate DecidedFairly(decider: Decider, author: UserId) {
    match decider
    case Moderator(user) => user != author
    case Community(approvers) => |approvers| >= COMMUNITY_APPROVALS_TO_PUBLISH && author !in approvers
  }

  /** Every approved proposal was published. */
  ghost predicate ApprovedWasPublished(s: State) {
    forall id :: id in s.proposals && s.proposals[id].status == Approved ==>
      exists i :: 0 <= i < |s.history| && s.history[i].id == id
  }

  ghost predicate Inv(s: State) {
    PendingIsCurrent(s) && AuthorsDoNotVote(s) && HistoryIsOrdered(s) && ApprovedWasPublished(s)
  }

  lemma PublishKeepsHistory(s: State, id: ProposalId, actor: UserId, applied: Application, decider: Decider)
    requires HistoryIsOrdered(s) && Publish(s, id, actor, applied, decider).Ok?
    requires DecidedFairly(decider, s.proposals[id].author)
    ensures HistoryIsOrdered(Publish(s, id, actor, applied, decider).value)
  {
  }

  lemma PublishKeepsApproved(s: State, id: ProposalId, actor: UserId, applied: Application, decider: Decider)
    requires ApprovedWasPublished(s) && Publish(s, id, actor, applied, decider).Ok?
    ensures ApprovedWasPublished(Publish(s, id, actor, applied, decider).value)
  {
    var next := Publish(s, id, actor, applied, decider).value;
    assert next.history[|s.history|].id == id;
    forall q | q in next.proposals && next.proposals[q].status == Approved && q != id
      ensures exists i :: 0 <= i < |next.history| && next.history[i].id == q
    {
      var i :| 0 <= i < |s.history| && s.history[i].id == q;
      assert next.history[i].id == q;
    }
  }

  lemma PublishKeepsInv(s: State, id: ProposalId, actor: UserId, applied: Application, decider: Decider)
    requires Inv(s) && Publish(s, id, actor, applied, decider).Ok?
    requires DecidedFairly(decider, s.proposals[id].author)
    ensures Inv(Publish(s, id, actor, applied, decider).value)
  {
    PublishKeepsHistory(s, id, actor, applied, decider);
    PublishKeepsApproved(s, id, actor, applied, decider);
  }

  lemma VoteKeepsInv(s: State, zones: ZoneTable, id: ProposalId, voter: UserId, vote: Vote)
    requires Inv(s) && CastVote(s, zones, id, voter, vote).Ok?
    ensures Inv(CastVote(s, zones, id, voter, vote).value)
  {
    var p := s.proposals[id];
    var voted := p.(votes := p.votes[voter := vote]);
    assert voter != p.author;
    var next := s.(proposals := s.proposals[id := voted]);
    NewVotesKeepInv(s, id, voted);
    var approvers := Approvers(voted, s.eligible);
    if |approvers| >= COMMUNITY_APPROVALS_TO_PUBLISH && !p.escalated {
      var applied := Merge(zones, p.kind, p.change, KEEP_ALL);
      if applied.Ok? {
        PublishKeepsInv(next, id, voter, applied.value, Community(approvers));
      } else {
        NewVotesKeepInv(s, id, voted.(escalated := true));
      }
    }
  }

  /** Changing one proposal's votes or flags, but nothing the invariants read. */
  lemma NewVotesKeepInv(s: State, id: ProposalId, q: Proposal)
    requires Inv(s) && id in s.proposals
    requires q == s.proposals[id].(votes := q.votes, escalated := q.escalated) && q.author !in q.votes
    ensures Inv(s.(proposals := s.proposals[id := q]))
  {
  }

  lemma RejectKeepsInv(s: State, id: ProposalId)
    requires Inv(s) && Reject(s, id).Ok?
    ensures Inv(Reject(s, id).value)
  {
  }

  lemma CreateKeepsInv(s: State, id: ProposalId, user: UserId, base: int, kind: ProposalKind, change: ProposedChange)
    requires Inv(s) && Create(s, id, user, base, kind, change).Ok?
    ensures Inv(Create(s, id, user, base, kind, change).value)
  {
  }

  lemma EditKeepsInv(s: State, expected: int)
    requires Inv(s) && DirectEdit(s, expected).Ok?
    ensures Inv(DirectEdit(s, expected).value)
  {
  }

  lemma SetPlaceKeepsInv(s: State, from: set<Place>, to: Place)
    requires Inv(s) && SetPlace(s, from, to).Ok?
    ensures Inv(SetPlace(s, from, to).value)
  {
  }

  lemma EraseKeepsInv(s: State, user: UserId)
    requires Inv(s)
    ensures Inv(Erase(s, user))
  {
  }

  lemma StepKeepsInv(s: State, zones: ZoneTable, step: Step)
    requires Inv(s)
    ensures Inv(Apply(s, zones, step))
  {
    if Apply(s, zones, step) != s {
      match step
      case DoCreate(id, user, base, kind, change) => CreateKeepsInv(s, id, user, base, kind, change);
      case DoVote(id, user, vote) => VoteKeepsInv(s, zones, id, user, vote);
      case DoApprove(id, user, over) =>
        var applied := Merge(zones, s.proposals[id].kind, s.proposals[id].change, over).value;
        PublishKeepsInv(s, id, user, applied, Moderator(user));
      case DoReject(id) => RejectKeepsInv(s, id);
      case DoEdit(expected) => EditKeepsInv(s, expected);
      case DoSetPlace(from, to) => SetPlaceKeepsInv(s, from, to);
      case DoErase(user) => EraseKeepsInv(s, user);
      case DoSetEligible(user, on) =>
    }
  }

  lemma {:induction false} RunKeepsInv(s: State, zones: ZoneTable, steps: seq<Step>)
    requires Inv(s)
    ensures Inv(Run(s, zones, steps))
    decreases |steps|
  {
    if steps == [] {
    } else {
      StepKeepsInv(s, zones, steps[0]);
      RunKeepsInv(Apply(s, zones, steps[0]), zones, steps[1..]);
    }
  }

  // ---------------------------------------------------------------------------
  // Over every run
  // ---------------------------------------------------------------------------

  /** No two publications, by moderators or the community, share a base version;
      each was decided by a moderator other than the author or by six others, and
      its proposal is approved to this day. */
  lemma PublicationsConsumeVersions(zones: ZoneTable, steps: seq<Step>, i: nat, j: nat)
    requires i < |Run(CREATED, zones, steps).history| && j < |Run(CREATED, zones, steps).history|
    ensures var s := Run(CREATED, zones, steps);
            && (i != j ==> s.history[i].baseVersion != s.history[j].baseVersion && s.history[i].id != s.history[j].id)
            && s.history[i].id in s.proposals && s.proposals[s.history[i].id].status == Approved
            && var author, decider := s.proposals[s.history[i].id].author, s.history[i].decider;
               && (decider.Moderator? ==> decider.user != author)
               && (decider.Community? ==> |decider.approvers| >= 6 && author !in decider.approvers)
  {
    RunKeepsInv(CREATED, zones, steps);
  }

  lemma StepNeverRewinds(s: State, zones: ZoneTable, step: Step)
    ensures Apply(s, zones, step).version >= s.version
    ensures s.history <= Apply(s, zones, step).history
    ensures forall id :: id in s.proposals ==> id in Apply(s, zones, step).proposals
    ensures forall id :: id in s.proposals && s.proposals[id].status != Pending ==>
              Apply(s, zones, step).proposals[id].status == s.proposals[id].status
  {
  }

  /** The version never decreases, publications are never undone, and a decided
      proposal never changes status again. */
  lemma {:induction false} NothingIsRewound(s: State, zones: ZoneTable, steps: seq<Step>)
    ensures var end := Run(s, zones, steps);
            && end.version >= s.version && s.history <= end.history
            && forall id :: id in s.proposals ==>
                 && id in end.proposals
                 && (s.proposals[id].status != Pending ==> end.proposals[id].status == s.proposals[id].status)
    decreases |steps|
  {
    if steps == [] {
    } else {
      StepNeverRewinds(s, zones, steps[0]);
      NothingIsRewound(Apply(s, zones, steps[0]), zones, steps[1..]);
    }
  }

  /** A vote publishes exactly when it brings the eligible approvals to six, the
      proposal was not escalated before and the stored change merges; everyone
      counted voted for it, is eligible, and is not its author. */
  lemma VotePublishesAtSix(s: State, zones: ZoneTable, id: ProposalId, voter: UserId, vote: Vote)
    requires Inv(s) && CastVote(s, zones, id, voter, vote).Ok?
    ensures var p := s.proposals[id];
            var approvers := Approvers(p.(votes := p.votes[voter := vote]), s.eligible);
            var next := CastVote(s, zones, id, voter, vote).value;
            && (|next.history| > |s.history| <==>
                  |approvers| >= 6 && !p.escalated && Merge(zones, p.kind, p.change, KEEP_ALL).Ok?)
            && (|next.history| > |s.history| ==>
                  && next.history == s.history +
                       [Published(id, p.baseVersion, Community(approvers),
                           Merge(zones, p.kind, p.change, KEEP_ALL).value)]
                  && next.version == s.version + 1)
            && approvers <= s.eligible && p.author !in approvers
  {
  }

  /** The publisher's last check cannot fail: while a proposal is pending its
      location is active, so pending, current, of this kind and not one's own is
      all it takes. */
  lemma PublishNeedsOnly(s: State, id: ProposalId, actor: UserId, applied: Application, decider: Decider)
    requires Inv(s) && id in s.proposals
    ensures var p := s.proposals[id];
            Publish(s, id, actor, applied, decider).Ok? <==>
              p.status == Pending && EditsSince(s, p) == 0 && p.kind == KindOf(applied) && p.proposer != Some(actor)
  {
  }

  // --- Direct edits are what makes a proposal stale ----------------------------

  ghost predicate Stale(s: State, id: ProposalId) {
    id in s.proposals && s.proposals[id].status == Pending && s.proposals[id].baseVersion != s.version
  }

  /** A pending proposal is out of date exactly when the location was edited
      directly since it was made. */
  lemma StaleMeansEdited(zones: ZoneTable, steps: seq<Step>, id: ProposalId)
    ensures var s := Run(CREATED, zones, steps);
            id in s.proposals && s.proposals[id].status == Pending ==>
                (Stale(s, id) <==> EditsSince(s, s.proposals[id]) > 0)
  {
    RunKeepsInv(CREATED, zones, steps);
  }

  lemma {:induction false} WithoutEdits(s: State, zones: ZoneTable, steps: seq<Step>)
    requires forall i :: 0 <= i < |steps| ==> !steps[i].DoEdit?
    ensures Run(s, zones, steps).edits == s.edits
    decreases |steps|
  {
    if steps == [] {
    } else {
      assert forall i :: 0 <= i < |steps[1..]| ==> steps[1..][i] == steps[i + 1];
      WithoutEdits(Apply(s, zones, steps[0]), zones, steps[1..]);
    }
  }

  /** As long as nobody edits directly, no pending proposal is ever stale: takedown,
      restoration and publication retire the ones they would leave behind. */
  lemma NothingGoesStaleWithoutEdits(zones: ZoneTable, steps: seq<Step>, id: ProposalId)
    requires forall i :: 0 <= i < |steps| ==> !steps[i].DoEdit?
    ensures !Stale(Run(CREATED, zones, steps), id)
  {
    RunKeepsInv(CREATED, zones, steps);
    WithoutEdits(CREATED, zones, steps);
  }

  ghost predicate Stranded(s: State, id: ProposalId) {
    && id in s.proposals
    && s.proposals[id].status != Approved
    && (s.proposals[id].status == Pending ==> s.proposals[id].baseVersion < s.version)
  }

  /** A proposal a direct edit leaves behind can never be approved afterwards. */
  lemma {:induction false} StrandedForGood(s: State, zones: ZoneTable, steps: seq<Step>, id: ProposalId)
    requires Stranded(s, id)
    ensures Stranded(Run(s, zones, steps), id)
    decreases |steps|
  {
    if steps == [] {
    } else {
      StrandedForGood(Apply(s, zones, steps[0]), zones, steps[1..], id);
    }
  }

  lemma DirectEditStrands(s: State, expected: int, id: ProposalId)
    requires Inv(s) && DirectEdit(s, expected).Ok?
    requires id in s.proposals && s.proposals[id].status == Pending
    ensures Stale(DirectEdit(s, expected).value, id) && Stranded(DirectEdit(s, expected).value, id)
  {
  }

  // --- Escalation ---------------------------------------------------------------

  ghost predicate AllMerge(s: State, zones: ZoneTable) {
    forall id :: id in s.proposals ==>
      !s.proposals[id].escalated && Merge(zones, s.proposals[id].kind, s.proposals[id].change, KEEP_ALL).Ok?
  }

  /** If only changes that merge as stored are ever proposed, the community never has
      to escalate one. */
  lemma {:induction false} NothingEscalates(s: State, zones: ZoneTable, steps: seq<Step>)
    requires AllMerge(s, zones)
    requires forall i :: 0 <= i < |steps| && steps[i].DoCreate? ==>
              Merge(zones, steps[i].kind, steps[i].change, KEEP_ALL).Ok?
    ensures AllMerge(Run(s, zones, steps), zones)
    decreases |steps|
  {
    if steps == [] {
    } else {
      assert forall i :: 0 <= i < |steps[1..]| ==> steps[1..][i] == steps[i + 1];
      StepKeepsMerging(s, zones, steps[0]);
      NothingEscalates(Apply(s, zones, steps[0]), zones, steps[1..]);
    }
  }

  lemma StepKeepsMerging(s: State, zones: ZoneTable, step: Step)
    requires AllMerge(s, zones)
    requires step.DoCreate? ==> Merge(zones, step.kind, step.change, KEEP_ALL).Ok?
    ensures AllMerge(Apply(s, zones, step), zones)
  {
  }

  // --- From submission to publication -------------------------------------------

  /** The proposal is what the contribution service made of `sub`. */
  predicate MadeFrom(format: TimeFormat, zones: ZoneTable, step: Step, sub: Submission) {
    step.DoCreate? ==>
      var made := Submitted(format, zones, sub);
      && made.Ok?
      && step.user == made.value.proposer && step.kind == made.value.kind && step.base == made.value.baseVersion
      && step.change == PayloadFrom(format, made.value.kind, made.value.proposed).change
  }

  /** The step that created the proposal. */
  predicate Creates(step: Step, id: ProposalId, p: Proposal) {
    step.DoCreate? && step.id == id && step.kind == p.kind && step.change == p.change
  }

  lemma StepKeepsContent(s: State, zones: ZoneTable, step: Step, id: ProposalId)
    requires id in Apply(s, zones, step).proposals
    ensures var p := Apply(s, zones, step).proposals[id];
            if id in s.proposals then s.proposals[id].kind == p.kind && s.proposals[id].change == p.change
            else Creates(step, id, p)
  {
  }

  /** Every proposal has the kind and change it was created with. */
  lemma {:induction false} ContentIsCreated(s: State, zones: ZoneTable, steps: seq<Step>, id: ProposalId)
    requires id in Run(s, zones, steps).proposals
    ensures var p := Run(s, zones, steps).proposals[id];
            if id in s.proposals then s.proposals[id].kind == p.kind && s.proposals[id].change == p.change
            else exists i :: 0 <= i < |steps| && Creates(steps[i], id, p)
    decreases |steps|
  {
    if steps == [] {
    } else {
      var next, p := Apply(s, zones, steps[0]), Run(s, zones, steps).proposals[id];
      ContentIsCreated(next, zones, steps[1..], id);
      if id in next.proposals {
        StepKeepsContent(s, zones, steps[0], id);
      } else {
        StepNeverRewinds(s, zones, steps[0]);
        var i :| 0 <= i < |steps[1..]| && Creates(steps[1..][i], id, p);
        assert Creates(steps[i + 1], id, p);
      }
    }
  }

  /** What the community published is the stored change, merged as it stands. */
  ghost predicate AppliedAsStored(s: State, zones: ZoneTable) {
    forall i :: 0 <= i < |s.history| ==>
      && s.history[i].id in s.proposals
      && var p := s.proposals[s.history[i].id];
         s.history[i].decider.Community? ==> Merge(zones, p.kind, p.change, KEEP_ALL) == Ok(s.history[i].applied)
  }

  lemma PublishKeepsApplied(s: State, zones: ZoneTable, id: ProposalId, actor: UserId, applied: Application,
                            decider: Decider)
    requires AppliedAsStored(s, zones) && Publish(s, id, actor, applied, decider).Ok?
    requires decider.Community? ==> Merge(zones, s.proposals[id].kind, s.proposals[id].change, KEEP_ALL) == Ok(applied)
    ensures AppliedAsStored(Publish(s, id, actor, applied, decider).value, zones)
  {
  }

  lemma QuietStepKeepsApplied(s: State, zones: ZoneTable, step: Step)
    requires AppliedAsStored(s, zones) && Apply(s, zones, step).history == s.history
    ensures AppliedAsStored(Apply(s, zones, step), zones)
  {
    StepNeverRewinds(s, zones, step);
    forall id | id in s.proposals
      ensures var p := Apply(s, zones, step).proposals[id];
              s.proposals[id].kind == p.kind && s.proposals[id].change == p.change
    {
      StepKeepsContent(s, zones, step, id);
    }
  }

  lemma StepKeepsApplied(s: State, zones: ZoneTable, step: Step)
    requires AppliedAsStored(s, zones)
    ensures AppliedAsStored(Apply(s, zones, step), zones)
  {
    if Apply(s, zones, step).history == s.history {
      QuietStepKeepsApplied(s, zones, step);
    } else if step.DoApprove? {
      var applied := Merge(zones, s.proposals[step.id].kind, s.proposals[step.id].change, step.over).value;
      PublishKeepsApplied(s, zones, step.id, step.user, applied, Moderator(step.user));
    } else {
      assert step.DoVote?;
      VoteKeepsApplied(s, zones, step.id, step.user, step.vote);
    }
  }

  lemma VoteKeepsApplied(s: State, zones: ZoneTable, id: ProposalId, voter: UserId, vote: Vote)
    requires AppliedAsStored(s, zones) && CastVote(s, zones, id, voter, vote).Ok?
    requires CastVote(s, zones, id, voter, vote).value.history != s.history
    ensures AppliedAsStored(CastVote(s, zones, id, voter, vote).value, zones)
  {
    var p := s.proposals[id];
    var voted := p.(votes := p.votes[voter := vote]);
    var next := s.(proposals := s.proposals[id := voted]);
    assert AppliedAsStored(next, zones);
    var applied := Merge(zones, p.kind, p.change, KEEP_ALL).value;
    PublishKeepsApplied(next, zones, id, voter, applied, Community(Approvers(voted, s.eligible)));
  }

  lemma {:induction false} RunKeepsApplied(s: State, zones: ZoneTable, steps: seq<Step>)
    requires AppliedAsStored(s, zones)
    ensures AppliedAsStored(Run(s, zones, steps), zones)
    decreases |steps|
  {
    if steps == [] {
    } else {
      StepKeepsApplied(s, zones, steps[0]);
      RunKeepsApplied(Apply(s, zones, steps[0]), zones, steps[1..]);
    }
  }

  /** The run creates only what the service stored for `subs`. */
  predicate ServiceRun(format: TimeFormat, zones: ZoneTable, steps: seq<Step>, subs: seq<Submission>) {
    |subs| == |steps| && forall i :: 0 <= i < |steps| ==> MadeFrom(format, zones, steps[i], subs[i])
  }

  lemma ServiceProposalMerges(format: TimeFormat, zones: ZoneTable, step: Step, sub: Submission)
    requires format.RoundTrips() && zones.RoundTrips()
    ensures MadeFrom(format, zones, step, sub) && step.DoCreate? ==>
              Asked(format, zones, sub).Some? &&
              Merge(zones, step.kind, step.change, KEEP_ALL) == Ok(Asked(format, zones, sub).value)
  {
    if MadeFrom(format, zones, step, sub) && step.DoCreate? {
      AcceptedSubmissionPublishes(format, zones, sub);
    }
  }

  /** A proposal in such a run merges untouched into what one of the submissions, the one
      it was created from, asked for. */
  lemma OriginOf(format: TimeFormat, zones: ZoneTable, steps: seq<Step>, subs: seq<Submission>, id: ProposalId)
    returns (i: nat)
    requires format.RoundTrips() && zones.RoundTrips() && ServiceRun(format, zones, steps, subs)
    requires id in Run(CREATED, zones, steps).proposals
    ensures var p := Run(CREATED, zones, steps).proposals[id];
            && i < |steps| && Creates(steps[i], id, p) && Asked(format, zones, subs[i]).Some?
            && Merge(zones, p.kind, p.change, KEEP_ALL) == Ok(Asked(format, zones, subs[i]).value)
  {
    ContentIsCreated(CREATED, zones, steps, id);
    i :| 0 <= i < |steps| && Creates(steps[i], id, Run(CREATED, zones, steps).proposals[id]);
    ServiceProposalMerges(format, zones, steps[i], subs[i]);
  }

  lemma ProposeFirst(zones: ZoneTable, kind: ProposalKind, change: ProposedChange) returns (steps: seq<Step>)
    ensures steps == [DoSetEligible(0, true), DoCreate(0, 0, 1, kind, change)]
    ensures var s := Run(CREATED, zones, steps); 0 in s.proposals && s.proposals[0].status == Pending
  {
    var enable, create := DoSetEligible(0, true), DoCreate(0, 0, 1, kind, change);
    var s1 := Apply(CREATED, zones, enable);
    assert s1.eligible == {0} && s1.proposals == map[] && s1.version == 1 && s1.place == Active;
    var s2 := Apply(s1, zones, create);
    steps := [enable, create];
    assert steps[1..] == [create] && [create][1..] == [];
    assert Run(s2, zones, []) == s2;
    assert Run(s1, zones, [create]) == s2;
  }

  /** What a submission of a valid edit on a fresh location is stored as. */
  lemma SubmitFirst(format: TimeFormat, zones: ZoneTable, edit: ParkingEdit) returns (sub: Submission, p: NewProposal)
    requires format.RoundTrips() && ParkingEdits.Valid(edit)
    ensures Submitted(format, zones, sub) == Ok(p) && p.proposer == 0 && p.baseVersion == 1
    ensures Asked(format, zones, sub) == Some(ApplyEdit(Canonical(edit)))
  {
    var ports := Ports(true, true, Some(Location(1, true)), None, Some(0), true);
    AcceptedEditPublishes(format, zones, ports, 0, 0, 1, edit);
    sub := SubmitEdit(ports, 0, 0, 1, edit);
    p := Submitted(format, zones, sub).value;
  }

  lemma RunFirst(format: TimeFormat, zones: ZoneTable, sub: Submission, p: NewProposal) returns (steps: seq<Step>)
    requires Submitted(format, zones, sub) == Ok(p) && p.proposer == 0 && p.baseVersion == 1
    ensures ServiceRun(format, zones, steps, [sub, sub])
    ensures var s := Run(CREATED, zones, steps); 0 in s.proposals && s.proposals[0].status == Pending
  {
    steps := ProposeFirst(zones, p.kind, PayloadFrom(format, p.kind, p.proposed).change);
  }

  /** Such runs exist: every valid edit, submitted on a fresh location by an eligible
      account, becomes a pending proposal. */
  lemma ValidEditBecomesProposal(format: TimeFormat, zones: ZoneTable, edit: ParkingEdit)
    requires format.RoundTrips() && ParkingEdits.Valid(edit)
    ensures exists steps, sub ::
              && ServiceRun(format, zones, steps, [sub, sub])
              && Asked(format, zones, sub) == Some(ApplyEdit(Canonical(edit)))
              && 0 in Run(CREATED, zones, steps).proposals
              && Run(CREATED, zones, steps).proposals[0].status == Pending
  {
    var sub, p := SubmitFirst(format, zones, edit);
    var steps := RunFirst(format, zones, sub, p);
  }

  /** What the community publishes is exactly what was asked for. */
  lemma CommunityPublishesAsAsked(format: TimeFormat, zones: ZoneTable, steps: seq<Step>, subs: seq<Submission>, k: nat)
    requires format.RoundTrips() && zones.RoundTrips() && ServiceRun(format, zones, steps, subs)
    ensures var s := Run(CREATED, zones, steps);
            k < |s.history| && s.history[k].decider.Community? ==>
              exists i :: && 0 <= i < |steps| && steps[i].DoCreate? && steps[i].id == s.history[k].id
                          && Asked(format, zones, subs[i]) == Some(s.history[k].applied)
  {
    RunKeepsApplied(CREATED, zones, steps);
    var s := Run(CREATED, zones, steps);
    if k < |s.history| && s.history[k].decider.Community? {
      var i := OriginOf(format, zones, steps, subs, s.history[k].id);
    }
  }

  /** End to end: whatever the service accepted, and whatever else happened since, the
      community publishes it at the sixth eligible approval, and any moderator who is
      neither erased nor its proposer can publish it untouched, as exactly what was asked
      for, as long as it is pending and the location was not edited directly since. */
  lemma AcceptedProposalsPublish(format: TimeFormat, zones: ZoneTable, steps: seq<Step>, subs: seq<Submission>,
                                 id: ProposalId, user: UserId)
    requires format.RoundTrips() && zones.RoundTrips() && ServiceRun(format, zones, steps, subs)
    ensures var s := Run(CREATED, zones, steps);
            id in s.proposals ==>
              var p := s.proposals[id];
              var approvers := Approvers(p.(votes := p.votes[user := For]), s.eligible);
              var voted, approved := CastVote(s, zones, id, user, For), Approve(s, zones, id, user, KEEP_ALL);
              && !p.escalated
              && (approved.Ok? <==>
                    p.status == Pending && EditsSince(s, p) == 0 && p.proposer != Some(user) && user !in s.erased)
              && (voted.Ok? ==> (voted.value.proposals[id].status == Approved <==> |approvers| >= 6))
              && exists i :: && 0 <= i < |steps| && Creates(steps[i], id, p) && Asked(format, zones, subs[i]).Some?
                             && (approved.Ok? ==>
                                   approved.value.history == s.history +
                                     [Published(id, p.baseVersion, Moderator(user),
                                         Asked(format, zones, subs[i]).value)])
  {
    forall i | 0 <= i < |steps| && steps[i].DoCreate?
      ensures Merge(zones, steps[i].kind, steps[i].change, KEEP_ALL).Ok?
    {
      ServiceProposalMerges(format, zones, steps[i], subs[i]);
    }
    NothingEscalates(CREATED, zones, steps);
    RunKeepsInv(CREATED, zones, steps);
    var s := Run(CREATED, zones, steps);
    if id in s.proposals {
      var p := s.proposals[id];
      var i := OriginOf(format, zones, steps, subs, id);
      PublishNeedsOnly(s, id, user, Merge(zones, p.kind, p.change, KEEP_ALL).value, Moderator(user));
    }
  }

  // ---------------------------------------------------------------------------
  // The transactions, statement by statement
  // ---------------------------------------------------------------------------

  class Listing {
    const zones: ZoneTable
    var version: int
    var edits: nat
    var place: Place
    var proposals: map<ProposalId, Proposal>
    var eligible: set<UserId>
    var erased: set<UserId>
    var history: seq<Published>

    ghost function View(): State
      reads this
    {
      State(version, edits, place, proposals, eligible, erased, history)
    }

    constructor (zones: ZoneTable)
      ensures View() == CREATED && this.zones == zones
    {
      this.zones := zones;
      version, edits, place, proposals, eligible, erased, history := 1, 0, Active, map[], {}, {}, [];
    }

    method SupersedePending(except: Option<ProposalId>)
      modifies `proposals
      ensures proposals == Supersede(old(proposals), except)
    {
      var all := proposals;
      ghost var retired := Supersede(all, except);
      var rest := all.Keys;
      while rest != {}
        invariant rest <= all.Keys && proposals.Keys == all.Keys
        invariant forall id :: id in all ==> proposals[id] == if id in rest then all[id] else retired[id]
        decreases |rest|
      {
        var id :| id in rest;
        rest := rest - {id};
        if proposals[id].status == Pending && Some(id) != except {
          proposals := proposals[id := proposals[id].(status := Superseded)];
        }
      }
    }

    method PublishNow(id: ProposalId, actor: UserId, applied: Application, decider: Decider)
      returns (refused: Option<Refusal>)
      modifies `version, `place, `proposals, `history
      ensures refused.Some? ==>
                Publish(old(View()), id, actor, applied, decider) == Err(refused.value) && View() == old(View())
      ensures refused.None? ==> Publish(old(View()), id, actor, applied, decider) == Ok(View())
    {
      if id !in proposals {
        return Some(NoSuchProposal);
      }
      var p := proposals[id];
      if p.status != Pending {
        return Some(WrongState);
      }
      if p.baseVersion != version {
        return Some(StaleProposal);
      }
      if p.kind != KindOf(applied) || p.proposer == Some(actor) {
        return Some(WrongState);
      }
      match applied {
        case ApplyEdit(_) =>
          if place != Active {
            return Some(StaleProposal);
          }
        case ApplyMove(_, _, _) =>
        case ApplyExistence(present) =>
          place := if present then Active else Removed;
      }
      version := version + 1;
      history := history + [Published(id, p.baseVersion, decider, applied)];
      SupersedePending(Some(id));
      proposals := proposals[id := p.(status := Approved)];
      ghost var published := Publish(old(View()), id, actor, applied, decider);
      assert published.Ok? by {
        assert applied.ApplyEdit? ==> old(place) == Active;
      }
      assert published.value.place == place == PlaceAfter(old(place), applied);
      assert published.value.proposals == proposals && published.value.history == history;
      assert published == Ok(View());
      return None;
    }

    /** The checks in order, one upsert, the tally, and publication or escalation
        when the tally is reached. After these checks the publisher cannot refuse,
        so the vote never has to be rolled back. */
    method VoteOnProposal(id: ProposalId, voter: UserId, vote: Vote) returns (refused: Option<Refusal>)
      modifies this
      ensures refused.Some? ==>
                CastVote(old(View()), zones, id, voter, vote) == Err(refused.value) && View() == old(View())
      ensures refused.None? ==> CastVote(old(View()), zones, id, voter, vote) == Ok(View())
    {
      if id !in proposals {
        return Some(NoSuchProposal);
      }
      if place != Active {
        return Some(PlaceNotActive);
      }
      var p := proposals[id];
      if p.baseVersion != version {
        return Some(VersionMoved);
      }
      if p.status != Pending {
        return Some(Conflict);
      }
      if p.proposer == Some(voter) {
        return Some(OwnProposal);
      }
      if voter !in eligible {
        return Some(NotEligible);
      }
      p := p.(votes := p.votes[voter := vote]);
      proposals := proposals[id := p];
      var approvers := Approvers(p, eligible);
      if |approvers| >= COMMUNITY_APPROVALS_TO_PUBLISH && !p.escalated {
        var applied := Merge(zones, p.kind, p.change, KEEP_ALL);
        if applied.Ok? {
          refused := PublishNow(id, voter, applied.value, Community(approvers));
          return;
        }
        proposals := proposals[id := p.(escalated := true)];
        assert proposals == old(proposals)[id := p.(escalated := true)];
      }
      assert CastVote(old(View()), zones, id, voter, vote).Ok?;
      assert CastVote(old(View()), zones, id, voter, vote).value == View();
      return None;
    }

    method ApproveProposal(id: ProposalId, moderator: UserId, over: ProposalOverride) returns (refused: Option<Refusal>)
      modifies this
      ensures refused.Some? ==>
                Approve(old(View()), zones, id, moderator, over) == Err(refused.value) && View() == old(View())
      ensures refused.None? ==> Approve(old(View()), zones, id, moderator, over) == Ok(View())
    {
      if moderator in erased {
        return Some(NotEligible);
      }
      if id !in proposals {
        return Some(NoSuchProposal);
      }
      var applied := Merge(zones, proposals[id].kind, proposals[id].change, over);
      if applied.Err? {
        return Some(NotMergeable);
      }
      refused := PublishNow(id, moderator, applied.value, Moderator(moderator));
    }
  }
}
