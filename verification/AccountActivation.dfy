/** Activating a pending account: the link is looked up, the password is proved
    against the stored credential, and the outbox then compares and activates in
    one transaction, while registrations, resets and administrators interleave. */
module AccountActivation {
  import opened Common

  type UserId = nat
  type Email = nat
  type Token = nat
  type SessionId = nat
  type RequestId = nat
  type Password = string
  type Hash = string

  datatype AccountState = Pending | Active | Suspended | Deleted

  /** `credential` is the password identity's hash, absent without one; `generation`
      counts how often it was replaced, and `reseeds` how often by the administrator
      seeder. */
  datatype Account = Account(
    email: Option<Email>,
    state: AccountState,
    verified: bool,
    credential: Option<Hash>,
    generation: nat,
    reseeds: nat,
    sessions: set<SessionId>)

  /** `generation` and `reseedsAt` are the account's when the link was issued. */
  datatype Link = Link(user: UserId, email: Email, expires: int, used: bool, generation: nat, reseedsAt: nat)

  /** How far a `verify_email` request has come. */
  datatype Progress =
    | Found(user: UserId)
    | Loaded(user: UserId, email: Option<Email>, pending: bool)
    | Proven(user: UserId, email: Option<Email>, hash: Option<Hash>)
    | Done(ok: bool)

  datatype Request = Request(token: Token, password: Password, progress: Progress)

  datatype Activation = Activation(user: UserId, token: Token, password: Password, credential: Hash, generation: nat)

  /** `issued` are the tokens of all links ever sent, `vouched` the accounts an identity
      provider vouched for, `seeded` those the operator set up as administrators. */
  datatype State = State(
    now: int,
    accounts: map<UserId, Account>,
    links: map<Token, Link>,
    issued: set<Token>,
    requests: map<RequestId, Request>,
    applied: seq<Token>,
    activations: seq<Activation>,
    vouched: set<UserId>,
    seeded: set<UserId>)

  const EMPTY: State := State(0, map[], map[], {}, map[], [], [], {}, {})

  /** The password hasher's check, and how long links live. */
  datatype Config = Config(verify: (Password, Hash) -> bool, ttl: nat)

  // ---------------------------------------------------------------------------
  // Outbox transactions
  // ---------------------------------------------------------------------------

  function Retire(links: map<Token, Link>, user: UserId): map<Token, Link> {
    map t | t in links :: if links[t].user == user then links[t].(used := true) else links[t]
  }

  function WithAccount(s: State, user: UserId, a: Account): State {
    s.(accounts := s.accounts[user := a])
  }

  /** A new credential ends the account's sessions and retires every link minted
      under the old one. */
  function ReplaceCredential(s: State, user: UserId, hash: Hash, keep: set<SessionId>): State
    requires user in s.accounts
  {
    var a := s.accounts[user];
    WithAccount(s, user, a.(credential := Some(hash), generation := a.generation + 1, sessions := a.sessions * keep))
      .(links := Retire(s.links, user))
  }

  function Issue(s: State, config: Config, user: UserId, email: Email, token: Token): State
    requires user in s.accounts
  {
    var a := s.accounts[user];
    s.(links := s.links[token := Link(user, email, s.now + config.ttl, false, a.generation, a.reseeds)],
       issued := s.issued + {token})
  }

  predicate Taken(accounts: map<UserId, Account>, email: Email) {
    exists u :: u in accounts && accounts[u].email == Some(email)
  }

  /** A new address gets an account; a pending one gets its credential replaced; any
      other is left alone. */
  ghost function Register(s: State, config: Config, user: UserId, email: Email, hash: Hash, token: Token): State {
    if user in s.accounts && s.accounts[user].email == Some(email) then
      if s.accounts[user].state == Pending && s.accounts[user].credential.Some?
      then Issue(ReplaceCredential(s, user, hash, {}), config, user, email, token)
      else s
    else if user in s.accounts || Taken(s.accounts, email) then s
    else
      var created := WithAccount(s, user, Account(Some(email), Pending, false, Some(hash), 0, 0, {}));
      Issue(created, config, user, email, token)
  }

  predicate Live(s: State, token: Token) {
    token in s.links && !s.links[token].used && s.now < s.links[token].expires
  }

  /** The atomic confirmation: the link is still live, the account still has the
      address the notice was made out to, and a pending account still has the very
      credential that was proved. Nothing happens otherwise. */
  ghost predicate Confirms(s: State, token: Token, email: Option<Email>, proven: Option<Hash>) {
    && Live(s, token)
    && s.links[token].user in s.accounts
    && var a := s.accounts[s.links[token].user];
       var changed := a.email != Some(s.links[token].email);
       && (a.state == Pending || a.state == Active)
       && email == a.email
       && (changed ==> a.state == Active && !Taken(s.accounts, s.links[token].email))
       && (a.state == Pending ==> proven.Some? && a.credential == proven)
  }

  ghost function Confirm(s: State, token: Token, email: Option<Email>, proven: Option<Hash>): State
    requires Confirms(s, token, email, proven)
  {
    var user := s.links[token].user;
    var a := s.accounts[user];
    var changed := a.email != Some(s.links[token].email);
    var sessions := if changed || a.state == Pending then {} else a.sessions;
    WithAccount(s, user,
        a.(email := Some(s.links[token].email), verified := true, state := Active, sessions := sessions))
      .(links := Retire(s.links, user), applied := s.applied + [token])
  }

  // ---------------------------------------------------------------------------
  // Steps
  // ---------------------------------------------------------------------------

  datatype Step =
    | Submit(user: UserId, email: Email, hash: Hash, token: Token)
    | Resend(user: UserId, token: Token)
    | ChangeEmail(user: UserId, email: Email, token: Token)
    | Reset(user: UserId, hash: Hash)
    | ChangePassword(user: UserId, expected: Hash, hash: Hash, session: SessionId)
    | CreateByProvider(user: UserId, email: Email, vouched: bool)
    | SeedCreate(user: UserId, email: Email, hash: Hash)
    | SeedActivate(user: UserId)
    | SeedPassword(user: UserId, hash: Hash)
    | MarkVerified(user: UserId)
    | PurgeLinks(at: int)
    | Login(user: UserId, session: SessionId)
    | Suspend(user: UserId)
    | Restore(user: UserId)
    | Erase(user: UserId)
    | Begin(r: RequestId, token: Token, password: Password)
    | Load(r: RequestId)
    | Prove(r: RequestId)
    | Apply(r: RequestId)
    | Abandon(r: RequestId)
    | Tick(elapsed: nat)

  predicate Is(s: State, user: UserId, state: AccountState) {
    user in s.accounts && s.accounts[user].state == state
  }

  predicate CanLogIn(s: State, user: UserId) {
    Is(s, user, Pending) || Is(s, user, Active)
  }

  function Moved(s: State, r: RequestId, progress: Progress): State
    requires r in s.requests
  {
    s.(requests := s.requests[r := s.requests[r].(progress := progress)])
  }

  /** The credential the submitted password is checked against, if it passes. */
  function ProvenHash(s: State, config: Config, request: Request): Option<Hash>
    requires request.progress.Loaded?
  {
    var Loaded(user, email, _) := request.progress;
    if user in s.accounts && email.Some? && s.accounts[user].email == email && s.accounts[user].credential.Some? then
      var hash := s.accounts[user].credential.value;
      if hash != "" && config.verify(request.password, hash) then Some(hash) else None
    else None
  }

  ghost function Next(s: State, config: Config, step: Step): State {
    match step
    case Submit(user, email, hash, token) =>
      if token in s.issued || hash == "" then s else Register(s, config, user, email, hash, token)
    case Resend(user, token) =>
      if token in s.issued || !Is(s, user, Pending) || s.accounts[user].email.None? then s
      else Issue(s, config, user, s.accounts[user].email.value, token)
    case ChangeEmail(user, email, token) =>
      if token in s.issued || !Is(s, user, Active) then s else Issue(s, config, user, email, token)
    case Reset(user, hash) =>
      if !CanLogIn(s, user) || s.accounts[user].credential.None? then s else ReplaceCredential(s, user, hash, {})
    case ChangePassword(user, expected, hash, session) =>
      if !Is(s, user, Active) || s.accounts[user].credential != Some(expected) || session !in s.accounts[user].sessions
        then s
      else ReplaceCredential(s, user, hash, {session})
    case CreateByProvider(user, email, vouched) =>
      if user in s.accounts || Taken(s.accounts, email) then s
      else WithAccount(s, user, Account(Some(email), if vouched then Active else Pending, false, None, 0, 0, {}))
             .(vouched := if vouched then s.vouched + {user} else s.vouched)
    case SeedCreate(user, email, hash) =>
      if user in s.accounts || Taken(s.accounts, email) || hash == "" then s
      else WithAccount(s, user, Account(Some(email), Active, false, Some(hash), 0, 0, {})).(seeded := s.seeded + {user})
    case SeedActivate(user) =>
      if user !in s.accounts then s
      else WithAccount(s, user, s.accounts[user].(state := Active)).(seeded := s.seeded + {user})
    case SeedPassword(user, hash) =>
      if user !in s.accounts || user !in s.seeded || hash == "" then s
      else
        var a := s.accounts[user];
        WithAccount(s, user, a.(credential := Some(hash), generation := a.generation + 1, reseeds := a.reseeds + 1))
    case MarkVerified(user) =>
      if user !in s.accounts || user !in s.vouched + s.seeded then s
      else WithAccount(s, user, s.accounts[user].(verified := true))
    case PurgeLinks(at) =>
      if at > s.now then s else s.(links := s.links - set t | t in s.links && s.links[t].expires < at)
    case Login(user, session) =>
      if !CanLogIn(s, user) then s
      else WithAccount(s, user, s.accounts[user].(sessions := s.accounts[user].sessions + {session}))
    case Suspend(user) =>
      if !CanLogIn(s, user) then s
      else WithAccount(s, user, s.accounts[user].(state := Suspended, sessions := {})).(links := Retire(s.links, user))
    case Restore(user) =>
      if !Is(s, user, Suspended) then s
      else WithAccount(s, user, s.accounts[user].(state := if s.accounts[user].verified then Active else Pending))
    case Erase(user) =>
      if user !in s.accounts then s
      else WithAccount(s, user, s.accounts[user].(email := None, state := Deleted, credential := None, sessions := {}))
             .(links := Retire(s.links, user))
    case Begin(r, token, password) =>
      if r in s.requests then s
      else s.(requests :=
          s.requests[r := Request(token, password, if Live(s, token) then Found(s.links[token].user) else Done(false))])
    case Load(r) =>
      if r !in s.requests || !s.requests[r].progress.Found? then s
      else
        var user := s.requests[r].progress.user;
        if !CanLogIn(s, user) then Moved(s, r, Done(false))
        else Moved(s, r, Loaded(user, s.accounts[user].email, s.accounts[user].state == Pending))
    case Prove(r) =>
      if r !in s.requests || !s.requests[r].progress.Loaded? then s
      else
        var Loaded(user, email, pending) := s.requests[r].progress;
        if !pending then Moved(s, r, Proven(user, email, None))
        else if ProvenHash(s, config, s.requests[r]).None? then Moved(s, r, Done(false))
        else Moved(s, r, Proven(user, email, ProvenHash(s, config, s.requests[r])))
    case Apply(r) =>
      if r !in s.requests || !s.requests[r].progress.Proven? then s
      else
        var token, Proven(user, email, hash) := s.requests[r].token, s.requests[r].progress;
        if !Confirms(s, token, email, hash) then Moved(s, r, Done(false))
        else
          var next := Moved(Confirm(s, token, email, hash), r, Done(true));
          if s.accounts[s.links[token].user].state == Pending
          then next.(activations := s.activations +
                       [Activation(s.links[token].user, token, s.requests[r].password, hash.value,
                           s.links[token].generation)])
          else next
    case Abandon(r) =>
      if r !in s.requests || s.requests[r].progress.Done? then s else Moved(s, r, Done(false))
    case Tick(elapsed) => s.(now := s.now + elapsed)
  }

  ghost function Run(s: State, config: Config, steps: seq<Step>): State
    decreases |steps|
  {
    if steps == [] then s else Run(Next(s, config, steps[0]), config, steps[1..])
  }

  // ---------------------------------------------------------------------------
  // What every step keeps
  // ---------------------------------------------------------------------------

  /** How often the seeder has replaced the account's credential since the link was
      sent. */
  function ReseedsSince(s: State, t: Token): int
    requires t in s.links && s.links[t].user in s.accounts
  {
    s.accounts[s.links[t].user].reseeds - s.links[t].reseedsAt
  }

  /** A link that can still be used is behind the account's credential by exactly the
      replacements of the administrator seeder, which retires no links. */
  ghost predicate LinksAreCurrent(s: State) {
    forall t :: t in s.links && !s.links[t].used ==>
      && s.links[t].user in s.accounts
      && s.links[t].reseedsAt <= s.accounts[s.links[t].user].reseeds
      && s.links[t].generation + ReseedsSince(s, t) == s.accounts[s.links[t].user].generation
  }

  /** A proof in hand was a real one. */
  ghost predicate ProofsHold(s: State, config: Config) {
    forall r :: r in s.requests && s.requests[r].progress.Proven? && s.requests[r].progress.hash.Some? ==>
      s.requests[r].progress.hash.value != "" &&
          config.verify(s.requests[r].password, s.requests[r].progress.hash.value)
  }

  /** The link was sent and can never be used again: it is marked, or purged. */
  predicate Spent(s: State, t: Token) {
    t in s.issued && (t in s.links ==> s.links[t].used)
  }

  /** Applied links are spent, each applied once. */
  ghost predicate AppliedOnce(s: State) {
    && NoDuplicates(s.applied) && s.links.Keys <= s.issued
    && forall i :: 0 <= i < |s.applied| ==> Spent(s, s.applied[i])
  }

  ghost predicate Activated(s: State, user: UserId) {
    exists i :: 0 <= i < |s.activations| && s.activations[i].user == user
  }

  /** Somebody stands for the account: its provider, the operator, or whoever proved
      its password. */
  ghost predicate StoodFor(s: State, user: UserId) {
    user in s.vouched || user in s.seeded || Activated(s, user)
  }

  ghost predicate VerifiedWasProven(s: State) {
    forall u :: u in s.accounts && (s.accounts[u].state == Active || s.accounts[u].verified) ==> StoodFor(s, u)
  }

  ghost predicate ActivationsWereProven(s: State, config: Config) {
    forall i :: 0 <= i < |s.activations| ==>
      && config.verify(s.activations[i].password, s.activations[i].credential)
      && s.activations[i].token in s.applied
  }

  ghost predicate Inv(s: State, config: Config) {
    LinksAreCurrent(s) && ProofsHold(s, config) && AppliedOnce(s) && VerifiedWasProven(s) &&
        ActivationsWereProven(s, config)
  }

  predicate WritesLinks(step: Step) {
    step.Submit? || step.Resend? || step.ChangeEmail? || step.Reset? || step.ChangePassword? ||
    step.PurgeLinks? || step.Suspend? || step.Erase?
  }

  lemma ReplaceKeepsLinks(s: State, user: UserId, hash: Hash, keep: set<SessionId>)
    requires LinksAreCurrent(s) && user in s.accounts
    ensures LinksAreCurrent(ReplaceCredential(s, user, hash, keep))
  {
  }

  lemma IssueKeepsLinks(s: State, config: Config, user: UserId, email: Email, token: Token)
    requires LinksAreCurrent(s) && user in s.accounts
    ensures LinksAreCurrent(Issue(s, config, user, email, token))
  {
  }

  lemma SubmitKeepsLinks(s: State, config: Config, user: UserId, email: Email, hash: Hash, token: Token)
    requires LinksAreCurrent(s)
    ensures LinksAreCurrent(Register(s, config, user, email, hash, token))
  {
    if user in s.accounts {
      ReplaceKeepsLinks(s, user, hash, {});
      IssueKeepsLinks(ReplaceCredential(s, user, hash, {}), config, user, email, token);
    } else {
      var created := WithAccount(s, user, Account(Some(email), Pending, false, Some(hash), 0, 0, {}));
      IssueKeepsLinks(created, config, user, email, token);
    }
  }

  lemma RetiringKeepsLinks(s: State, config: Config, step: Step)
    requires LinksAreCurrent(s) && (step.Suspend? || step.Erase? || step.PurgeLinks?)
    ensures LinksAreCurrent(Next(s, config, step))
  {
  }

  lemma LinkWritesKeepLinks(s: State, config: Config, step: Step)
    requires LinksAreCurrent(s) && WritesLinks(step)
    ensures LinksAreCurrent(Next(s, config, step))
  {
    match step
    case Submit(user, email, hash, token) => SubmitKeepsLinks(s, config, user, email, hash, token);
    case Resend(user, token) =>
      if Is(s, user, Pending) && s.accounts[user].email.Some? {
        IssueKeepsLinks(s, config, user, s.accounts[user].email.value, token);
      }
    case ChangeEmail(user, email, token) =>
      if Is(s, user, Active) {
        IssueKeepsLinks(s, config, user, email, token);
      }
    case Reset(user, hash) =>
      if user in s.accounts {
        ReplaceKeepsLinks(s, user, hash, {});
      }
    case ChangePassword(user, _, hash, session) =>
      if user in s.accounts {
        ReplaceKeepsLinks(s, user, hash, {session});
      }
    case _ => RetiringKeepsLinks(s, config, step);
  }

  lemma StandingStays(s: State, next: State)
    requires s.vouched <= next.vouched && s.seeded <= next.seeded && s.activations <= next.activations
    ensures forall u :: StoodFor(s, u) ==> StoodFor(next, u)
  {
    forall u | Activated(s, u) ensures Activated(next, u) {
      var i :| 0 <= i < |s.activations| && s.activations[i].user == u;
      assert next.activations[i].user == u;
    }
  }

  lemma LinkWritesKeepLogs(s: State, config: Config, step: Step)
    requires WritesLinks(step)
    ensures var next := Next(s, config, step);
            && next.requests == s.requests && next.applied == s.applied && next.activations == s.activations
            && next.vouched == s.vouched && next.seeded == s.seeded
  {
  }

  lemma LinkWritesKeepIssued(s: State, config: Config, step: Step)
    requires s.links.Keys <= s.issued && WritesLinks(step)
    ensures Next(s, config, step).links.Keys <= Next(s, config, step).issued
  {
  }

  lemma LinkWritesKeepApplied(s: State, config: Config, step: Step)
    requires AppliedOnce(s) && WritesLinks(step)
    ensures AppliedOnce(Next(s, config, step))
  {
    LinkWritesKeepLogs(s, config, step);
    LinkWritesKeepIssued(s, config, step);
    forall t | Spent(s, t) ensures Spent(Next(s, config, step), t) {
      StepKeepsSpent(s, config, step, t);
    }
  }

  lemma LinkWritesKeepStanding(s: State, config: Config, step: Step, u: UserId)
    requires WritesLinks(step) && u in Next(s, config, step).accounts
    ensures var a := Next(s, config, step).accounts[u];
            a.state == Active || a.verified ==>
                u in s.accounts && (s.accounts[u].state == Active || s.accounts[u].verified)
  {
  }

  lemma LinkWritesKeepVerified(s: State, config: Config, step: Step)
    requires VerifiedWasProven(s) && WritesLinks(step)
    ensures VerifiedWasProven(Next(s, config, step))
  {
    var next := Next(s, config, step);
    LinkWritesKeepLogs(s, config, step);
    StandingStays(s, next);
    forall u | u in next.accounts && (next.accounts[u].state == Active || next.accounts[u].verified)
      ensures StoodFor(next, u)
    {
      LinkWritesKeepStanding(s, config, step, u);
    }
  }

  lemma LinkWritesKeepRest(s: State, config: Config, step: Step)
    requires Inv(s, config) && WritesLinks(step)
    ensures var next := Next(s, config, step);
            ProofsHold(next, config) && AppliedOnce(next) && VerifiedWasProven(next) &&
                ActivationsWereProven(next, config)
  {
    LinkWritesKeepLogs(s, config, step);
    LinkWritesKeepApplied(s, config, step);
    LinkWritesKeepVerified(s, config, step);
  }

  predicate IsRequestStep(step: Step) {
    step.Begin? || step.Load? || step.Prove? || step.Abandon?
  }

  lemma RequestStepsKeepRest(s: State, config: Config, step: Step)
    requires IsRequestStep(step)
    ensures Next(s, config, step) == s.(requests := Next(s, config, step).requests)
  {
  }

  lemma RequestStepsKeepInv(s: State, config: Config, step: Step)
    requires Inv(s, config) && IsRequestStep(step)
    ensures Inv(Next(s, config, step), config)
  {
    RequestStepsKeepRest(s, config, step);
    RequestStepsKeepProofs(s, config, step);
    NewRequestsKeepInv(s, config, Next(s, config, step).requests);
  }

  lemma NewRequestsKeepInv(s: State, config: Config, requests: map<RequestId, Request>)
    requires Inv(s, config) && ProofsHold(s.(requests := requests), config)
    ensures Inv(s.(requests := requests), config)
  {
    StandingStays(s, s.(requests := requests));
  }

  lemma RequestStepsKeepProofs(s: State, config: Config, step: Step)
    requires ProofsHold(s, config) && IsRequestStep(step)
    ensures ProofsHold(Next(s, config, step), config)
  {
  }

  /** The steps left change accounts, or only the clock. */
  predicate WritesAccounts(step: Step) {
    !WritesLinks(step) && !IsRequestStep(step) && !step.Apply?
  }

  lemma AccountWritesKeepLogs(s: State, config: Config, step: Step)
    requires WritesAccounts(step)
    ensures var next := Next(s, config, step);
            && next.links == s.links && next.requests == s.requests
            && next.applied == s.applied && next.activations == s.activations
            && s.vouched <= next.vouched && s.seeded <= next.seeded && s.accounts.Keys <= next.accounts.Keys
  {
  }

  lemma AccountWritesKeepCounts(s: State, config: Config, step: Step, u: UserId)
    requires WritesAccounts(step) && u in s.accounts
    ensures u in Next(s, config, step).accounts
    ensures var before, after := s.accounts[u], Next(s, config, step).accounts[u];
            && after.generation - after.reseeds == before.generation - before.reseeds
            && before.reseeds <= after.reseeds
  {
  }

  lemma AccountWritesKeepLinks(s: State, config: Config, step: Step)
    requires LinksAreCurrent(s) && WritesAccounts(step)
    ensures LinksAreCurrent(Next(s, config, step))
  {
    AccountWritesKeepLogs(s, config, step);
    forall t | t in s.links && !s.links[t].used
      ensures s.links[t].user in Next(s, config, step).accounts
      ensures var a := Next(s, config, step).accounts[s.links[t].user];
              && s.links[t].reseedsAt <= a.reseeds
              && s.links[t].generation + a.reseeds - s.links[t].reseedsAt == a.generation
    {
      AccountWritesKeepCounts(s, config, step, s.links[t].user);
    }
  }

  lemma AccountWritesKeepStanding(s: State, config: Config, step: Step, u: UserId)
    requires VerifiedWasProven(s) && WritesAccounts(step) && u in Next(s, config, step).accounts
    ensures var next := Next(s, config, step);
            next.accounts[u].state == Active || next.accounts[u].verified ==>
              u in next.vouched || u in next.seeded || StoodFor(s, u)
  {
  }

  lemma AccountWritesKeepRest(s: State, config: Config, step: Step)
    requires Inv(s, config) && WritesAccounts(step)
    ensures var next := Next(s, config, step);
            ProofsHold(next, config) && AppliedOnce(next) && VerifiedWasProven(next) &&
                ActivationsWereProven(next, config)
  {
    var next := Next(s, config, step);
    AccountWritesKeepLogs(s, config, step);
    StandingStays(s, next);
    forall u | u in next.accounts && (next.accounts[u].state == Active || next.accounts[u].verified)
      ensures StoodFor(next, u)
    {
      AccountWritesKeepStanding(s, config, step, u);
    }
  }

  /** A confirmation that goes through, and one that does not. */
  lemma ApplyEither(s: State, config: Config, r: RequestId)
    ensures var next := Next(s, config, Apply(r));
            || next == s.(requests := next.requests)
            || (&& r in s.requests && s.requests[r].progress.Proven?
                && Confirms(s, s.requests[r].token, s.requests[r].progress.email, s.requests[r].progress.hash)
                && var token := s.requests[r].token;
                   var user := s.links[token].user;
                   var confirmed := Confirm(s, token, s.requests[r].progress.email, s.requests[r].progress.hash);
                   && next == confirmed.(requests := next.requests, activations := next.activations)
                   && (s.accounts[user].state != Pending ==> next.activations == s.activations)
                   && (s.accounts[user].state == Pending ==>
                         next.activations == s.activations +
                           [Activation(user, token, s.requests[r].password, s.requests[r].progress.hash.value,
                                       s.links[token].generation)]))
  {
  }

  lemma ApplyKeepsLinks(s: State, config: Config, r: RequestId)
    requires LinksAreCurrent(s)
    ensures LinksAreCurrent(Next(s, config, Apply(r)))
  {
    ApplyEither(s, config, r);
  }

  lemma ApplyKeepsProofs(s: State, config: Config, r: RequestId)
    requires ProofsHold(s, config)
    ensures ProofsHold(Next(s, config, Apply(r)), config)
  {
  }

  lemma ApplyKeepsApplied(s: State, config: Config, r: RequestId)
    requires AppliedOnce(s)
    ensures AppliedOnce(Next(s, config, Apply(r)))
  {
    ApplyEither(s, config, r);
  }

  lemma ApplyKeepsVerified(s: State, config: Config, r: RequestId)
    requires VerifiedWasProven(s)
    ensures VerifiedWasProven(Next(s, config, Apply(r)))
  {
    var next := Next(s, config, Apply(r));
    ApplyEither(s, config, r);
    StandingStays(s, next);
    if next.activations != s.activations {
      assert next.activations[|s.activations|].user == s.links[s.requests[r].token].user;
    }
  }

  lemma ApplyKeepsActivations(s: State, config: Config, r: RequestId)
    requires ProofsHold(s, config) && ActivationsWereProven(s, config)
    ensures ActivationsWereProven(Next(s, config, Apply(r)), config)
  {
    ApplyEither(s, config, r);
    var next := Next(s, config, Apply(r));
    if next.activations != s.activations {
      assert next.applied[|s.applied|] == s.requests[r].token;
    }
  }

  lemma StepKeepsInv(s: State, config: Config, step: Step)
    requires Inv(s, config)
    ensures Inv(Next(s, config, step), config)
  {
    if step.Apply? {
      ApplyKeepsLinks(s, config, step.r);
      ApplyKeepsProofs(s, config, step.r);
      ApplyKeepsApplied(s, config, step.r);
      ApplyKeepsVerified(s, config, step.r);
      ApplyKeepsActivations(s, config, step.r);
    } else if WritesLinks(step) {
      LinkWritesKeepLinks(s, config, step);
      LinkWritesKeepRest(s, config, step);
    } else if IsRequestStep(step) {
      RequestStepsKeepInv(s, config, step);
    } else {
      AccountWritesKeepLinks(s, config, step);
      AccountWritesKeepRest(s, config, step);
    }
  }

  lemma {:induction false} RunKeepsInv(s: State, config: Config, steps: seq<Step>)
    requires Inv(s, config)
    ensures Inv(Run(s, config, steps), config)
    decreases |steps|
  {
    if steps == [] {
    } else {
      StepKeepsInv(s, config, steps[0]);
      RunKeepsInv(Next(s, config, steps[0]), config, steps[1..]);
    }
  }

  // ---------------------------------------------------------------------------
  // Activation
  // ---------------------------------------------------------------------------

  /** A pending account that a request makes active. */
  ghost predicate Activates(s: State, config: Config, step: Step, user: UserId) {
    Is(s, user, Pending) && Is(Next(s, config, step), user, Active)
  }

  /** In every interleaving, whatever makes a pending account active is the
      administrator seeder, or a request whose password verifies against the
      credential the account has at that very instant. The link was issued under that
      same credential exactly if the seeder has not replaced it since; it is then
      spent with all the account's others, and every earlier session is gone. */
  lemma ActivationNeedsPassword(config: Config, steps: seq<Step>, step: Step, user: UserId)
    requires Activates(Run(EMPTY, config, steps), config, step, user)
    ensures var s := Run(EMPTY, config, steps);
            var next := Next(s, config, step);
            || step == SeedActivate(user)
            || (&& step.Apply? && step.r in s.requests
                && var request := s.requests[step.r];
                   var a := s.accounts[user];
                   && a.credential.Some? && a.credential.value != ""
                   && config.verify(request.password, a.credential.value)
                   && Live(s, request.token) && s.links[request.token].user == user
                   && (s.links[request.token].generation == a.generation <==> ReseedsSince(s, request.token) == 0)
                   && a.email == Some(s.links[request.token].email)
                   && next.accounts[user] == a.(state := Active, verified := true, sessions := {})
                   && (forall t :: t in next.links && next.links[t].user == user ==> next.links[t].used))
  {
    RunKeepsInv(EMPTY, config, steps);
    OnlyApplyActivates(Run(EMPTY, config, steps), config, step, user);
  }

  /** Apart from the seeder, only a confirmation that goes through activates a
      pending account. */
  lemma OnlyApplyActivates(s: State, config: Config, step: Step, user: UserId)
    requires Activates(s, config, step, user)
    ensures step == SeedActivate(user) ||
            (&& step.Apply? && step.r in s.requests && s.requests[step.r].progress.Proven?
             && var request := s.requests[step.r];
                && Confirms(s, request.token, request.progress.email, request.progress.hash)
                && s.links[request.token].user == user)
  {
    if step.Apply? {
      ApplyEither(s, config, step.r);
    }
  }

  /** The compare-and-activate is exact: a proved request activates its pending
      account if and only if its link is still live, the address is unchanged on
      both sides and the credential is still the one it was proved against. */
  lemma ApplyActivatesIff(s: State, config: Config, r: RequestId)
    requires Inv(s, config) && r in s.requests && s.requests[r].progress.Proven?
    requires s.requests[r].token in s.links && Is(s, s.links[s.requests[r].token].user, Pending)
    ensures var request := s.requests[r];
            var l := s.links[request.token];
            var a := s.accounts[l.user];
            Activates(s, config, Apply(r), l.user) <==>
              && Live(s, request.token)
              && request.progress.email == a.email == Some(l.email)
              && request.progress.hash.Some? && request.progress.hash == a.credential
  {
  }

  /** A request that fails, at whichever stage, leaves accounts and links as they
      were: a wrong password spends nothing. */
  lemma FailedRequestSpendsNothing(s: State, config: Config, step: Step)
    requires IsRequestStep(step) || step.Apply?
    ensures var next := Next(s, config, step);
            next.applied == s.applied ==> next.accounts == s.accounts && next.links == s.links
  {
  }

  /** And a wrong password never gets past the proof. */
  lemma WrongPasswordStops(s: State, config: Config, r: RequestId)
    requires r in s.requests && s.requests[r].progress.Loaded? && s.requests[r].progress.pending
    requires var user := s.requests[r].progress.user;
             user in s.accounts && s.accounts[user].credential.Some? ==>
               !config.verify(s.requests[r].password, s.accounts[user].credential.value)
    ensures Next(s, config, Prove(r)) == Moved(s, r, Done(false))
  {
  }

  /** No link is ever applied twice. */
  lemma LinksApplyOnce(config: Config, steps: seq<Step>)
    ensures NoDuplicates(Run(EMPTY, config, steps).applied)
  {
    RunKeepsInv(EMPTY, config, steps);
  }

  lemma StepKeepsSpent(s: State, config: Config, step: Step, t: Token)
    requires Spent(s, t)
    ensures Spent(Next(s, config, step), t)
  {
  }

  /** Once retired, spent or purged, a link stays so: it is never live again. */
  lemma {:induction false} SpentForever(s: State, config: Config, steps: seq<Step>, t: Token)
    requires Spent(s, t)
    ensures Spent(Run(s, config, steps), t) && !Live(Run(s, config, steps), t)
    decreases |steps|
  {
    if steps == [] {
    } else {
      StepKeepsSpent(s, config, steps[0], t);
      SpentForever(Next(s, config, steps[0]), config, steps[1..], t);
    }
  }

  // --- Links and the administrator seeder ---------------------------------------

  /** At any time a usable link is from the account's present credential if and only if
      the seeder has not replaced that credential since the link was sent. */
  lemma UsableLinkIsCurrentIff(config: Config, steps: seq<Step>, t: Token)
    requires var s := Run(EMPTY, config, steps); t in s.links && !s.links[t].used
    ensures var s := Run(EMPTY, config, steps);
            && s.links[t].user in s.accounts
            && (s.links[t].generation == s.accounts[s.links[t].user].generation <==> ReseedsSince(s, t) == 0)
  {
    RunKeepsInv(EMPTY, config, steps);
  }

  ghost predicate NeverReseeded(s: State, user: UserId) {
    && (user in s.accounts ==> s.accounts[user].reseeds == 0)
    && forall t :: t in s.links && s.links[t].user == user ==> s.links[t].reseedsAt == 0
  }

  lemma StepKeepsUnseeded(s: State, config: Config, step: Step, user: UserId)
    requires NeverReseeded(s, user) && !(step.SeedPassword? && step.user == user)
    ensures NeverReseeded(Next(s, config, step), user)
  {
  }

  lemma {:induction false} RunKeepsUnseeded(s: State, config: Config, steps: seq<Step>, user: UserId)
    requires NeverReseeded(s, user)
    requires forall i :: 0 <= i < |steps| ==> !(steps[i].SeedPassword? && steps[i].user == user)
    ensures NeverReseeded(Run(s, config, steps), user)
    decreases |steps|
  {
    if steps == [] {
    } else {
      StepKeepsUnseeded(s, config, steps[0], user);
      assert forall i :: 0 <= i < |steps[1..]| ==> steps[1..][i] == steps[i + 1];
      RunKeepsUnseeded(Next(s, config, steps[0]), config, steps[1..], user);
    }
  }

  /** So in a run that never reseeds an account's password, each of its usable links is
      from its present one. */
  lemma UnseededLinksAreCurrent(config: Config, steps: seq<Step>, t: Token)
    requires var s := Run(EMPTY, config, steps);
             && t in s.links && !s.links[t].used
             && forall i :: 0 <= i < |steps| ==> !(steps[i].SeedPassword? && steps[i].user == s.links[t].user)
    ensures var s := Run(EMPTY, config, steps);
            s.links[t].user in s.accounts && s.links[t].generation == s.accounts[s.links[t].user].generation
  {
    RunKeepsUnseeded(EMPTY, config, steps, Run(EMPTY, config, steps).links[t].user);
    UsableLinkIsCurrentIff(config, steps, t);
  }

  lemma RunCons(s: State, config: Config, step: Step, rest: seq<Step>)
    ensures Run(s, config, [step] + rest) == Run(Next(s, config, step), config, rest)
  {
    assert ([step] + rest)[1..] == rest;
  }

  const HOLDER: Account := Account(Some(0), Pending, false, Some("h"), 0, 0, {})

  /** A registration whose password the seeder then replaces. */
  lemma ReseededRegistration(config: Config) returns (steps: seq<Step>)
    ensures var s := Run(EMPTY, config, steps);
            && s.accounts == map[0 := HOLDER.(state := Active, credential := Some("k"), generation := 1, reseeds := 1)]
            && s.links == map[0 := Link(0, 0, config.ttl, false, 0, 0)] && s.now == 0
  {
    var submit, activate, reseed := Submit(0, 0, "h", 0), SeedActivate(0), SeedPassword(0, "k");
    var s1 := Next(EMPTY, config, submit);
    var s2 := Next(s1, config, activate);
    var s3 := Next(s2, config, reseed);
    assert Run(s3, config, []) == s3;
    RunCons(s2, config, reseed, []);
    RunCons(s1, config, activate, [reseed] + []);
    RunCons(EMPTY, config, submit, [activate] + ([reseed] + []));
    steps := [submit] + ([activate] + ([reseed] + []));
  }

  /** That a usable link is always from the present password is false: the seeder leaves
      links from before it live. */
  lemma SeederLeavesOldLinkLive(config: Config)
    requires config.ttl > 0
    ensures exists steps, t ::
              var s := Run(EMPTY, config, steps);
              && Live(s, t) && s.links[t].user in s.accounts
              && s.links[t].generation != s.accounts[s.links[t].user].generation
  {
    var steps := ReseededRegistration(config);
    assert Live(Run(EMPTY, config, steps), 0);
  }

  /** An account suspended while the seeder works on it. */
  lemma SuspendedWhileSeeded(config: Config) returns (steps: seq<Step>)
    ensures var s := Run(EMPTY, config, steps);
            && s.accounts == map[0 := HOLDER.(state := Suspended)]
            && s.issued == {0} && s.seeded == {0} && s.now == 0 && s.requests == map[]
  {
    var submit, activate, suspend := Submit(0, 0, "h", 0), SeedActivate(0), Suspend(0);
    var s1 := Next(EMPTY, config, submit);
    var s2 := Next(s1, config, activate);
    var s3 := Next(s2, config, suspend);
    assert Run(s3, config, []) == s3;
    RunCons(s2, config, suspend, []);
    RunCons(s1, config, activate, [suspend] + []);
    RunCons(EMPTY, config, submit, [activate] + ([suspend] + []));
    steps := [submit] + ([activate] + ([suspend] + []));
  }

  /** Taken back to pending, sent a new link, and then reseeded. */
  lemma ReseededPending(s: State, config: Config) returns (steps: seq<Step>)
    requires s.accounts == map[0 := HOLDER.(state := Suspended)]
    requires s.issued == {0} && s.seeded == {0} && s.now == 0 && s.requests == map[]
    ensures var end := Run(s, config, steps);
            && end.accounts == map[0 := HOLDER.(credential := Some("k"), generation := 1, reseeds := 1)]
            && 1 in end.links && end.links[1] == Link(0, 0, config.ttl, false, 0, 0)
            && end.now == 0 && end.requests == map[]
  {
    var restore, resend, reseed := Restore(0), Resend(0, 1), SeedPassword(0, "k");
    var s1 := Next(s, config, restore);
    var s2 := Next(s1, config, resend);
    assert s2.accounts == map[0 := HOLDER] && s2.links[1] == Link(0, 0, config.ttl, false, 0, 0);
    var s3 := Next(s2, config, reseed);
    assert Run(s3, config, []) == s3;
    RunCons(s2, config, reseed, []);
    RunCons(s1, config, resend, [reseed] + []);
    RunCons(s, config, restore, [resend] + ([reseed] + []));
    steps := [restore] + ([resend] + ([reseed] + []));
  }

  /** A request over that link, up to its proof. */
  lemma ProvenOverOldLink(s: State, config: Config, password: Password) returns (steps: seq<Step>)
    requires config.ttl > 0 && config.verify(password, "k")
    requires s.accounts == map[0 := HOLDER.(credential := Some("k"), generation := 1, reseeds := 1)]
    requires 1 in s.links && s.links[1] == Link(0, 0, config.ttl, false, 0, 0) && s.now == 0 && s.requests == map[]
    ensures Run(s, config, steps) == s.(requests := map[0 := Request(1, password, Proven(0, Some(0), Some("k")))])
  {
    var begin, load, prove := Begin(0, 1, password), Load(0), Prove(0);
    var s1 := Next(s, config, begin);
    assert s1.requests == map[0 := Request(1, password, Found(0))];
    var s2 := Next(s1, config, load);
    assert s2.requests == map[0 := Request(1, password, Loaded(0, Some(0), true))];
    var s3 := Next(s2, config, prove);
    assert s3.requests == map[0 := Request(1, password, Proven(0, Some(0), Some("k")))];
    assert Run(s3, config, []) == s3;
    RunCons(s2, config, prove, []);
    RunCons(s1, config, load, [prove] + []);
    RunCons(s, config, begin, [load] + ([prove] + []));
    steps := [begin] + ([load] + ([prove] + []));
  }

  lemma ActivatesOverOldLink(s: State, config: Config, password: Password)
    requires config.ttl > 0 && s.now == 0 && 1 in s.links && s.links[1] == Link(0, 0, config.ttl, false, 0, 0)
    requires s.accounts == map[0 := HOLDER.(credential := Some("k"), generation := 1, reseeds := 1)]
    requires s.requests == map[0 := Request(1, password, Proven(0, Some(0), Some("k")))]
    ensures Activates(s, config, Apply(0), 0) && s.links[1].generation != s.accounts[0].generation
  {
    assert Confirms(s, 1, Some(0), Some("k"));
  }

  lemma RunToOldLink(config: Config, password: Password) returns (steps: seq<Step>)
    requires config.ttl > 0 && config.verify(password, "k")
    ensures var s := Run(EMPTY, config, steps);
            && s.now == 0 && 1 in s.links && s.links[1] == Link(0, 0, config.ttl, false, 0, 0)
            && s.accounts == map[0 := HOLDER.(credential := Some("k"), generation := 1, reseeds := 1)]
            && s.requests == map[0 := Request(1, password, Proven(0, Some(0), Some("k")))]
  {
    var first := SuspendedWhileSeeded(config);
    var second := ReseededPending(Run(EMPTY, config, first), config);
    RunConcat(EMPTY, config, first, second);
    var third := ProvenOverOldLink(Run(EMPTY, config, first + second), config, password);
    RunConcat(EMPTY, config, first + second, third);
    steps := first + second + third;
  }

  /** Even an activation can go over a link from before the present password. */
  lemma SeederLetsOldLinkActivate(config: Config, password: Password)
    requires config.ttl > 0 && config.verify(password, "k")
    ensures exists steps, r ::
              var s := Run(EMPTY, config, steps);
              && Activates(s, config, Apply(r), 0) && r in s.requests && s.requests[r].token in s.links
              && s.links[s.requests[r].token].generation != s.accounts[0].generation
  {
    var steps := RunToOldLink(config, password);
    ActivatesOverOldLink(Run(EMPTY, config, steps), config, password);
    assert Run(EMPTY, config, steps).requests[0].token == 1;
  }

  /** Registering a pending address again disarms every link sent before it, for
      good: only a link sent after the latest credential can activate. */
  lemma ReRegistrationDisarmsOldLinks(s: State, config: Config, user: UserId, email: Email, hash: Hash, token: Token,
                                      steps: seq<Step>, earlier: Token)
    requires Is(s, user, Pending) && s.accounts[user].email == Some(email) && s.accounts[user].credential.Some?
    requires token !in s.issued && hash != ""
    requires earlier in s.issued && earlier in s.links && s.links[earlier].user == user
    ensures var again := Next(s, config, Submit(user, email, hash, token));
            && again.accounts[user].credential == Some(hash) && again.accounts[user].sessions == {}
            && !Live(Run(again, config, steps), earlier)
  {
    SpentForever(Next(s, config, Submit(user, email, hash, token)), config, steps, earlier);
  }

  /** So at any time an account that is active or verified was vouched for by its
      provider, set up by the operator, or some password was proved against the
      credential that was on it when it became active. */
  lemma VerifiedAccountsWereProven(config: Config, steps: seq<Step>, user: UserId)
    requires var s := Run(EMPTY, config, steps);
             user in s.accounts && (s.accounts[user].state == Active || s.accounts[user].verified)
    ensures var s := Run(EMPTY, config, steps);
            || user in s.vouched || user in s.seeded
            || exists i :: 0 <= i < |s.activations| && s.activations[i].user == user &&
                 config.verify(s.activations[i].password, s.activations[i].credential)
  {
    RunKeepsInv(EMPTY, config, steps);
  }

  // ---------------------------------------------------------------------------
  // The service calls, as runs of those steps
  // ---------------------------------------------------------------------------

  lemma {:induction false} RunConcat(s: State, config: Config, steps: seq<Step>, rest: seq<Step>)
    ensures Run(s, config, steps + rest) == Run(Run(s, config, steps), config, rest)
    decreases |steps|
  {
    if steps == [] {
      assert steps + rest == rest;
    } else {
      RunConcat(Next(s, config, steps[0]), config, steps[1..], rest);
      assert (steps + rest)[1..] == steps[1..] + rest;
    }
  }

  datatype AuthError = TokenInvalid | RateLimited | InvalidCredentials | EmailTaken | TermsChanged | Internal

  /** What the outbox makes of a confirmation. */
  datatype Confirmation = Applied | Refused | Conflict

  /** What a link and a password are good for when nothing else intervenes. */
  predicate Verifiable(s: State, config: Config, token: Token, password: Password, allowed: bool) {
    && Live(s, token)
    && var l := s.links[token];
       || (&& Is(s, l.user, Active)
           && (s.accounts[l.user].email == Some(l.email) || !Taken(s.accounts, l.email)))
       || (&& Is(s, l.user, Pending) && allowed
           && s.accounts[l.user].email == Some(l.email)
           && s.accounts[l.user].credential.Some?
           && s.accounts[l.user].credential.value != ""
           && config.verify(password, s.accounts[l.user].credential.value))
  }

  class AuthService {
    const config: Config
    var now: int
    var accounts: map<UserId, Account>
    var links: map<Token, Link>
    /** The whole state the steps speak of, other requests' part included. */
    ghost var world: State

    ghost predicate Agrees()
      reads this
    {
      world.now == now && world.accounts == accounts && world.links == links
    }

    constructor (config: Config)
      ensures this.config == config && world == EMPTY && Agrees()
    {
      this.config, now, accounts, links, world := config, 0, map[], map[], EMPTY;
    }

    /** Records that what was just done is `step`. */
    ghost method Took(step: Step, before: State, done: seq<Step>) returns (steps: seq<Step>)
      requires world == Run(before, config, done)
      modifies `world
      ensures world == Next(old(world), config, step)
      ensures steps == done + [step] && world == Run(before, config, steps)
    {
      RunConcat(before, config, done, [step]);
      world := Next(world, config, step);
      assert Run(world, config, []) == world;
      steps := done + [step];
    }

    /** What applying a link does: its account is verified, active and has the
        link's address, its sessions are gone if it was pending, and none of its
        links can be used again. */
    twostate predicate Verified(token: Token)
      reads this
    {
      && token in old(links)
      && var l := old(links)[token];
         && l.user in old(accounts) && l.user in accounts
         && accounts[l.user].state == Active && accounts[l.user].verified
         && accounts[l.user].email == Some(l.email)
         && accounts[l.user].credential == old(accounts)[l.user].credential
         && (old(accounts)[l.user].state == Pending ==> accounts[l.user].sessions == {})
         && links == Retire(old(links), l.user)
         && forall u :: u in old(accounts) && u != l.user ==> u in accounts && accounts[u] == old(accounts)[u]
    }

    /** The registration transaction: a new address gets an account, a pending one its
        credential replaced, any other nothing. Terms that are no longer the ones
        shown, or a pending account without a password, undo all of it. */
    method Register(user: UserId, email: Email, hash: Hash, token: Token, termsValid: bool)
      returns (r: Result<bool, AuthError>)
      requires Agrees() && token !in world.issued && hash != ""
      requires user in accounts ==> accounts[user].email == Some(email)
      requires user !in accounts ==> !Taken(accounts, email)
      modifies `accounts, `links, `world
      ensures Agrees()
      ensures r.Err? <==> !termsValid || (Is(old(world), user, Pending) && old(accounts)[user].credential.None?)
      ensures r.Err? ==> world == old(world)
      ensures r.Ok? ==> world == Next(old(world), config, Submit(user, email, hash, token))
      ensures r.Ok? ==> (r.value <==> user !in old(accounts) || old(accounts)[user].state == Pending)
    {
      if !termsValid {
        return Err(TermsChanged);
      }
      r := Ok(true);
      if user in accounts {
        var a := accounts[user];
        if a.state == Pending && a.credential.Some? {
          accounts := accounts[user := a.(credential := Some(hash), generation := a.generation + 1)];
          accounts := accounts[user := accounts[user].(sessions := {})];
          links := Retire(links, user);
          links := links[token := Link(user, email, now + config.ttl, false, a.generation + 1, a.reseeds)];
          assert a.sessions * {} == {};
        } else if a.state == Pending {
          return Err(Internal);
        } else {
          r := Ok(false);
        }
      } else {
        accounts := accounts[user := Account(Some(email), Pending, false, Some(hash), 0, 0, {})];
        links := links[token := Link(user, email, now + config.ttl, false, 0, 0)];
      }
      world := Next(world, config, Submit(user, email, hash, token));
    }

    /** What stands against a confirmation, check by check. */
    method CheckConfirmation(token: Token, notice: Option<Email>, proven: Option<Hash>) returns (outcome: Confirmation)
      requires Agrees()
      ensures outcome.Applied? <==> Confirms(world, token, notice, proven)
      ensures outcome.Conflict? ==>
                && Live(world, token) && links[token].user in accounts
                && (accounts[links[token].user].email != notice ||
                    (accounts[links[token].user].email != Some(links[token].email) &&
                        Taken(accounts, links[token].email)))
    {
      if token !in links || links[token].used || links[token].expires <= now {
        return Refused;
      }
      var l := links[token];
      if l.user !in accounts || (accounts[l.user].state != Pending && accounts[l.user].state != Active) {
        return Refused;
      }
      var a := accounts[l.user];
      if a.email != notice {
        return Conflict;
      }
      var changed := a.email != Some(l.email);
      if changed && a.state != Active {
        return Refused;
      }
      if a.state == Pending && (proven.None? || a.credential != proven) {
        return Refused;
      }
      if changed && Taken(accounts, l.email) {
        return Conflict;
      }
      return Applied;
    }

    /** The confirmation transaction: all of it happens, or none. */
    method ConfirmEmail(token: Token, notice: Option<Email>, proven: Option<Hash>) returns (outcome: Confirmation)
      requires Agrees()
      modifies `accounts, `links
      ensures outcome.Applied? <==> Confirms(world, token, notice, proven)
      ensures outcome.Applied? ==>
                && accounts == Confirm(world, token, notice, proven).accounts
                && links == Confirm(world, token, notice, proven).links
      ensures !outcome.Applied? ==> accounts == old(accounts) && links == old(links)
      ensures outcome.Conflict? ==>
                && Live(world, token) && links[token].user in accounts
                && (accounts[links[token].user].email != notice ||
                    (accounts[links[token].user].email != Some(links[token].email) &&
                        Taken(accounts, links[token].email)))
    {
      outcome := CheckConfirmation(token, notice, proven);
      if outcome.Applied? {
        var l := links[token];
        var a := accounts[l.user];
        links := links[token := l.(used := true)];
        accounts := accounts[l.user := a.(email := Some(l.email), verified := true, state := Active)];
        if a.email != Some(l.email) || a.state == Pending {
          accounts := accounts[l.user := accounts[l.user].(sessions := {})];
        }
        links := Retire(links, l.user);
      }
    }

    /** The password identity is looked up by address and must be this account's: one
        that moved since it was loaded has no credential to prove. */
    predicate HasCredential(user: UserId, email: Option<Email>)
      reads this
    {
      && user in accounts && email.Some? && accounts[user].email == email
      && accounts[user].credential.Some? && accounts[user].credential.value != ""
    }

    /** The credential the password proves, read without locking anything. */
    method ProveActivationPassword(user: UserId, email: Option<Email>, password: Password, allowed: bool)
      returns (r: Result<Hash, AuthError>)
      ensures r.Ok? <==>
                allowed && HasCredential(user, email) && config.verify(password, accounts[user].credential.value)
      ensures r.Ok? ==> accounts[user].credential == Some(r.value)
      ensures r.Err? ==> r.error == if allowed then InvalidCredentials else RateLimited
    {
      if !allowed {
        return Err(RateLimited);
      }
      if !HasCredential(user, email) {
        return Err(InvalidCredentials);
      }
      var hash := accounts[user].credential.value;
      if !config.verify(password, hash) {
        return Err(InvalidCredentials);
      }
      return Ok(hash);
    }

    /** The account a live link is for, read without spending anything. */
    method VerificationTarget(token: Token, password: Password, ghost r: RequestId)
      returns (result: Result<UserId, AuthError>, ghost steps: seq<Step>)
      requires Agrees() && r !in world.requests
      modifies `world
      ensures world == Run(old(world), config, steps)
      ensures world.(requests := old(world).requests) == old(world)
      ensures result.Ok? <==> Live(world, token) && CanLogIn(world, links[token].user)
      ensures result.Ok? ==>
                && result.value == links[token].user && r in world.requests
                && var a := accounts[result.value];
                   world.requests[r] == Request(token, password, Loaded(result.value, a.email, a.state == Pending))
      ensures result.Err? ==> result.error == TokenInvalid
    {
      ghost var before := world;
      steps := Took(Begin(r, token, password), before, []);
      if token !in links || links[token].used || links[token].expires <= now {
        return Err(TokenInvalid), steps;
      }
      var user := links[token].user;
      steps := Took(Load(r), before, steps);
      if user !in accounts || (accounts[user].state != Pending && accounts[user].state != Active) {
        return Err(TokenInvalid), steps;
      }
      return Ok(user), steps;
    }

    /** A pending account asks for its password; an active one for nothing. */
    method ProveIfPending(user: UserId, password: Password, allowed: bool, ghost r: RequestId)
      returns (result: Result<Option<Hash>, AuthError>, ghost steps: seq<Step>)
      requires Agrees() && CanLogIn(world, user) && r in world.requests
      requires var a := accounts[user];
               world.requests[r].password == password &&
                   world.requests[r].progress == Loaded(user, a.email, a.state == Pending)
      modifies `world
      ensures world == Run(old(world), config, steps)
      ensures world.(requests := old(world).requests) == old(world)
      ensures result.Ok? <==>
                || Is(world, user, Active)
                || (&& allowed && accounts[user].email.Some? && accounts[user].credential.Some?
                    && accounts[user].credential.value != "" &&
                        config.verify(password, accounts[user].credential.value))
      ensures result.Ok? ==>
                && (Is(world, user, Pending) ==> result.value == accounts[user].credential)
                && r in world.requests
                && world.requests[r] ==
                    old(world).requests[r].(progress := Proven(user, accounts[user].email, result.value))
      ensures result.Err? ==> result.error == if allowed then InvalidCredentials else RateLimited
    {
      ghost var before := world;
      var proven := None;
      if accounts[user].state == Pending {
        var proof := ProveActivationPassword(user, accounts[user].email, password, allowed);
        if proof.Err? {
          steps := Took(Abandon(r), before, []);
          return Err(proof.error), steps;
        }
        proven := Some(proof.value);
      }
      steps := Took(Prove(r), before, []);
      return Ok(proven), steps;
    }

    /** The confirmation, as the last step of a proved request. */
    method ApplyLink(token: Token, notice: Option<Email>, proven: Option<Hash>, ghost r: RequestId)
      returns (outcome: Confirmation)
      requires Agrees() && r in world.requests && world.requests[r].token == token
      requires world.requests[r].progress.Proven?
      requires world.requests[r].progress.email == notice && world.requests[r].progress.hash == proven
      modifies `accounts, `links, `world
      ensures Agrees() && world == Next(old(world), config, Apply(r))
      ensures outcome.Applied? <==> Confirms(old(world), token, notice, proven)
      ensures outcome.Applied? ==> old(accounts)[old(links)[token].user].email == notice && Verified(token)
      ensures !outcome.Applied? ==> accounts == old(accounts) && links == old(links)
    {
      outcome := ConfirmEmail(token, notice, proven);
      world := Next(world, config, Apply(r));
    }

    /** Looks the link up, proves the password of a pending account, and confirms.
        Alone, it succeeds exactly when link and password are good; failing, it
        leaves accounts and links as they were. */
    method VerifyEmail(token: Token, password: Password, allowed: bool, ghost r: RequestId)
      returns (result: Result<(), AuthError>, ghost steps: seq<Step>)
      requires Agrees() && r !in world.requests
      modifies `accounts, `links, `world
      ensures Agrees() && world == Run(old(world), config, steps)
      ensures result.Ok? <==> Verifiable(old(world), config, token, password, allowed)
      ensures result.Ok? ==> Verified(token)
      ensures result.Err? ==> accounts == old(accounts) && links == old(links)
      ensures result.Err? && allowed && Live(old(world), token) && Is(old(world), links[token].user, Pending) &&
                accounts[links[token].user].email == Some(links[token].email) ==>
                result.error == InvalidCredentials
    {
      ghost var before := world;
      var target;
      target, steps := VerificationTarget(token, password, r);
      if target.Err? {
        return Err(target.error), steps;
      }
      ghost var rest;
      var proof;
      proof, rest := ProveIfPending(target.value, password, allowed, r);
      RunConcat(before, config, steps, rest);
      steps := steps + rest;
      if proof.Err? {
        return Err(proof.error), steps;
      }
      RunConcat(before, config, steps, [Apply(r)]);
      assert Run(world, config, [Apply(r)]) == Next(world, config, Apply(r));
      steps := steps + [Apply(r)];
      var outcome := ApplyLink(token, accounts[target.value].email, proof.value, r);
      match outcome {
        case Applied => return Ok(()), steps;
        case Refused => return Err(TokenInvalid), steps;
        case Conflict => return Err(EmailTaken), steps;
      }
    }
  }
}
