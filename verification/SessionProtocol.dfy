/**
 Everything that touches a session, interleaved statement by statement.

 A world is the committed tables plus what each caller holds between two of its statements. Reviewers, uploaders, the
 /run route, workers, callers that inject their own stages, the close route and the sweeper take steps in any order;
 transition_state is a read step and a later compare-and-set step, so every value a caller acts on may be stale.
 A caller's statements after its first write are in the same transaction and hold the row, so they commit with it.
 */
module SessionProtocol {
  import opened Prelude
  import opened StateMachine
  import opened SessionTable

  type ActorId = string
  type TokenId = string

  /** The column reviewer_decision of an audit receipt. */
  datatype Decision = Approved | Rejected | NeedsManualReview

  function FinalState(d: Decision): State {
    match d
    case Approved => HumanApproved
    case Rejected => HumanRejected
    case NeedsManualReview => ManualReviewRequired
  }

  datatype Token = Token(session: SessionId, used: bool, expires: Time)

  datatype Receipt = Receipt(
    decision: Option<Decision>,
    approvedAt: Option<Time>,
    rejectedAt: Option<Time>,
    manualReviewAt: Option<Time>)

  /** What store_audit_bundle writes before any reviewer has decided. */
  const UNDECIDED_RECEIPT := Receipt(None, None, None, None)

  /**
   Who runs a verification: the /run route, a worker under its lease, or start_verification with stages
   injected by its caller, which runs the pipeline on a session it has not taken and stores no bundle.
   */
  datatype Origin = ByRoute | ByWorker(worker: WorkerId) | Injected

  /**
   How far a verification has come: a failed completion leads to fail_processing, and that only to the end. `stored`
   says whether an audit bundle lies in the caller's open transaction.
   */
  datatype Stage = Working | MustFail(stored: bool) | Leaving(stored: bool)

  /** One use of transition_state by one of its callers; `bundled` says that it commits an audit bundle as well. */
  datatype Call =
    | Run
    | Acquire(worker: WorkerId)
    | Complete(origin: Origin, outcomeState: State, outcome: string, bundled: bool)
    | Fail(origin: Origin, failureState: State, bundled: bool)
    | OpenUpload(token: TokenId, expires: Time)
    | Upload(token: TokenId)
    | Review(decision: Decision, viaPending: bool)
    | StartCleanup
    | FinishPurge
    | FailPurge

  /** What a caller remembers between its statements. */
  datatype Actor =
    | Idle
    | ReviewLoaded(id: SessionId, decision: Decision, seen: State)
    | TokenLoaded(id: SessionId, token: TokenId, expires: Time, seen: State)
    | UploadLoaded(id: SessionId, token: TokenId)
    | Closing(id: SessionId)
    | Processing(id: SessionId, origin: Origin, stage: Stage)
    | InFlight(id: SessionId, observed: State, call: Call)

  datatype World = World(
    now: Time,
    rows: Rows,
    tokens: map<TokenId, Token>,
    receipts: map<SessionId, seq<Receipt>>,
    actors: map<ActorId, Actor>)

  const INIT := World(0, map[], map[], map[], map[])

  /** `StoreBundle` is the bundle of a worker that can neither complete nor fail: marking its job failed commits it. */
  datatype Event =
    | Tick(d: nat)
    | CreateSession(id: SessionId)
    | LoadForReview(a: ActorId, id: SessionId, decision: Decision)
    | LoadForToken(a: ActorId, id: SessionId, token: TokenId, expires: Time)
    | LoadForUpload(a: ActorId, token: TokenId)
    | Read(a: ActorId, id: SessionId, call: Call)
    | Write(a: ActorId)
    | ReplayReceipt(a: ActorId)
    | InsertToken(a: ActorId)
    | Heartbeat(id: SessionId, worker: WorkerId)
    | Phase(id: SessionId, worker: WorkerId, phase: string)
    | TouchHeartbeat(id: SessionId)
    | Sweep(timeout: Time)
    | StoreBundle(a: ActorId)
    | Inject(a: ActorId, id: SessionId)
    | Abort(a: ActorId)

  function ActorOf(w: World, a: ActorId): Actor {
    if a in w.actors then w.actors[a] else Idle
  }

  function ReceiptsOf(w: World, id: SessionId): seq<Receipt> {
    if id in w.receipts then w.receipts[id] else []
  }

  /** The statuses a call writes, in order; the review of a VERIFIED_* session writes two in its transaction. */
  function Targets(call: Call): (t: seq<State>)
    ensures 1 <= |t| <= 2
  {
    match call
    case Run => [Verifying]
    case Acquire(_) => [Verifying]
    case Complete(_, s, _, _) => [s]
    case Fail(_, s, _) => [s]
    case OpenUpload(_, _) => [UploadPending]
    case Upload(_) => [UploadedPendingReview]
    case Review(d, viaPending) => if viaPending then [PendingHumanReview, FinalState(d)] else [FinalState(d)]
    case StartCleanup => [PendingCleanup]
    case FinishPurge => [PurgeComplete]
    case FailPurge => [FailedPurged]
  }

  function ValuesOf(call: Call): Values {
    match call
    case Run => NO_VALUES.(phase := Set(Some("GENERALIZED_PIPELINE")))
    case Acquire(w) => AcquireValues(w)
    case Complete(_, _, outcome, _) => CompleteValues(outcome)
    case Fail(_, _, _) => FAIL_VALUES
    case Upload(_) => NO_VALUES.(phase := Set(None), trust := Set(None))
    case FinishPurge => NO_VALUES.(phase := Set(None), heartbeat := Set(None))
    case _ => NO_VALUES
  }

  function GuardOf(call: Call): LeaseGuard {
    if call.Acquire? then NullLease else AnyLease
  }

  predicate Ends(call: Call) {
    call.Complete? || call.Fail?
  }

  /** The states the callers of complete_processing and fail_processing pass, and who stores bundles. */
  predicate WellFormed(call: Call) {
    && (call.Complete? ==> call.outcomeState in VERIFIED_STATES + {PendingHumanReview})
    && (call.Fail? ==>
          call.failureState == FailedRetriable || (call.failureState == FailedPurged && call.origin != ByRoute))
    && (Ends(call) && call.bundled ==> call.origin != Injected)
    && (call.Complete? && call.origin.ByWorker? ==> call.bundled)
  }

  /** Which calls a caller can make next, given what it has loaded. */
  predicate MayCall(actor: Actor, id: SessionId, call: Call) {
    match call
    case Run | Acquire(_) | StartCleanup => actor.Idle?
    case Complete(origin, _, _, _) => actor == Processing(id, origin, Working)
    case Fail(origin, _, bundled) =>
      && actor.Processing? && actor.id == id && actor.origin == origin
      && (match actor.stage
          case Working => bundled ==> origin.ByRoute?
          case MustFail(stored) => bundled == stored
          case Leaving(_) => false)
    case OpenUpload(token, expires) => actor == TokenLoaded(id, token, expires, Created)
    case Upload(token) => actor == UploadLoaded(id, token)
    case Review(d, viaPending) =>
      && actor.ReviewLoaded? && actor.id == id && actor.decision == d
      && (if viaPending then actor.seen in VERIFIED_STATES else actor.seen == PendingHumanReview)
    case FinishPurge | FailPurge => actor == Closing(id)
  }

  /** What a caller is left with when its call is invalid or its write does not match. */
  function AfterFailure(id: SessionId, call: Call): Actor {
    match call
    case Complete(origin, _, _, bundled) => Processing(id, origin, MustFail(bundled))
    case Fail(origin, _, bundled) => Processing(id, origin, Leaving(bundled))
    case FinishPurge => Closing(id)
    case _ => Idle
  }

  /** What a caller goes on to after a committed call. */
  function AfterSuccess(id: SessionId, call: Call): Actor {
    match call
    case Run => Processing(id, ByRoute, Working)
    case Acquire(worker) => Processing(id, ByWorker(worker), Working)
    case StartCleanup => Closing(id)
    case _ => Idle
  }

  /** Who verifies session `id` here, if this caller does. */
  function Verifies(actor: Actor, id: SessionId): Option<Origin> {
    match actor
    case Processing(id', origin, _) => if id' == id then Some(origin) else None
    case InFlight(id', _, call) => if id' == id && Ends(call) then Some(call.origin) else None
    case _ => None
  }

  /** The caller took session `id` into VERIFYING and has not finished with it. */
  predicate Inside(actor: Actor, id: SessionId) {
    Verifies(actor, id).Some? && Verifies(actor, id).value != Injected
  }

  /** The caller is a worker that took session `id` and has not finished with it. */
  predicate WorkerInside(actor: Actor, id: SessionId) {
    Verifies(actor, id).Some? && Verifies(actor, id).value.ByWorker?
  }

  /** The session of a worker that is left with an uncommitted bundle and nothing but its job to mark. */
  function LeftToStore(actor: Actor): Option<SessionId> {
    match actor
    case Processing(id, origin, Leaving(stored)) => if origin.ByWorker? && stored then Some(id) else None
    case _ => None
  }

  /** upsert_final_review_receipt: rewrite the latest receipt, or add the first one. */
  function RecordDecision(rs: seq<Receipt>, d: Decision, now: Time): seq<Receipt> {
    var r := Receipt(
      Some(d),
      if d == Approved then Some(now) else None,
      if d == Rejected then Some(now) else None,
      if d == NeedsManualReview then Some(now) else None);
    if rs == [] then [r] else rs[..|rs| - 1] + [r]
  }

  predicate Commits(w: World, a: ActorId) {
    var actor := ActorOf(w, a);
    && actor.InFlight?
    && CasMatches(w.rows, actor.id, actor.observed, GuardOf(actor.call))
    && (actor.call.OpenUpload? ==> actor.call.token !in w.tokens)
  }

  function Bundled(w: World, id: SessionId): map<SessionId, seq<Receipt>> {
    w.receipts[id := ReceiptsOf(w, id) + [UNDECIDED_RECEIPT]]
  }

  function AfterCommit(w: World, a: ActorId): World
    requires Commits(w, a)
  {
    var InFlight(id, _, call) := ActorOf(w, a);
    World(
      w.now,
      w.rows[id := Written(w.rows[id], Last(Targets(call)), ValuesOf(call))],
      match call
      case OpenUpload(token, expires) => w.tokens[token := Token(id, false, expires)]
      case Upload(token) => if token in w.tokens then w.tokens[token := w.tokens[token].(used := true)] else w.tokens
      case _ => w.tokens,
      if call.Review? then w.receipts[id := RecordDecision(ReceiptsOf(w, id), call.decision, w.now)]
      else if Ends(call) && call.bundled then Bundled(w, id)
      else w.receipts,
      w.actors[a := AfterSuccess(id, call)])
  }

  function AfterRead(w: World, a: ActorId, id: SessionId, call: Call): World {
    var actor := ActorOf(w, a);
    if !MayCall(actor, id, call) || !WellFormed(call) then w
    else if id in w.rows && ValidTransition(w.rows[id].status, Targets(call)[0]) then
      w.(actors := w.actors[a := InFlight(id, w.rows[id].status, call)])
    else w.(actors := w.actors[a := AfterFailure(id, call)])
  }

  function AfterConflict(w: World, a: ActorId): World {
    var actor := ActorOf(w, a);
    w.(actors := w.actors[a := if actor.InFlight? then AfterFailure(actor.id, actor.call) else Idle])
  }

  predicate Replays(w: World, a: ActorId) {
    var actor := ActorOf(w, a);
    actor.ReviewLoaded? && actor.seen == FinalState(actor.decision)
  }

  /** One atomic step; an event that is not possible in `w` changes nothing. */
  function Apply(w: World, e: Event): World {
    match e
    case Tick(d) => w.(now := w.now + d)
    case CreateSession(id) => if id in w.rows then w else w.(rows := w.rows[id := NEW_ROW])
    case LoadForReview(a, id, d) =>
      if ActorOf(w, a).Idle? && id in w.rows
      then w.(actors := w.actors[a := ReviewLoaded(id, d, w.rows[id].status)])
      else w
    case LoadForToken(a, id, token, expires) =>
      if ActorOf(w, a).Idle? && id in w.rows && w.rows[id].status in {Created, UploadPending}
      then w.(actors := w.actors[a := TokenLoaded(id, token, expires, w.rows[id].status)])
      else w
    case LoadForUpload(a, token) =>
      if ActorOf(w, a).Idle? && token in w.tokens && !w.tokens[token].used && !(w.tokens[token].expires < w.now)
      then w.(actors := w.actors[a := UploadLoaded(w.tokens[token].session, token)])
      else w
    case Read(a, id, call) => AfterRead(w, a, id, call)
    case Write(a) =>
      if !ActorOf(w, a).InFlight? then w
      else if Commits(w, a) then AfterCommit(w, a)
      else AfterConflict(w, a)
    case ReplayReceipt(a) =>
      if Replays(w, a) then
        var actor := ActorOf(w, a);
        w.(receipts := w.receipts[actor.id := RecordDecision(ReceiptsOf(w, actor.id), actor.decision, w.now)],
           actors := w.actors[a := Idle])
      else w
    case InsertToken(a) =>
      var actor := ActorOf(w, a);
      if actor.TokenLoaded? && actor.seen == UploadPending && actor.token !in w.tokens
      then w.(tokens := w.tokens[actor.token := Token(actor.id, false, actor.expires)], actors := w.actors[a := Idle])
      else w
    case Heartbeat(id, worker) => w.(rows := BeatRows(w.rows, id, worker, w.now))
    case Phase(id, worker, phase) => w.(rows := PhasedRows(w.rows, id, worker, phase))
    case TouchHeartbeat(id) =>
      if id in w.rows then w.(rows := w.rows[id := w.rows[id].(heartbeat := Some(w.now))]) else w
    case Sweep(timeout) => w.(rows := SweptRows(w.rows, w.now - timeout))
    case StoreBundle(a) =>
      var session := LeftToStore(ActorOf(w, a));
      if session.Some?
      then w.(receipts := Bundled(w, session.value), actors := w.actors[a := Idle])
      else w
    case Inject(a, id) =>
      if ActorOf(w, a).Idle? && id in w.rows
      then w.(actors := w.actors[a := Processing(id, Injected, Working)])
      else w
    case Abort(a) => w.(actors := w.actors[a := Idle])
  }

  /** The statuses that `e` commits to session `id`, in order. */
  function Moves(w: World, e: Event, id: SessionId): seq<State> {
    match e
    case CreateSession(new_) => if new_ == id && id !in w.rows then [Created] else []
    case Write(a) => if Commits(w, a) && ActorOf(w, a).id == id then Targets(ActorOf(w, a).call) else []
    case Sweep(timeout) => if id in w.rows && Stale(w.rows[id], w.now - timeout) then [AbandonedVerifying] else []
    case _ => []
  }

  /** The world after the events of `es`. */
  function RunTo(es: seq<Event>): World {
    if es == [] then INIT else Apply(RunTo(es[..|es| - 1]), es[|es| - 1])
  }

  lemma RunNext(es: seq<Event>, e: Event)
    ensures RunTo(es + [e]) == Apply(RunTo(es), e)
  {
    assert (es + [e])[..|es|] == es;
  }

  lemma RunAppend(es: seq<Event>, more: seq<Event>)
    requires more != []
    ensures RunTo(es + more) == Apply(RunTo(es + more[..|more| - 1]), more[|more| - 1])
  {
    assert (es + more)[..|es + more| - 1] == es + more[..|more| - 1];
  }

  /** The committed status history of session `id`. */
  function Trail(es: seq<Event>, id: SessionId): seq<State> {
    if es == [] then []
    else Trail(es[..|es| - 1], id) + Moves(RunTo(es[..|es| - 1]), es[|es| - 1], id)
  }

  // ---- The invariant of single worlds ---------------------------------------------------------

  ghost predicate ActorOk(w: World, actor: Actor) {
    match actor
    case Idle => true
    case ReviewLoaded(id, _, seen) =>
      id in w.rows && (seen in PAST_VERIFYING ==> w.rows[id].status in PAST_VERIFYING)
    case TokenLoaded(id, _, _, _) => id in w.rows
    case UploadLoaded(id, token) => id in w.rows && token in w.tokens && w.tokens[token].session == id
    case Closing(id) => id in w.rows && w.rows[id].status in CLOSING_STATES
    case Processing(id, origin, stage) => id in w.rows && (origin == Injected && !stage.Working? ==> !stage.stored)
    case InFlight(id, observed, call) =>
      && id in w.rows && WellFormed(call)
      && ValidTransition(observed, Targets(call)[0])
      && (call.Review? ==> observed in PAST_VERIFYING)
      && (call.FinishPurge? || call.FailPurge? ==> observed in CLOSING_STATES)
      && (call.FinishPurge? ==> w.rows[id].status in CLOSING_STATES)
      && (call.Upload? ==> call.token in w.tokens && w.tokens[call.token].session == id)
  }

  ghost predicate Inv(w: World) {
    && (forall id :: id in w.rows && w.rows[id].lease.Some? ==> w.rows[id].status == Verifying)
    && (forall t :: t in w.tokens ==> w.tokens[t].session in w.rows)
    && (forall a :: a in w.actors ==> ActorOk(w, w.actors[a]))
  }

  /** Each of `moves` is allowed after the one before it, starting from `s`. */
  ghost predicate Chain(s: State, moves: seq<State>)
    decreases moves
  {
    moves == [] || (ValidTransition(s, moves[0]) && Chain(moves[0], moves[1..]))
  }

  function EndOf(s: State, moves: seq<State>): State {
    if moves == [] then s else Last(moves)
  }
}
