/** Safety of the session protocol over every run of SessionProtocol. */
module SessionSafety {
  import opened Prelude
  import opened StateMachine
  import opened SessionTable
  import opened SessionProtocol

  // ---- One step -------------------------------------------------------------------------------

  ghost predicate RegionKept(s: State, s': State) {
    (s in PAST_VERIFYING ==> s' in PAST_VERIFYING) && (s in CLOSING_STATES ==> s' in CLOSING_STATES)
  }

  lemma {:induction false} ChainKeepsRegions(s: State, moves: seq<State>)
    requires Chain(s, moves)
    ensures RegionKept(s, EndOf(s, moves))
    decreases moves
  {
    if moves != [] {
      RegionsAreClosed(s, moves[0]);
      ChainKeepsRegions(moves[0], moves[1..]);
    }
  }

  lemma TargetsAreChain(observed: State, call: Call)
    requires ValidTransition(observed, Targets(call)[0])
    ensures Chain(observed, Targets(call))
  {
    var t := Targets(call);
    assert Chain(Last(t), []);
    if |t| == 2 {
      assert t[1..] == [Last(t)];
      assert Chain(PendingHumanReview, t[1..]) by {
        assert t[1..][1..] == [];
      }
    } else {
      assert t[1..] == [];
    }
  }

  /** A step takes each session along the state table, through the statuses it commits. */
  lemma StepFollowsTable(w: World, e: Event, id: SessionId)
    requires Inv(w)
    ensures id in w.rows ==>
              && id in Apply(w, e).rows
              && Chain(w.rows[id].status, Moves(w, e, id))
              && Apply(w, e).rows[id].status == EndOf(w.rows[id].status, Moves(w, e, id))
    ensures id !in w.rows ==>
              if id in Apply(w, e).rows
              then Moves(w, e, id) == [Created] && Apply(w, e).rows[id] == NEW_ROW
              else Moves(w, e, id) == []
  {
    match e
    case Write(a) => WriteFollowsTable(w, a, id);
    case Sweep(_) =>
      assert Chain(AbandonedVerifying, []);
      assert [AbandonedVerifying][1..] == [];
    case CreateSession(_) =>
    case _ => OthersKeepStatus(w, e, id);
  }

  lemma OthersKeepStatus(w: World, e: Event, id: SessionId)
    requires !e.Write? && !e.Sweep? && !e.CreateSession?
    ensures Moves(w, e, id) == [] && (id in w.rows <==> id in Apply(w, e).rows)
    ensures id in w.rows ==> Apply(w, e).rows[id].status == w.rows[id].status
  {
  }

  lemma WriteFollowsTable(w: World, a: ActorId, id: SessionId)
    requires Inv(w)
    ensures var (w', moves) := (Apply(w, Write(a)), Moves(w, Write(a), id));
            && (id in w.rows <==> id in w'.rows) && (id !in w.rows ==> moves == [])
            && (id in w.rows ==>
                  Chain(w.rows[id].status, moves) && w'.rows[id].status == EndOf(w.rows[id].status, moves))
  {
    if Commits(w, a) {
      assert ActorOk(w, w.actors[a]);
      TargetsAreChain(ActorOf(w, a).observed, ActorOf(w, a).call);
    }
  }

  lemma ActorKept(w: World, w': World, actor: Actor)
    requires ActorOk(w, actor)
    requires forall id :: id in w.rows ==> id in w'.rows && RegionKept(w.rows[id].status, w'.rows[id].status)
    requires forall t :: t in w.tokens ==> t in w'.tokens && w'.tokens[t].session == w.tokens[t].session
    ensures ActorOk(w', actor)
  {
  }

  lemma StepKeepsRegions(w: World, e: Event)
    requires Inv(w)
    ensures forall id :: id in w.rows ==>
              id in Apply(w, e).rows && RegionKept(w.rows[id].status, Apply(w, e).rows[id].status)
  {
    forall id | id in w.rows
      ensures id in Apply(w, e).rows && RegionKept(w.rows[id].status, Apply(w, e).rows[id].status)
    {
      StepFollowsTable(w, e, id);
      ChainKeepsRegions(w.rows[id].status, Moves(w, e, id));
    }
  }

  lemma TokensStay(w: World, e: Event, t: TokenId)
    requires t in w.tokens
    ensures t in Apply(w, e).tokens && Apply(w, e).tokens[t].session == w.tokens[t].session
  {
  }

  /** A token that a step adds is one of a session the caller has loaded or is writing. */
  lemma NewToken(w: World, e: Event, t: TokenId)
    requires Inv(w) && t in Apply(w, e).tokens && t !in w.tokens
    ensures Apply(w, e).tokens[t].session in w.rows
  {
    assert e.Write? || e.InsertToken?;
    assert e.a in w.actors && ActorOk(w, w.actors[e.a]);
  }

  lemma StepKeepsTokens(w: World, e: Event)
    requires Inv(w)
    ensures forall t :: t in w.tokens ==>
              t in Apply(w, e).tokens && Apply(w, e).tokens[t].session == w.tokens[t].session
    ensures forall t :: t in Apply(w, e).tokens ==> Apply(w, e).tokens[t].session in Apply(w, e).rows
  {
    StepKeepsRegions(w, e);
    forall t | t in w.tokens
      ensures t in Apply(w, e).tokens && Apply(w, e).tokens[t].session == w.tokens[t].session
    {
      TokensStay(w, e, t);
    }
    forall t | t in Apply(w, e).tokens && t !in w.tokens
      ensures Apply(w, e).tokens[t].session in w.rows
    {
      NewToken(w, e, t);
    }
  }

  /** Outside complete_processing and fail_processing no call leaves VERIFYING. */
  lemma OnlyProcessingExits(w: World, a: ActorId)
    requires Inv(w) && ActorOf(w, a).InFlight?
    ensures ActorOf(w, a).call.Complete? || ActorOf(w, a).call.Fail? || ActorOf(w, a).observed != Verifying
  {
    assert ActorOk(w, w.actors[a]);
    match ActorOf(w, a).call
    case _ =>
  }

  lemma CommitKeepsLease(w: World, a: ActorId)
    requires Inv(w) && Commits(w, a)
    ensures var row := AfterCommit(w, a).rows[ActorOf(w, a).id]; row.lease.Some? ==> row.status == Verifying
  {
    var InFlight(id, observed, call) := ActorOf(w, a);
    OnlyProcessingExits(w, a);
    var row := w.rows[id];
    var row' := AfterCommit(w, a).rows[id];
    assert row' == Written(row, Last(Targets(call)), ValuesOf(call));
    match call
    case Run =>
    case Acquire(_) =>
    case Complete(_, _, _, _) =>
    case Fail(_, _, _) =>
    case _ => assert row'.lease == row.lease == None;
  }

  lemma StepKeepsLeases(w: World, e: Event, id: SessionId)
    requires Inv(w)
    requires id in Apply(w, e).rows && Apply(w, e).rows[id].lease.Some?
    ensures Apply(w, e).rows[id].status == Verifying
  {
    if e.Write? {
      if Commits(w, e.a) {
        CommitKeepsLease(w, e.a);
      }
    }
  }

  /** What a write leaves its caller holding is justified by the world it leaves. */
  lemma WriterOk(w: World, a: ActorId)
    requires Inv(w) && ActorOf(w, a).InFlight?
    ensures ActorOk(Apply(w, Write(a)), ActorOf(Apply(w, Write(a)), a))
  {
    var InFlight(id, observed, call) := ActorOf(w, a);
    assert ActorOk(w, w.actors[a]);
    if Commits(w, a) {
      assert Apply(w, Write(a)).rows[id].status == Last(Targets(call));
    }
  }

  /** What a step may leave a caller holding is justified by the world it leaves. */
  lemma NewActorOk(w: World, e: Event, a: ActorId)
    requires Inv(w) && a in Apply(w, e).actors
    requires a !in w.actors || Apply(w, e).actors[a] != w.actors[a]
    ensures ActorOk(Apply(w, e), Apply(w, e).actors[a])
  {
    if e.Write? {
      CallerChanges(w, e, a);
      WriterOk(w, a);
    } else if e.Read? {
      CallerChanges(w, e, a);
      ReaderOk(w, a, e.id, e.call);
    } else {
      LoaderOk(w, e, a);
    }
  }

  /** A read or write changes only what its caller holds. */
  lemma CallerChanges(w: World, e: Event, a: ActorId)
    requires (e.Write? || e.Read?) && a in Apply(w, e).actors
    requires a !in w.actors || Apply(w, e).actors[a] != w.actors[a]
    ensures a == e.a && (e.Write? ==> ActorOf(w, a).InFlight?)
  {
  }

  /** Outside reads and writes a caller that changes becomes idle, or holds what it has just loaded. */
  lemma LoaderOk(w: World, e: Event, a: ActorId)
    requires Inv(w) && !e.Write? && !e.Read? && a in Apply(w, e).actors
    requires a !in w.actors || Apply(w, e).actors[a] != w.actors[a]
    ensures Apply(w, e).rows == w.rows && Apply(w, e).actors[a] != Idle ==> Apply(w, e).tokens == w.tokens
    ensures ActorOk(Apply(w, e), Apply(w, e).actors[a])
  {
    match e
    case LoadForReview(_, _, _) =>
    case LoadForToken(_, _, _, _) =>
    case LoadForUpload(_, _) =>
    case Inject(_, _) =>
    case _ =>
  }

  lemma ReaderOk(w: World, a: ActorId, id: SessionId, call: Call)
    requires Inv(w) && a in AfterRead(w, a, id, call).actors
    ensures ActorOk(AfterRead(w, a, id, call), AfterRead(w, a, id, call).actors[a])
  {
    var w' := AfterRead(w, a, id, call);
    assert w'.rows == w.rows && w'.tokens == w.tokens;
    if a in w.actors {
      assert ActorOk(w, w.actors[a]);
    }
  }

  lemma StepKeepsActors(w: World, e: Event, a: ActorId)
    requires Inv(w) && a in Apply(w, e).actors
    ensures ActorOk(Apply(w, e), Apply(w, e).actors[a])
  {
    if a in w.actors && Apply(w, e).actors[a] == w.actors[a] {
      StepKeepsRegions(w, e);
      StepKeepsTokens(w, e);
      ActorKept(w, Apply(w, e), w.actors[a]);
    } else {
      NewActorOk(w, e, a);
    }
  }

  lemma StepKeepsInv(w: World, e: Event)
    requires Inv(w)
    ensures Inv(Apply(w, e))
  {
    var w' := Apply(w, e);
    StepKeepsTokens(w, e);
    forall id | id in w'.rows && w'.rows[id].lease.Some?
      ensures w'.rows[id].status == Verifying
    {
      StepKeepsLeases(w, e, id);
    }
    forall a | a in w'.actors
      ensures ActorOk(w', w'.actors[a])
    {
      StepKeepsActors(w, e, a);
    }
  }

  // ---- Runs: histories and leases -------------------------------------------------------------

  lemma {:induction false} RunKeepsInv(es: seq<Event>)
    ensures Inv(RunTo(es))
  {
    if es != [] {
      RunKeepsInv(es[..|es| - 1]);
      StepKeepsInv(RunTo(es[..|es| - 1]), es[|es| - 1]);
    }
  }

  lemma {:induction false} HistoryAppend(t: seq<State>, moves: seq<State>)
    requires IsHistory(t) && Chain(Last(t), moves)
    ensures IsHistory(t + moves) && Last(t + moves) == EndOf(Last(t), moves)
    decreases moves
  {
    if moves == [] {
      assert t + moves == t;
    } else {
      HistoryExtend(t, moves[0]);
      HistoryAppend(t + [moves[0]], moves[1..]);
      assert t + moves == (t + [moves[0]]) + moves[1..];
    }
  }

  /**
   Whatever the interleaving and however stale the reads, the statuses committed to a session
   form a path of the state table from CREATED that ends in its present status.
   */
  lemma {:induction false} CommittedHistoryFollowsTable(es: seq<Event>, id: SessionId)
    ensures id in RunTo(es).rows ==> IsHistory(Trail(es, id)) && Last(Trail(es, id)) == RunTo(es).rows[id].status
    ensures id !in RunTo(es).rows ==> Trail(es, id) == []
  {
    if es != [] {
      var init, e := es[..|es| - 1], es[|es| - 1];
      CommittedHistoryFollowsTable(init, id);
      RunKeepsInv(init);
      StepFollowsTable(RunTo(init), e, id);
      if id in RunTo(init).rows {
        HistoryAppend(Trail(init, id), Moves(RunTo(init), e, id));
      }
    }
  }

  /** What the state table implies for every session of every run. */
  lemma SessionLifetime(es: seq<Event>, id: SessionId)
    requires id in RunTo(es).rows
    ensures var t, now := Trail(es, id), RunTo(es).rows[id].status;
            && |t| - 1 <= 3 * Retries(t) + 8
            && Entries(t) == Exits(t) + (if now == Verifying then 1 else 0)
            && (now == PurgeComplete ==> Visits(t, PendingHumanReview) == 1 && HumanDecisions(t) == 1)
  {
    var t := Trail(es, id);
    CommittedHistoryFollowsTable(es, id);
    RetriesBoundLength(t);
    EntriesAndExits(t);
    if Last(t) == PurgeComplete {
      PurgeNeedsOneDecision(t);
    }
  }

  /** A lease is held only on a session that is VERIFYING. */
  lemma LeaseImpliesVerifying(es: seq<Event>, id: SessionId)
    requires id in RunTo(es).rows && RunTo(es).rows[id].lease.Some?
    ensures RunTo(es).rows[id].status == Verifying
  {
    RunKeepsInv(es);
  }

  /** Event `k` is a committed acquisition of the lease of session `id`. */
  ghost predicate Acquires(es: seq<Event>, k: nat, id: SessionId)
    requires k < |es|
  {
    var w := RunTo(es[..k]);
    && es[k].Write? && Commits(w, es[k].a)
    && ActorOf(w, es[k].a).id == id && ActorOf(w, es[k].a).call.Acquire?
  }

  /** Event `k` is a completion, a failure or a sweep that takes session `id` out of VERIFYING. */
  ghost predicate Releases(es: seq<Event>, k: nat, id: SessionId)
    requires k < |es|
  {
    var w, e := RunTo(es[..k]), es[k];
    && id in w.rows && w.rows[id].status == Verifying
    && id in Apply(w, e).rows && Apply(w, e).rows[id].status != Verifying && Apply(w, e).rows[id].lease == None
    && (e.Sweep? ||
        (e.Write? && Commits(w, e.a) && ActorOf(w, e.a).id == id &&
         (ActorOf(w, e.a).call.Complete? || ActorOf(w, e.a).call.Fail?)))
  }

  lemma RunStep(es: seq<Event>, k: nat)
    requires k < |es|
    ensures RunTo(es[..k + 1]) == Apply(RunTo(es[..k]), es[k])
    ensures Inv(RunTo(es[..k]))
  {
    assert es[..k + 1][..k] == es[..k];
    RunKeepsInv(es[..k]);
  }

  lemma LeavingVerifying(w: World, e: Event, id: SessionId)
    requires Inv(w) && id in w.rows && w.rows[id].status == Verifying
    requires id in Apply(w, e).rows && Apply(w, e).rows[id].status != Verifying
    ensures Apply(w, e).rows[id].lease == None
    ensures e.Sweep? ||
            (e.Write? && Commits(w, e.a) && ActorOf(w, e.a).id == id &&
             (ActorOf(w, e.a).call.Complete? || ActorOf(w, e.a).call.Fail?))
  {
    StepFollowsTable(w, e, id);
    if e.Write? {
      OnlyProcessingExits(w, e.a);
    }
    StepKeepsInv(w, e);
  }

  ghost predicate VerifyingAt(es: seq<Event>, k: nat, id: SessionId)
    requires k <= |es|
  {
    id in RunTo(es[..k]).rows && RunTo(es[..k]).rows[id].status == Verifying
  }

  lemma ReleaseHere(es: seq<Event>, k: nat, id: SessionId)
    requires k < |es| && VerifyingAt(es, k, id) && !VerifyingAt(es, k + 1, id)
    ensures Releases(es, k, id)
  {
    RunStep(es, k);
    StepFollowsTable(RunTo(es[..k]), es[k], id);
    LeavingVerifying(RunTo(es[..k]), es[k], id);
  }

  lemma {:induction false} ReleaseBetween(es: seq<Event>, lo: nat, hi: nat, id: SessionId) returns (k: nat)
    requires lo <= hi <= |es| && VerifyingAt(es, lo, id) && !VerifyingAt(es, hi, id)
    ensures lo <= k < hi && Releases(es, k, id)
    decreases hi - lo
  {
    if VerifyingAt(es, hi - 1, id) {
      k := hi - 1;
      ReleaseHere(es, k, id);
    } else {
      k := ReleaseBetween(es, lo, hi - 1, id);
    }
  }

  lemma AcquireEntersVerifying(w: World, a: ActorId)
    requires Inv(w) && Commits(w, a) && ActorOf(w, a).call.Acquire?
    ensures w.rows[ActorOf(w, a).id].status != Verifying
    ensures Apply(w, Write(a)).rows[ActorOf(w, a).id].status == Verifying
  {
    assert ActorOk(w, ActorOf(w, a));
  }

  /** Between two acquisitions of one session's lease there is a completion, a failure or a sweep of it. */
  lemma AcquisitionsAreSeparated(es: seq<Event>, i: nat, j: nat, id: SessionId) returns (k: nat)
    requires i < j < |es| && Acquires(es, i, id) && Acquires(es, j, id)
    ensures i < k < j && Releases(es, k, id)
  {
    RunStep(es, i);
    RunStep(es, j);
    AcquireEntersVerifying(RunTo(es[..i]), es[i].a);
    AcquireEntersVerifying(RunTo(es[..j]), es[j].a);
    k := ReleaseBetween(es, i + 1, j, id);
  }

  /** A heartbeat or phase write changes a row exactly when its worker holds the lease, and then only that column. */
  lemma OnlyTheHolderWrites(w: World, id: SessionId, worker: WorkerId, phase: string)
    ensures !Holds(w.rows, id, worker) ==>
              Apply(w, Heartbeat(id, worker)) == w && Apply(w, Phase(id, worker, phase)) == w
    ensures Holds(w.rows, id, worker) ==>
              && Apply(w, Heartbeat(id, worker)) == w.(rows := w.rows[id := w.rows[id].(heartbeat := Some(w.now))])
              && Apply(w, Phase(id, worker, phase)) == w.(rows := w.rows[id := w.rows[id].(phase := Some(phase))])
  {
  }
}
