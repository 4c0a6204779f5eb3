/**
 The two-round agreement machine: `Stable` -> `Preparing` -> `Committing` -> `Stable`.
 `OnRequest`, `OnReady`, `OnRejected` and `OnCommitted` give each operation as a function of the
 manager's value; the class `ModeManager` performs them in place and is proved against them.
 */
module Modes {
  import opened Protocol

  datatype ModeManagerState =
    | Stable(mode: SystemMode)
    | Preparing(transitionId: TransitionId, currentMode: SystemMode, targetMode: SystemMode,
                waitingFor: set<ApplicationId>, ready: set<ApplicationId>)
    | Committing(transitionId: TransitionId, previousMode: SystemMode, targetMode: SystemMode,
                 waitingFor: set<ApplicationId>, committed: set<ApplicationId>)

  datatype ModeEvent =
    | PreparationComplete(transitionId: TransitionId, targetMode: SystemMode)
    | TransitionComplete(transitionId: TransitionId, mode: SystemMode)
    | TransitionAborted(transitionId: TransitionId, rejectedBy: ApplicationId, reason: string)

  datatype ModeError =
    | TransitionInProgress
    | AlreadyInMode
    | NoParticipants
    | StaleTransition
    | UnknownParticipant(application: ApplicationId)
    | InvalidPhase
    | WrongCommittedMode

  datatype Manager = Manager(state: ModeManagerState, nextTransitionId: TransitionId)

  datatype Reply<+T> = Reply(manager: Manager, result: Result<T, ModeError>)

  /** The mode in force: the new mode only once a transition has fully committed. */
  function CurrentMode(state: ModeManagerState): SystemMode {
    match state
    case Stable(mode) => mode
    case Preparing(_, currentMode, _, _, _) => currentMode
    case Committing(_, previousMode, _, _, _) => previousMode
  }

  /** Everyone the active transition was opened with. */
  function Participants(state: ModeManagerState): set<ApplicationId> {
    match state
    case Stable(_) => {}
    case Preparing(_, _, _, waitingFor, ready) => waitingFor + ready
    case Committing(_, _, _, waitingFor, committed) => waitingFor + committed
  }

  /** Those whose response the active round still needs. */
  function Waiting(state: ModeManagerState): set<ApplicationId> {
    if state.Stable? then {} else state.waitingFor
  }

  /**
   The phase invariant: an open round always waits for someone, those it waits for and those who
   have answered partition the participants, and the target differs from the mode in force.
   */
  ghost predicate WellFormed(state: ModeManagerState) {
    match state
    case Stable(_) => true
    case Preparing(_, currentMode, targetMode, waitingFor, ready) =>
      waitingFor != {} && waitingFor !! ready && currentMode != targetMode
    case Committing(_, previousMode, targetMode, waitingFor, committed) =>
      waitingFor != {} && waitingFor !! committed && previousMode != targetMode
  }

  function OnRequest(m: Manager, target: SystemMode, participants: set<ApplicationId>): Reply<TransitionId> {
    if !m.state.Stable? then Reply(m, Err(TransitionInProgress))
    else if m.state.mode == target then Reply(m, Err(AlreadyInMode))
    else if participants == {} then Reply(m, Err(NoParticipants))
    else
      Reply(Manager(Preparing(m.nextTransitionId, m.state.mode, target, participants, {}),
                    WrappingSucc(m.nextTransitionId)),
            Ok(m.nextTransitionId))
  }

  function OnReady(m: Manager, application: ApplicationId, id: TransitionId): Reply<Option<ModeEvent>> {
    match m.state
    case Preparing(active, mode, target, waiting, ready) =>
      if active != id then Reply(m, Err(StaleTransition))
      else if application !in waiting then Reply(m, Err(UnknownParticipant(application)))
      else if waiting == {application} then
        Reply(m.(state := Committing(active, mode, target, ready + {application}, {})),
              Ok(Some(PreparationComplete(active, target))))
      else
        Reply(m.(state := Preparing(active, mode, target, waiting - {application}, ready + {application})),
              Ok(None))
    case _ => Reply(m, Err(InvalidPhase))
  }

  function OnRejected(m: Manager, application: ApplicationId, id: TransitionId, reason: string): Reply<ModeEvent> {
    match m.state
    case Preparing(active, mode, _, waiting, ready) =>
      if active != id then Reply(m, Err(StaleTransition))
      else if application !in waiting + ready then Reply(m, Err(UnknownParticipant(application)))
      else Reply(m.(state := Stable(mode)), Ok(TransitionAborted(active, application, reason)))
    case _ => Reply(m, Err(InvalidPhase))
  }

  function OnCommitted(m: Manager, application: ApplicationId, id: TransitionId, mode: SystemMode)
    : Reply<Option<ModeEvent>>
  {
    match m.state
    case Committing(active, previous, target, waiting, committed) =>
      if active != id then Reply(m, Err(StaleTransition))
      else if target != mode then Reply(m, Err(WrongCommittedMode))
      else if application !in waiting then Reply(m, Err(UnknownParticipant(application)))
      else if waiting == {application} then
        Reply(m.(state := Stable(target)), Ok(Some(TransitionComplete(active, target))))
      else
        Reply(m.(state := Committing(active, previous, target, waiting - {application}, committed + {application})),
              Ok(None))
    case _ => Reply(m, Err(InvalidPhase))
  }

  class ModeManager {
    var state: ModeManagerState
    var nextTransitionId: TransitionId

    function View(): Manager
      reads this
    {
      Manager(state, nextTransitionId)
    }

    ghost predicate Valid()
      reads this
    {
      WellFormed(state)
    }

    constructor (initialMode: SystemMode)
      ensures Valid() && View() == Manager(Stable(initialMode), IdOf(0))
    {
      state := Stable(initialMode);
      nextTransitionId := 1;
    }

    method RequestTransition(target: SystemMode, participants: set<ApplicationId>)
      returns (r: Result<TransitionId, ModeError>)
      requires Valid()
      modifies this
      ensures Valid()
      ensures Reply(View(), r) == OnRequest(old(View()), target, participants)
    {
      if !state.Stable? {
        return Err(TransitionInProgress);
      }
      var currentMode := state.mode;
      if currentMode == target {
        return Err(AlreadyInMode);
      }
      if participants == {} {
        return Err(NoParticipants);
      }
      var id := nextTransitionId;
      nextTransitionId := WrappingSucc(nextTransitionId);
      state := Preparing(id, currentMode, target, participants, {});
      return Ok(id);
    }

    method ApplicationReady(application: ApplicationId, responseId: TransitionId)
      returns (r: Result<Option<ModeEvent>, ModeError>)
      requires Valid()
      modifies this
      ensures Valid()
      ensures Reply(View(), r) == OnReady(old(View()), application, responseId)
    {
      match state
      case Preparing(id, mode, target, waitingFor, ready) =>
        if id != responseId {
          return Err(StaleTransition);
        }
        if application !in waitingFor {
          return Err(UnknownParticipant(application));
        }
        var stillWaiting, nowReady := waitingFor - {application}, ready + {application};
        state := Preparing(id, mode, target, stillWaiting, nowReady);
        if stillWaiting == {} {
          assert waitingFor == {application};
          state := Committing(id, mode, target, nowReady, {});
          return Ok(Some(PreparationComplete(id, target)));
        }
        return Ok(None);
      case _ =>
        return Err(InvalidPhase);
    }

    method ApplicationRejected(application: ApplicationId, responseId: TransitionId, reason: string)
      returns (r: Result<ModeEvent, ModeError>)
      requires Valid()
      modifies this
      ensures Valid()
      ensures Reply(View(), r) == OnRejected(old(View()), application, responseId, reason)
    {
      if !state.Preparing? {
        return Err(InvalidPhase);
      }
      if state.transitionId != responseId {
        return Err(StaleTransition);
      }
      if !(application in state.waitingFor || application in state.ready) {
        return Err(UnknownParticipant(application));
      }
      r := Ok(TransitionAborted(state.transitionId, application, reason));
      state := Stable(state.currentMode);
    }

    method ApplicationCommitted(application: ApplicationId, responseId: TransitionId, committedMode: SystemMode)
      returns (r: Result<Option<ModeEvent>, ModeError>)
      requires Valid()
      modifies this
      ensures Valid()
      ensures Reply(View(), r) == OnCommitted(old(View()), application, responseId, committedMode)
    {
      match state
      case Committing(id, previous, target, waitingFor, committed) =>
        if id != responseId {
          return Err(StaleTransition);
        }
        if target != committedMode {
          return Err(WrongCommittedMode);
        }
        if application !in waitingFor {
          return Err(UnknownParticipant(application));
        }
        var stillWaiting, nowCommitted := waitingFor - {application}, committed + {application};
        state := Committing(id, previous, target, stillWaiting, nowCommitted);
        if stillWaiting == {} {
          assert waitingFor == {application};
          state := Stable(target);
          return Ok(Some(TransitionComplete(id, target)));
        }
        return Ok(None);
      case _ =>
        return Err(InvalidPhase);
    }
  }

  // ---------------------------------------------------------------- rounds as sets

  /** A ready or committed response as it reaches the manager; `mode` is ignored in the ready round. */
  datatype Response = Response(application: ApplicationId, id: TransitionId, mode: SystemMode)

  /** What a whole sequence of responses amounts to. */
  datatype Tally = Tally(manager: Manager, accepted: nat, completions: nat)

  /** Feeds responses one after another to `OnReady`, counting those accepted and the `PreparationComplete` events. */
  function FeedReady(m: Manager, responses: seq<Response>): Tally
    decreases |responses|
  {
    if responses == [] then Tally(m, 0, 0)
    else
      var reply := OnReady(m, responses[0].application, responses[0].id);
      var rest := FeedReady(reply.manager, responses[1..]);
      Tally(rest.manager,
            rest.accepted + (if reply.result.Ok? then 1 else 0),
            rest.completions + (if reply.result.Ok? && reply.result.value.Some? then 1 else 0))
  }

  /** Feeds responses one after another to `OnCommitted`, counting those accepted and the `TransitionComplete` events. */
  function FeedCommitted(m: Manager, responses: seq<Response>): Tally
    decreases |responses|
  {
    if responses == [] then Tally(m, 0, 0)
    else
      var reply := OnCommitted(m, responses[0].application, responses[0].id, responses[0].mode);
      var rest := FeedCommitted(reply.manager, responses[1..]);
      Tally(rest.manager,
            rest.accepted + (if reply.result.Ok? then 1 else 0),
            rest.completions + (if reply.result.Ok? && reply.result.value.Some? then 1 else 0))
  }

  /** Whether some response in the sequence is from `a` for transition `id`. */
  predicate Spoke(a: ApplicationId, id: TransitionId, responses: seq<Response>) {
    exists r :: r in responses && r.application == a && r.id == id
  }

  /** Members of `waiting` with a response for transition `id` somewhere in the sequence. */
  function Readied(waiting: set<ApplicationId>, id: TransitionId, responses: seq<Response>): set<ApplicationId> {
    set a | a in waiting && Spoke(a, id, responses)
  }

  /** Members of `waiting` with a response for transition `id` naming `target` somewhere in the sequence. */
  function Confirmed(waiting: set<ApplicationId>, id: TransitionId, target: SystemMode, responses: seq<Response>)
    : set<ApplicationId>
  {
    set a | a in waiting && Response(a, id, target) in responses
  }

  lemma ReadiedByOneMore(waiting: set<ApplicationId>, id: TransitionId, responses: seq<Response>)
    requires responses != []
    ensures
      var first, rest := responses[0], responses[1..];
      Readied(waiting, id, responses) ==
      if first.id == id && first.application in waiting
      then Readied(waiting - {first.application}, id, rest) + {first.application}
      else Readied(waiting, id, rest)
  {
    var first, rest := responses[0], responses[1..];
    assert responses == [first] + rest;
    forall a | a in waiting
      ensures Spoke(a, id, responses) <==> (first.application == a && first.id == id) || Spoke(a, id, rest)
    {
      if Spoke(a, id, rest) {
        var r :| r in rest && r.application == a && r.id == id;
        assert r in responses;
      }
    }
  }

  lemma ConfirmedByOneMore(waiting: set<ApplicationId>, id: TransitionId, target: SystemMode, responses: seq<Response>)
    requires responses != []
    ensures
      var first, rest := responses[0], responses[1..];
      Confirmed(waiting, id, target, responses) ==
      if first.id == id && first.mode == target && first.application in waiting
      then Confirmed(waiting - {first.application}, id, target, rest) + {first.application}
      else Confirmed(waiting, id, target, rest)
  {
    var first, rest := responses[0], responses[1..];
    assert responses == [first] + rest;
  }

  /** Set bookkeeping for one accepted response: `a` moves from those awaited to those heard. */
  lemma OneFewer(waiting: set<ApplicationId>, a: ApplicationId, gotRest: set<ApplicationId>, heard: set<ApplicationId>)
    requires a in waiting && waiting != {a} && gotRest <= waiting - {a}
    ensures waiting - {a} != {}
    ensures |gotRest + {a}| == |gotRest| + 1 && |waiting| == |waiting - {a}| + 1
    ensures (waiting - {a}) - gotRest == waiting - (gotRest + {a})
    ensures heard + {a} + gotRest == heard + (gotRest + {a})
    ensures (waiting - {a}) + (heard + {a}) == waiting + heard
    ensures gotRest + {a} == waiting <==> gotRest == waiting - {a}
  {
    assert waiting - {a} == {} ==> waiting == {a};
    if gotRest + {a} == waiting {
      assert gotRest == waiting - {a};
    }
  }

  lemma {:induction false} ReadyOutsidePreparing(m: Manager, responses: seq<Response>)
    requires !m.state.Preparing?
    ensures FeedReady(m, responses) == Tally(m, 0, 0)
    decreases |responses|
  {
    if responses != [] {
      ReadyOutsidePreparing(m, responses[1..]);
    }
  }

  lemma {:induction false} CommittedOutsideCommitting(m: Manager, responses: seq<Response>)
    requires !m.state.Committing?
    ensures FeedCommitted(m, responses) == Tally(m, 0, 0)
    decreases |responses|
  {
    if responses != [] {
      CommittedOutsideCommitting(m, responses[1..]);
    }
  }

  /** What a ready round in state `m.state` amounts to once the members of `got` have answered it. */
  ghost function ReadyTally(m: Manager, got: set<ApplicationId>): Tally
    requires m.state.Preparing?
  {
    var Preparing(id, mode, target, waiting, ready) := m.state;
    if got == waiting
    then Tally(m.(state := Committing(id, mode, target, waiting + ready, {})), |waiting|, 1)
    else Tally(m.(state := Preparing(id, mode, target, waiting - got, ready + got)), |got|, 0)
  }

  /** What a commit round in state `m.state` amounts to once the members of `got` have confirmed it. */
  ghost function CommitTally(m: Manager, got: set<ApplicationId>): Tally
    requires m.state.Committing?
  {
    var Committing(id, previous, target, waiting, committed) := m.state;
    if got == waiting
    then Tally(m.(state := Stable(target)), |waiting|, 1)
    else Tally(m.(state := Committing(id, previous, target, waiting - got, committed + got)), |got|, 0)
  }

  lemma ReadyTallyByOneMore(m: Manager, a: ApplicationId, gotRest: set<ApplicationId>)
    requires m.state.Preparing? && WellFormed(m.state)
    requires a in m.state.waitingFor && m.state.waitingFor != {a} && gotRest <= m.state.waitingFor - {a}
    ensures
      var next := OnReady(m, a, m.state.transitionId).manager;
      && next.state.Preparing? && WellFormed(next.state) && next.state.waitingFor == m.state.waitingFor - {a}
      && var after := ReadyTally(next, gotRest);
         ReadyTally(m, gotRest + {a}) == Tally(after.manager, after.accepted + 1, after.completions)
  {
    OneFewer(m.state.waitingFor, a, gotRest, m.state.ready);
  }

  /**
   The ready round depends only on who answered: order, duplicates, stale ids and strangers are
   immaterial, and the round completes exactly once, when everyone awaited has answered.
   */
  lemma {:induction false} ReadyRoundIsASet(m: Manager, responses: seq<Response>)
    requires m.state.Preparing? && WellFormed(m.state)
    ensures FeedReady(m, responses) == ReadyTally(m, Readied(m.state.waitingFor, m.state.transitionId, responses))
    decreases |responses|
  {
    var Preparing(id, mode, target, waiting, ready) := m.state;
    if responses == [] {
      assert Readied(waiting, id, responses) == {};
      assert waiting - {} == waiting && ready + {} == ready;
    } else {
      var a, rest := responses[0].application, responses[1..];
      var next := OnReady(m, a, responses[0].id).manager;
      ReadiedByOneMore(waiting, id, responses);
      if responses[0].id != id || a !in waiting {
        ReadyRoundIsASet(m, rest);
      } else if waiting == {a} {
        assert waiting + ready == ready + {a};
        assert Readied(waiting - {a}, id, rest) == {};
        ReadyOutsidePreparing(next, rest);
      } else {
        ReadyTallyByOneMore(m, a, Readied(waiting - {a}, id, rest));
        ReadyRoundIsASet(next, rest);
      }
    }
  }

  /** The commit round, likewise, depends only on who confirmed the target. */
  lemma {:induction false} CommitRoundIsASet(m: Manager, responses: seq<Response>)
    requires m.state.Committing? && WellFormed(m.state)
    ensures FeedCommitted(m, responses) ==
            CommitTally(m, Confirmed(m.state.waitingFor, m.state.transitionId, m.state.targetMode, responses))
    decreases |responses|
  {
    var Committing(id, previous, target, waiting, committed) := m.state;
    if responses == [] {
      assert Confirmed(waiting, id, target, responses) == {};
      assert waiting - {} == waiting && committed + {} == committed;
    } else {
      var a, rest := responses[0].application, responses[1..];
      var next := OnCommitted(m, a, responses[0].id, responses[0].mode).manager;
      ConfirmedByOneMore(waiting, id, target, responses);
      if responses[0].id != id || responses[0].mode != target || a !in waiting {
        CommitRoundIsASet(m, rest);
      } else if waiting == {a} {
        assert Confirmed(waiting - {a}, id, target, rest) == {};
        CommittedOutsideCommitting(next, rest);
      } else {
        OneFewer(waiting, a, Confirmed(waiting - {a}, id, target, rest), committed);
        CommitRoundIsASet(next, rest);
      }
    }
  }

  // ---------------------------------------------------------------- both rounds, responses mixed

  datatype Spoken = SaysReady(response: Response) | SaysCommitted(response: Response)

  /** What a mixed sequence of responses amounts to: how many of each kind were accepted. */
  datatype Count = Count(manager: Manager, readies: nat, commits: nat)

  /** Feeds ready and committed responses, in the order they come, to the operation each is meant for. */
  function Feed(m: Manager, spoken: seq<Spoken>): Count
    decreases |spoken|
  {
    if spoken == [] then Count(m, 0, 0)
    else
      var r := spoken[0].response;
      match spoken[0]
      case SaysReady(_) =>
        var reply := OnReady(m, r.application, r.id);
        var rest := Feed(reply.manager, spoken[1..]);
        rest.(readies := rest.readies + (if reply.result.Ok? then 1 else 0))
      case SaysCommitted(_) =>
        var reply := OnCommitted(m, r.application, r.id, r.mode);
        var rest := Feed(reply.manager, spoken[1..]);
        rest.(commits := rest.commits + (if reply.result.Ok? then 1 else 0))
  }

  /** The manager after one response. */
  function Told(m: Manager, s: Spoken): Manager {
    var r := s.response;
    if s.SaysReady? then OnReady(m, r.application, r.id).manager
    else OnCommitted(m, r.application, r.id, r.mode).manager
  }

  function ReadiesOf(spoken: seq<Spoken>): seq<Response>
    decreases |spoken|
  {
    if spoken == [] then []
    else (if spoken[0].SaysReady? then [spoken[0].response] else []) + ReadiesOf(spoken[1..])
  }

  function CommitsOf(spoken: seq<Spoken>): seq<Response>
    decreases |spoken|
  {
    if spoken == [] then []
    else (if spoken[0].SaysCommitted? then [spoken[0].response] else []) + CommitsOf(spoken[1..])
  }

  lemma {:induction false} FeedSplits(m: Manager, spoken: seq<Spoken>, k: nat)
    requires k <= |spoken|
    ensures
      var front := Feed(m, spoken[..k]);
      var back := Feed(front.manager, spoken[k..]);
      Feed(m, spoken) == Count(back.manager, front.readies + back.readies, front.commits + back.commits)
    decreases k
  {
    if k == 0 {
      assert spoken[..0] == [] && spoken[0..] == spoken;
    } else {
      assert spoken[..k][1..] == spoken[1..][..k - 1] && spoken[1..][k - 1..] == spoken[k..];
      assert spoken[..k][0] == spoken[0];
      FeedSplits(Told(m, spoken[0]), spoken[1..], k - 1);
    }
  }

  lemma FeedAppends(m: Manager, spoken: seq<Spoken>, last: Spoken)
    ensures
      var before, after := Feed(m, spoken), Feed(m, spoken + [last]);
      && after.manager == Told(before.manager, last)
      && (last.SaysCommitted? && !before.manager.state.Committing? ==>
            after.readies == before.readies && after.commits == before.commits)
      && (last.SaysReady? ==>
            && after.commits == before.commits
            && after.readies == before.readies +
               (if OnReady(before.manager, last.response.application, last.response.id).result.Ok? then 1 else 0))
  {
    var longer := spoken + [last];
    FeedSplits(m, longer, |spoken|);
    assert longer[..|spoken|] == spoken && longer[|spoken|..] == [last] && [last][1..] == [];
  }

  lemma {:induction false} FeedReadyAppends(m: Manager, responses: seq<Response>, r: Response)
    ensures
      var before := FeedReady(m, responses);
      var reply := OnReady(before.manager, r.application, r.id);
      && FeedReady(m, responses + [r]).manager == reply.manager
      && FeedReady(m, responses + [r]).accepted == before.accepted + (if reply.result.Ok? then 1 else 0)
    decreases |responses|
  {
    var longer := responses + [r];
    if responses == [] {
      assert longer[1..] == [];
    } else {
      assert longer[1..] == responses[1..] + [r];
      FeedReadyAppends(OnReady(m, responses[0].application, responses[0].id).manager, responses[1..], r);
    }
  }

  lemma {:induction false} ReadiesOfAppends(spoken: seq<Spoken>, last: Spoken)
    ensures ReadiesOf(spoken + [last]) == ReadiesOf(spoken) + (if last.SaysReady? then [last.response] else [])
    decreases |spoken|
  {
    var longer := spoken + [last];
    if spoken == [] {
      assert longer[1..] == [];
    } else {
      var first := if spoken[0].SaysReady? then [spoken[0].response] else [];
      assert longer[0] == spoken[0] && longer[1..] == spoken[1..] + [last];
      ReadiesOfAppends(spoken[1..], last);
      assert ReadiesOf(longer) == first + ReadiesOf(spoken[1..] + [last]);
    }
  }

  /** Outside the ready round readies are refused, and only the commits matter. */
  lemma {:induction false} OnlyCommitsMatter(m: Manager, spoken: seq<Spoken>)
    requires !m.state.Preparing?
    ensures
      var closed := FeedCommitted(m, CommitsOf(spoken));
      Feed(m, spoken) == Count(closed.manager, 0, closed.accepted)
    decreases |spoken|
  {
    if spoken != [] {
      var r := spoken[0].response;
      if spoken[0].SaysReady? {
        assert CommitsOf(spoken) == CommitsOf(spoken[1..]);
        OnlyCommitsMatter(m, spoken[1..]);
      } else {
        assert CommitsOf(spoken)[1..] == CommitsOf(spoken[1..]);
        OnlyCommitsMatter(OnCommitted(m, r.application, r.id, r.mode).manager, spoken[1..]);
      }
    }
  }

  /** Everyone awaited has answered among the first `k` responses. */
  ghost predicate AllReadied(waiting: set<ApplicationId>, id: TransitionId, spoken: seq<Spoken>, k: nat)
    requires k <= |spoken|
  {
    Readied(waiting, id, ReadiesOf(spoken[..k])) == waiting
  }

  /** Until the ready round is complete commits are refused, and only the readies matter. */
  lemma {:induction false} OnlyReadiesMatter(m: Manager, spoken: seq<Spoken>)
    requires m.state.Preparing? && WellFormed(m.state)
    requires forall j :: 0 <= j < |spoken| ==> !AllReadied(m.state.waitingFor, m.state.transitionId, spoken, j)
    ensures
      var prepared := FeedReady(m, ReadiesOf(spoken));
      Feed(m, spoken) == Count(prepared.manager, prepared.accepted, 0)
    decreases |spoken|
  {
    if spoken != [] {
      var n := |spoken| - 1;
      var before, last := spoken[..n], spoken[n];
      forall j | 0 <= j < n
        ensures !AllReadied(m.state.waitingFor, m.state.transitionId, before, j)
      {
        assert !AllReadied(m.state.waitingFor, m.state.transitionId, spoken, j) && before[..j] == spoken[..j];
      }
      assert !AllReadied(m.state.waitingFor, m.state.transitionId, spoken, n);
      OnlyReadiesMatter(m, before);
      ReadyRoundIsASet(m, ReadiesOf(before));
      assert spoken == before + [last];
      OneMoreReady(m, before, last);
    }
  }

  lemma OneMoreReady(m: Manager, before: seq<Spoken>, last: Spoken)
    requires m.state.Preparing? && FeedReady(m, ReadiesOf(before)).manager.state.Preparing?
    requires
      Feed(m, before) == Count(FeedReady(m, ReadiesOf(before)).manager, FeedReady(m, ReadiesOf(before)).accepted, 0)
    ensures
      var prepared := FeedReady(m, ReadiesOf(before + [last]));
      Feed(m, before + [last]) == Count(prepared.manager, prepared.accepted, 0)
  {
    FeedAppends(m, before, last);
    ReadiesOfAppends(before, last);
    FeedReadyAppends(m, ReadiesOf(before), last.response);
    if last.SaysCommitted? {
      assert ReadiesOf(before + [last]) == ReadiesOf(before);
    }
  }

  /** The least number of responses among which everyone awaited has answered, or all of them if nobody has. */
  lemma {:induction false} ReadyRoundEnds(waiting: set<ApplicationId>, id: TransitionId, spoken: seq<Spoken>, from: nat)
    returns (k: nat)
    requires from <= |spoken| && forall j :: 0 <= j < from ==> !AllReadied(waiting, id, spoken, j)
    ensures k <= |spoken| && (k == |spoken| || AllReadied(waiting, id, spoken, k))
    ensures forall j :: 0 <= j < k ==> !AllReadied(waiting, id, spoken, j)
    decreases |spoken| - from
  {
    if from == |spoken| || AllReadied(waiting, id, spoken, from) {
      k := from;
    } else {
      k := ReadyRoundEnds(waiting, id, spoken, from + 1);
    }
  }

  lemma {:induction false} LaterCommitsAreFewer(spoken: seq<Spoken>, k: nat, j: nat, r: Response)
    requires k <= j <= |spoken| && r in CommitsOf(spoken[j..])
    ensures r in CommitsOf(spoken[k..])
    decreases j - k
  {
    if k < j {
      LaterCommitsAreFewer(spoken, k + 1, j, r);
      assert spoken[k..][1..] == spoken[k + 1..];
    }
  }

  /** Everyone in `participants` says ready among the first `k` responses, and confirms the target after them. */
  ghost predicate TwoFullRounds(participants: set<ApplicationId>, id: TransitionId, target: SystemMode,
                                spoken: seq<Spoken>, k: nat)
    requires k <= |spoken|
  {
    && AllReadied(participants, id, spoken, k)
    && Confirmed(participants, id, target, CommitsOf(spoken[k..])) == participants
  }

  lemma EarliestRoundsSuffice(participants: set<ApplicationId>, id: TransitionId, target: SystemMode,
                              spoken: seq<Spoken>, k: nat, j: nat)
    requires k <= j <= |spoken| && AllReadied(participants, id, spoken, k)
    requires TwoFullRounds(participants, id, target, spoken, j)
    ensures TwoFullRounds(participants, id, target, spoken, k)
  {
    forall a | a in participants
      ensures Response(a, id, target) in CommitsOf(spoken[k..])
    {
      assert a in Confirmed(participants, id, target, CommitsOf(spoken[j..]));
      LaterCommitsAreFewer(spoken, k, j, Response(a, id, target));
    }
  }

  /** What the manager opened for `participants` has come to once they have all answered, and nothing more was said. */
  lemma PreparedRound(begun: Manager, spoken: seq<Spoken>, k: nat)
    requires begun.state.Preparing? && WellFormed(begun.state) && begun.state.ready == {} && k <= |spoken|
    requires forall j :: 0 <= j < k ==> !AllReadied(begun.state.waitingFor, begun.state.transitionId, spoken, j)
    ensures
      var Preparing(id, mode, target, participants, _) := begun.state;
      var prepared := Feed(begun, spoken[..k]);
      && prepared.commits == 0
      && if AllReadied(participants, id, spoken, k)
         then prepared.readies == |participants|
              && prepared.manager == begun.(state := Committing(id, mode, target, participants, {}))
         else prepared.manager.state.Preparing? && CurrentMode(prepared.manager.state) == mode
  {
    var front, participants := spoken[..k], begun.state.waitingFor;
    forall j | 0 <= j < k
      ensures !AllReadied(participants, begun.state.transitionId, front, j)
    {
      assert !AllReadied(participants, begun.state.transitionId, spoken, j) && front[..j] == spoken[..j];
    }
    OnlyReadiesMatter(begun, front);
    ReadyRoundIsASet(begun, ReadiesOf(front));
    assert participants + {} == participants;
  }

  lemma RoundsFromEarliest(begun: Manager, spoken: seq<Spoken>, k: nat)
    requires begun.state.Preparing? && WellFormed(begun.state) && begun.state.ready == {} && k <= |spoken|
    requires forall j :: 0 <= j < k ==> !AllReadied(begun.state.waitingFor, begun.state.transitionId, spoken, j)
    requires k == |spoken| || AllReadied(begun.state.waitingFor, begun.state.transitionId, spoken, k)
    ensures
      var Preparing(id, mode, target, participants, _) := begun.state;
      var closed := Feed(begun, spoken);
      && (CurrentMode(closed.manager.state) == target <==> TwoFullRounds(participants, id, target, spoken, k))
      && (CurrentMode(closed.manager.state) == target ==>
            closed == Count(begun.(state := Stable(target)), |participants|, |participants|))
  {
    FeedSplits(begun, spoken, k);
    PreparedRound(begun, spoken, k);
    var prepared := Feed(begun, spoken[..k]).manager;
    if AllReadied(begun.state.waitingFor, begun.state.transitionId, spoken, k) {
      OnlyCommitsMatter(prepared, spoken[k..]);
      CommitRoundIsASet(prepared, CommitsOf(spoken[k..]));
    } else {
      assert spoken[k..] == [];
    }
  }

  /**
   Whatever order, repetition, haste or noise a sequence of readies and commits carries, a transition
   reaches its target exactly when every participant says ready and, after that, every participant
   confirms the target; it then took exactly one accepted ready and one accepted commit from each.
   */
  lemma TransitionTakesTwoFullRounds(m: Manager, target: SystemMode, participants: set<ApplicationId>,
                                     spoken: seq<Spoken>)
    requires m.state.Stable? && m.state.mode != target && participants != {}
    ensures
      var id := m.nextTransitionId;
      var closed := Feed(OnRequest(m, target, participants).manager, spoken);
      && (CurrentMode(closed.manager.state) == target <==>
            exists k :: 0 <= k <= |spoken| && TwoFullRounds(participants, id, target, spoken, k))
      && (CurrentMode(closed.manager.state) == target ==>
            closed == Count(Manager(Stable(target), WrappingSucc(id)), |participants|, |participants|))
  {
    var id, begun := m.nextTransitionId, OnRequest(m, target, participants).manager;
    var k := ReadyRoundEnds(participants, id, spoken, 0);
    RoundsFromEarliest(begun, spoken, k);
    if j: nat :| j <= |spoken| && TwoFullRounds(participants, id, target, spoken, j) {
      assert AllReadied(participants, id, spoken, j);
      EarliestRoundsSuffice(participants, id, target, spoken, k, j);
    }
  }
}
