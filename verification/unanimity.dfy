/**
 Unanimity over whole runs, against arbitrary callers: whenever the system mode changes, everyone
 captured by the request that opened the transition approved it before the commit was ordered and
 confirmed it afterwards.
 */
module Unanimity {
  import opened Protocol
  import opened Modes
  import opened ServiceSteps
  import opened Coherence
  import opened ManagerMoves

  /** In state `s`, `call` delivers `m` from `a` over its active connection. */
  ghost predicate Delivers(s: Service, call: Call, a: ApplicationId, m: ApplicationToSam) {
    call.DoMessage? && call.registered == a && call.message == m && Speaks(s, a, call.connection)
  }

  /** In state `s`, SAM accepts through `call` the approval of transition `id` by `a`. */
  ghost predicate Approves(s: Service, call: Call, a: ApplicationId, id: TransitionId) {
    Delivers(s, call, a, ModeReady(a, id)) && OnReady(s.modes, a, id).result.Ok?
  }

  /** In state `s`, SAM accepts through `call` the confirmation by `a` that transition `id` put it in `mode`. */
  ghost predicate Confirms(s: Service, call: Call, a: ApplicationId, id: TransitionId, mode: SystemMode) {
    Delivers(s, call, a, ModeCommitted(a, id, mode)) && OnCommitted(s.modes, a, id, mode).result.Ok?
  }

  /** The members of `crowd` whose approval of `id` SAM accepts strictly between calls `lo` and `hi`. */
  ghost function Approvals(states: seq<Service>, calls: seq<Call>, lo: nat, hi: nat, id: TransitionId,
                           crowd: set<ApplicationId>): set<ApplicationId>
    requires Matched(states, calls) && hi <= |calls|
    decreases hi
  {
    if hi <= lo + 1 then {}
    else
      Approvals(states, calls, lo, hi - 1, id, crowd) +
      set a | a in crowd && Approves(states[hi - 1], calls[hi - 1], a, id)
  }

  /** The members of `crowd` whose confirmation of `id` SAM accepts strictly between calls `lo` and `hi`. */
  ghost function Confirmations(states: seq<Service>, calls: seq<Call>, lo: nat, hi: nat, id: TransitionId,
                               mode: SystemMode, crowd: set<ApplicationId>): set<ApplicationId>
    requires Matched(states, calls) && hi <= |calls|
    decreases hi
  {
    if hi <= lo + 1 then {}
    else
      Confirmations(states, calls, lo, hi - 1, id, mode, crowd) +
      set a | a in crowd && Confirms(states[hi - 1], calls[hi - 1], a, id, mode)
  }

  /** `call` opens transition `id` to `target` with exactly `participants`, the clients of that moment. */
  ghost predicate Opens(s: Service, call: Call, id: TransitionId, target: SystemMode, participants: set<ApplicationId>) {
    Perform(s, call).sent == Some(PrepareMode(id, target)) && s.clients.Keys == participants
  }

  ghost predicate Orders(s: Service, call: Call, id: TransitionId, target: SystemMode) {
    Perform(s, call).sent == Some(CommitMode(id, target))
  }

  /** In every state after call `lo` and up to state `hi`, SAM collects approvals of transition `id` from `crowd`. */
  ghost predicate Collects(states: seq<Service>, lo: nat, hi: nat, id: TransitionId, target: SystemMode,
                           crowd: set<ApplicationId>)
    requires hi < |states|
  {
    forall k :: lo < k <= hi ==>
      var st := states[k].modes.state;
      st.Preparing? && st.transitionId == id && st.targetMode == target && Participants(st) == crowd
  }

  /** In every state after call `lo` and up to state `hi`, SAM collects confirmations of transition `id` from `crowd`. */
  ghost predicate Settling(states: seq<Service>, lo: nat, hi: nat, id: TransitionId, target: SystemMode,
                           crowd: set<ApplicationId>)
    requires hi < |states|
  {
    forall k :: lo < k <= hi ==>
      var st := states[k].modes.state;
      st.Committing? && st.transitionId == id && st.targetMode == target && Participants(st) == crowd
  }

  /** When the active transition was opened and, if it was, ordered. */
  datatype Account = Account(begun: nat, ordered: nat)

  /** The account explains the manager's sets before call `i`. */
  ghost predicate Explains(states: seq<Service>, calls: seq<Call>, i: nat, acc: Account)
    requires Matched(states, calls) && i <= |calls|
  {
    match states[i].modes.state
    case Stable(_) => true
    case Preparing(id, _, target, waiting, ready) =>
      && acc.begun < i && Opens(states[acc.begun], calls[acc.begun], id, target, waiting + ready)
      && Collects(states, acc.begun, i, id, target, waiting + ready)
      && ready <= Approvals(states, calls, acc.begun, i, id, waiting + ready)
    case Committing(id, _, target, waiting, committed) =>
      && acc.begun < acc.ordered < i
      && Opens(states[acc.begun], calls[acc.begun], id, target, waiting + committed)
      && Orders(states[acc.ordered], calls[acc.ordered], id, target)
      && Collects(states, acc.begun, acc.ordered, id, target, waiting + committed)
      && Settling(states, acc.ordered, i, id, target, waiting + committed)
      && waiting + committed <= Approvals(states, calls, acc.begun, acc.ordered + 1, id, waiting + committed)
      && committed <= Confirmations(states, calls, acc.ordered, i, id, target, waiting + committed)
  }

  /** Moving `a` from those awaited to those heard leaves the participants the same. */
  lemma CrowdStays(waiting: set<ApplicationId>, heard: set<ApplicationId>, a: ApplicationId)
    requires a in waiting
    ensures (waiting - {a}) + (heard + {a}) == waiting + heard
    ensures waiting == {a} ==> heard + {a} == waiting + heard && (heard + {a}) + {} == waiting + heard
  {
  }

  lemma PreparingExplained(states: seq<Service>, calls: seq<Call>, i: nat, acc: Account) returns (next: Account)
    requires Matched(states, calls) && i < |calls| && states[i + 1] == Perform(states[i], calls[i]).service
    requires Sound(states[i]) && states[i].modes.state.Preparing? && Explains(states, calls, i, acc)
    ensures Explains(states, calls, i + 1, next)
  {
    next := acc;
    var Preparing(id, mode, target, waiting, ready) := states[i].modes.state;
    EveryCallMoves(states[i], calls[i]);
    var m := MoveOf(states[i], calls[i]);
    if m.Readied? || m.AllReady? {
      CrowdStays(waiting, ready, m.who);
      assert ready + {m.who} <= Approvals(states, calls, acc.begun, i + 1, id, waiting + ready);
      if m.AllReady? {
        next := Account(acc.begun, i);
      }
    }
  }

  lemma CommittingExplained(states: seq<Service>, calls: seq<Call>, i: nat, acc: Account)
    requires Matched(states, calls) && i < |calls| && states[i + 1] == Perform(states[i], calls[i]).service
    requires Sound(states[i]) && states[i].modes.state.Committing? && Explains(states, calls, i, acc)
    ensures Explains(states, calls, i + 1, acc)
    ensures
      var st := states[i].modes.state;
      states[i + 1].modes.state.Stable? ==>
        Participants(st) <=
        Confirmations(states, calls, acc.ordered, i + 1, st.transitionId, st.targetMode, Participants(st))
  {
    var Committing(id, _, target, waiting, committed) := states[i].modes.state;
    EveryCallMoves(states[i], calls[i]);
    var m := MoveOf(states[i], calls[i]);
    if m.Confirmed? || m.Completed? {
      CrowdStays(waiting, committed, m.who);
      assert committed + {m.who} <= Confirmations(states, calls, acc.ordered, i + 1, id, target, waiting + committed);
    }
  }

  lemma {:induction false} RunsAreExplained(states: seq<Service>, calls: seq<Call>, i: nat) returns (acc: Account)
    requires IsRun(states, calls) && i <= |calls|
    ensures Explains(states, calls, i, acc)
  {
    acc := Account(0, 0);
    if i > 0 {
      var before := RunsAreExplained(states, calls, i - 1);
      acc := StepIsExplained(states, calls, i - 1, before);
    }
  }

  lemma StepIsExplained(states: seq<Service>, calls: seq<Call>, i: nat, acc: Account) returns (next: Account)
    requires IsRun(states, calls) && i < |calls| && Explains(states, calls, i, acc)
    ensures Explains(states, calls, i + 1, next)
  {
    RunsAreSound(states, calls, i);
    assert RunStep(states, calls, i);
    next := acc;
    match states[i].modes.state {
      case Preparing(_, _, _, _, _) => next := PreparingExplained(states, calls, i, acc);
      case Committing(_, _, _, _, _) => CommittingExplained(states, calls, i, acc);
      case Stable(_) =>
        EveryCallMoves(states[i], calls[i]);
        next := Account(i, i);
    }
  }

  // ---------------------------------------------------------------- the sets, spelled out

  ghost predicate ApprovedBetween(states: seq<Service>, calls: seq<Call>, lo: nat, hi: nat, a: ApplicationId,
                                  id: TransitionId)
    requires Matched(states, calls) && hi <= |calls|
  {
    exists j :: lo < j < hi && Approves(states[j], calls[j], a, id)
  }

  ghost predicate ConfirmedBetween(states: seq<Service>, calls: seq<Call>, lo: nat, hi: nat, a: ApplicationId,
                                   id: TransitionId, mode: SystemMode)
    requires Matched(states, calls) && hi <= |calls|
  {
    exists j :: lo < j < hi && Confirms(states[j], calls[j], a, id, mode)
  }

  lemma {:induction false} ApprovalHappened(states: seq<Service>, calls: seq<Call>, lo: nat, hi: nat, id: TransitionId,
                                            crowd: set<ApplicationId>, a: ApplicationId)
    requires Matched(states, calls) && hi <= |calls| && a in Approvals(states, calls, lo, hi, id, crowd)
    ensures ApprovedBetween(states, calls, lo, hi, a, id)
  {
    if !Approves(states[hi - 1], calls[hi - 1], a, id) {
      ApprovalHappened(states, calls, lo, hi - 1, id, crowd, a);
    }
  }

  lemma {:induction false} ConfirmationHappened(states: seq<Service>, calls: seq<Call>, lo: nat, hi: nat,
                                                id: TransitionId, mode: SystemMode, crowd: set<ApplicationId>,
                                                a: ApplicationId)
    requires Matched(states, calls) && hi <= |calls| && a in Confirmations(states, calls, lo, hi, id, mode, crowd)
    ensures ConfirmedBetween(states, calls, lo, hi, a, id, mode)
  {
    if !Confirms(states[hi - 1], calls[hi - 1], a, id, mode) {
      ConfirmationHappened(states, calls, lo, hi - 1, id, mode, crowd, a);
    }
  }

  /** Every client SAM had at call `r` approved transition `id` between `r` and `c`, and confirmed it between `c` and `i`. */
  ghost predicate EveryoneAgreed(states: seq<Service>, calls: seq<Call>, r: nat, c: nat, i: nat, id: TransitionId,
                                 target: SystemMode)
    requires Matched(states, calls) && r < c < i < |calls|
  {
    forall a :: a in states[r].clients ==>
      ApprovedBetween(states, calls, r, c + 1, a, id) && ConfirmedBetween(states, calls, c, i + 1, a, id, target)
  }

  lemma ModeChangeIsACompletion(s: Service, call: Call)
    requires Sound(s) && Perform(s, call).service.system.mode != s.system.mode
    ensures s.modes.state.Committing?
    ensures Perform(s, call).service.modes.state == Stable(s.modes.state.targetMode)
    ensures Perform(s, call).service.system.mode == s.modes.state.targetMode
    ensures Perform(s, call).sent == Some(StateMessage(Perform(s, call).service))
  {
    EveryCallMoves(s, call);
    CommitKeepsPhase(s.modes, call.registered, call.message.transitionId, call.message.mode);
  }

  lemma SettledMeansAgreed(states: seq<Service>, calls: seq<Call>, r: nat, c: nat, i: nat, id: TransitionId,
                           target: SystemMode)
    requires Matched(states, calls) && r < c < i < |calls|
    requires states[r].clients.Keys <= Approvals(states, calls, r, c + 1, id, states[r].clients.Keys)
    requires states[r].clients.Keys <= Confirmations(states, calls, c, i + 1, id, target, states[r].clients.Keys)
    ensures EveryoneAgreed(states, calls, r, c, i, id, target)
  {
    var crowd := states[r].clients.Keys;
    forall a | a in crowd
      ensures ApprovedBetween(states, calls, r, c + 1, a, id) && ConfirmedBetween(states, calls, c, i + 1, a, id, target)
    {
      ApprovalHappened(states, calls, r, c + 1, id, crowd, a);
      ConfirmationHappened(states, calls, c, i + 1, id, target, crowd, a);
    }
  }

  /** The account explains a change of the system mode to `target` at call `i`. */
  ghost predicate Settles(states: seq<Service>, calls: seq<Call>, i: nat, acc: Account, id: TransitionId,
                          target: SystemMode, crowd: set<ApplicationId>)
    requires Matched(states, calls) && i < |calls|
  {
    && acc.begun < acc.ordered < i
    && Opens(states[acc.begun], calls[acc.begun], id, target, crowd)
    && Orders(states[acc.ordered], calls[acc.ordered], id, target)
    && Collects(states, acc.begun, acc.ordered, id, target, crowd) && Settling(states, acc.ordered, i, id, target, crowd)
    && Perform(states[i], calls[i]).sent == Some(StateMessage(states[i + 1]))
    && crowd <= Approvals(states, calls, acc.begun, acc.ordered + 1, id, crowd)
    && crowd <= Confirmations(states, calls, acc.ordered, i + 1, id, target, crowd)
  }

  lemma ChangeIsExplained(states: seq<Service>, calls: seq<Call>, i: nat, acc: Account)
    requires Matched(states, calls) && i < |calls| && states[i + 1] == Perform(states[i], calls[i]).service
    requires Sound(states[i]) && Explains(states, calls, i, acc) && states[i + 1].system.mode != states[i].system.mode
    ensures states[i].modes.state.Committing?
    ensures Settles(states, calls, i, acc, states[i].modes.state.transitionId, states[i + 1].system.mode,
                    Participants(states[i].modes.state))
  {
    ModeChangeIsACompletion(states[i], calls[i]);
    CommittingExplained(states, calls, i, acc);
  }

  lemma ChangesAreSettled(states: seq<Service>, calls: seq<Call>, i: nat)
    returns (acc: Account, id: TransitionId, crowd: set<ApplicationId>)
    requires IsRun(states, calls) && i < |calls| && states[i + 1].system.mode != states[i].system.mode
    ensures Settles(states, calls, i, acc, id, states[i + 1].system.mode, crowd)
  {
    assert RunStep(states, calls, i);
    acc := RunsAreExplained(states, calls, i);
    RunsAreSound(states, calls, i);
    ChangeIsExplained(states, calls, i, acc);
    id, crowd := states[i].modes.state.transitionId, Participants(states[i].modes.state);
  }

  /**
   The system mode changes only at a call that completes a transition, and then every application
   that was connected when the transition was requested had approved it before the commit was
   broadcast and has confirmed it since. Callers may do anything in between: the transition, its target
   and its participants are the same in every state from the request to the change.
   */
  lemma ModeChangesAreUnanimous(states: seq<Service>, calls: seq<Call>, i: nat) returns (r: nat, c: nat, id: TransitionId)
    requires IsRun(states, calls) && i < |calls| && states[i + 1].system.mode != states[i].system.mode
    ensures
      var target := states[i + 1].system.mode;
      && r < c < i
      && Opens(states[r], calls[r], id, target, states[r].clients.Keys)
      && Collects(states, r, c, id, target, states[r].clients.Keys)
      && Orders(states[c], calls[c], id, target)
      && Settling(states, c, i, id, target, states[r].clients.Keys)
      && Perform(states[i], calls[i]).sent == Some(StateMessage(states[i + 1]))
      && EveryoneAgreed(states, calls, r, c, i, id, target)
  {
    var acc, transition, crowd := ChangesAreSettled(states, calls, i);
    r, c, id := acc.begun, acc.ordered, transition;
    SettledMeansAgreed(states, calls, r, c, i, id, states[i + 1].system.mode);
  }
}
