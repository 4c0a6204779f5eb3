/**
 The participant's side: one session of `ApplicationRuntime`, driven by the messages it receives,
 the heartbeat timer, and the decisions of the application's own handler.
 */
module Client {
  import opened Protocol

  datatype EndReason =
    | ConnectionLost
    | RegistrationTimeout
    | RegistrationRefused
    | ProtocolVersionMismatch
    | UnexpectedRegistrationResponse
    | CommitFailed
    | InitialSynchronizationFailed

  datatype Status = Registering | Running | Ended(reason: EndReason)

  /**
   How the handler takes the next callback: whether it prepares (and if not, why), whether it
   commits, and the mode a failed commit leaves it in. Preparing never changes its mode; a commit
   that succeeds puts it in the mode committed.
   */
  datatype Decision = Decision(prepares: bool, reason: string, commits: bool, leftIn: SystemMode)

  /** A session's progress: its status, the handler's mode, and everything sent so far. */
  datatype Session = Session(status: Status, mode: SystemMode, sent: seq<ApplicationToSam>)

  datatype Reaction = Reaction(status: Status, mode: SystemMode, reply: Option<ApplicationToSam>)

  /** Reconciles a newly registered application with SAM's mode. */
  function Synchronize(mode: SystemMode, authoritative: SystemMode, d: Decision): Reaction {
    if mode == authoritative then Reaction(Running, mode, None)
    else if !d.prepares then Reaction(Ended(InitialSynchronizationFailed), mode, None)
    else if !d.commits then Reaction(Ended(InitialSynchronizationFailed), d.leftIn, None)
    else Reaction(Running, authoritative, None)
  }

  /** The reaction to one message from SAM. */
  function React(application: ApplicationId, status: Status, mode: SystemMode, m: SamToApplication, d: Decision): Reaction {
    match status
    case Ended(_) => Reaction(status, mode, None)
    case Registering =>
      (match m
       case RegisterAccepted(version, authoritative, _) =>
         if version != PROTOCOL_VERSION then Reaction(Ended(ProtocolVersionMismatch), mode, None)
         else Synchronize(mode, authoritative, d)
       case RegisterRejected(_, _) => Reaction(Ended(RegistrationRefused), mode, None)
       case _ => Reaction(Ended(UnexpectedRegistrationResponse), mode, None))
    case Running =>
      match m
      case PrepareMode(id, _) =>
        Reaction(Running, mode,
                 Some(if d.prepares then ModeReady(application, id) else ModeRejected(application, id, d.reason)))
      case CommitMode(id, target) =>
        if d.commits then Reaction(Running, target, Some(ModeCommitted(application, id, target)))
        else Reaction(Ended(CommitFailed), d.leftIn, None)
      case AbortMode(_) => Reaction(Running, mode, None)
      case StateBroadcast(_, _) => Reaction(Running, mode, None)
      case _ => Reaction(Ended(UnexpectedRegistrationResponse), mode, None)
  }

  /** What happens next in a session's loop. */
  datatype Turn = Tick(health: HealthState) | Incoming(message: SamToApplication, decision: Decision) | Lost

  function Take(application: ApplicationId, s: Session, turn: Turn): Session {
    match turn
    case Tick(health) =>
      if s.status.Running? then s.(sent := s.sent + [Heartbeat(application, health, s.mode)]) else s
    case Incoming(m, d) =>
      var r := React(application, s.status, s.mode, m, d);
      Session(r.status, r.mode, if r.reply.Some? then s.sent + [r.reply.value] else s.sent)
    case Lost =>
      if s.status.Ended? then s else s.(status := Ended(ConnectionLost))
  }

  function TakeAll(application: ApplicationId, s: Session, turns: seq<Turn>): Session
    decreases |turns|
  {
    if turns == [] then s
    else Take(application, TakeAll(application, s, turns[..|turns| - 1]), turns[|turns| - 1])
  }

  /** An incompatibility that trying again cannot mend. */
  predicate IsPermanent(reason: EndReason) {
    reason.RegistrationRefused? || reason.ProtocolVersionMismatch? || reason.InitialSynchronizationFailed?
  }

  /** A runtime's progress through its sessions: the handler's mode, everything sent, and why it gave up, if it did. */
  datatype Career = Career(mode: SystemMode, sent: seq<ApplicationToSam>, gaveUp: Option<EndReason>)

  function ServeOne(application: ApplicationId, c: Career, turns: seq<Turn>): Career {
    if c.gaveUp.Some? then c
    else
      var end := TakeAll(application,
                         Session(Registering, c.mode, c.sent + [Register(application, PROTOCOL_VERSION)]), turns);
      Career(end.mode, end.sent,
             if end.status.Ended? && IsPermanent(end.status.reason) then Some(end.status.reason) else None)
  }

  function ServeAll(application: ApplicationId, c: Career, sessions: seq<seq<Turn>>): Career
    decreases |sessions|
  {
    if sessions == [] then c
    else ServeOne(application, ServeAll(application, c, sessions[..|sessions| - 1]), sessions[|sessions| - 1])
  }

  /** `ApplicationRuntime` and its handler's mode, which outlives its sessions. */
  class ApplicationRuntime {
    const application: ApplicationId
    var mode: SystemMode
    var sent: seq<ApplicationToSam>

    constructor (application: ApplicationId, mode: SystemMode)
      ensures this.application == application && this.mode == mode && sent == []
    {
      this.application := application;
      this.mode := mode;
      sent := [];
    }

    /** Handles one message; `status` is where the session stands afterwards. */
    method Handle(status: Status, m: SamToApplication, d: Decision) returns (now: Status)
      modifies this
      ensures Session(now, mode, sent) == Take(application, Session(status, old(mode), old(sent)), Incoming(m, d))
    {
      if status.Ended? {
        return status;
      }
      if status.Registering? {
        match m {
          case RegisterAccepted(version, authoritative, _) =>
            if version != PROTOCOL_VERSION {
              return Ended(ProtocolVersionMismatch);
            }
            if mode != authoritative {
              if !d.prepares {
                return Ended(InitialSynchronizationFailed);
              }
              mode := if d.commits then authoritative else d.leftIn;
              if !d.commits {
                return Ended(InitialSynchronizationFailed);
              }
            }
            return Running;
          case RegisterRejected(_, _) => return Ended(RegistrationRefused);
          case _ => return Ended(UnexpectedRegistrationResponse);
        }
      }
      match m {
        case PrepareMode(id, _) =>
          if d.prepares {
            sent := sent + [ModeReady(application, id)];
          } else {
            sent := sent + [ModeRejected(application, id, d.reason)];
          }
        case CommitMode(id, target) =>
          mode := if d.commits then target else d.leftIn;
          if !d.commits {
            return Ended(CommitFailed);
          }
          sent := sent + [ModeCommitted(application, id, target)];
        case AbortMode(_) =>
        case StateBroadcast(_, _) =>
        case _ => return Ended(UnexpectedRegistrationResponse);
      }
      return status;
    }

    /** Registers and then serves the session's turns until it ends. */
    method RunSession(turns: seq<Turn>) returns (status: Status)
      modifies this
      ensures Session(status, mode, sent) ==
              TakeAll(application,
                      Session(Registering, old(mode), old(sent) + [Register(application, PROTOCOL_VERSION)]), turns)
    {
      sent := sent + [Register(application, PROTOCOL_VERSION)];
      status := Registering;
      ghost var start := Session(status, mode, sent);
      var k := 0;
      while k < |turns| && !status.Ended?
        invariant k <= |turns|
        invariant Session(status, mode, sent) == TakeAll(application, start, turns[..k])
      {
        assert turns[..k + 1][..k] == turns[..k];
        match turns[k] {
          case Tick(health) =>
            if status.Running? {
              sent := sent + [Heartbeat(application, health, mode)];
            }
          case Incoming(m, d) =>
            status := Handle(status, m, d);
          case Lost =>
            status := Ended(ConnectionLost);
        }
        k := k + 1;
      }
      EndedStays(application, start, turns, k);
      assert turns[..|turns|] == turns;
    }

    /** Runs one session after another until one ends in a way that cannot be mended. */
    method Run(sessions: seq<seq<Turn>>) returns (gaveUp: Option<EndReason>)
      modifies this
      ensures Career(mode, sent, gaveUp) == ServeAll(application, Career(old(mode), old(sent), None), sessions)
    {
      gaveUp := None;
      ghost var start := Career(mode, sent, None);
      var k := 0;
      while k < |sessions| && gaveUp.None?
        invariant k <= |sessions|
        invariant Career(mode, sent, gaveUp) == ServeAll(application, start, sessions[..k])
      {
        assert sessions[..k + 1][..k] == sessions[..k];
        var status := RunSession(sessions[k]);
        match status {
          case Ended(RegistrationRefused) => gaveUp := Some(RegistrationRefused);
          case Ended(ProtocolVersionMismatch) => gaveUp := Some(ProtocolVersionMismatch);
          case Ended(InitialSynchronizationFailed) => gaveUp := Some(InitialSynchronizationFailed);
          case _ =>
        }
        k := k + 1;
      }
      GivingUpStays(application, start, sessions, k);
      assert sessions[..|sessions|] == sessions;
    }
  }

  lemma {:induction false} GivingUpStays(application: ApplicationId, c: Career, sessions: seq<seq<Turn>>, k: nat)
    requires k <= |sessions| && (ServeAll(application, c, sessions[..k]).gaveUp.Some? || k == |sessions|)
    ensures ServeAll(application, c, sessions[..|sessions|]) == ServeAll(application, c, sessions[..k])
  {
    if k < |sessions| {
      var shorter := sessions[..|sessions| - 1];
      assert shorter[..k] == sessions[..k] && shorter[..|shorter|] == shorter;
      assert sessions[..|sessions|][..|sessions| - 1] == shorter;
      GivingUpStays(application, c, shorter, k);
    }
  }

  lemma {:induction false} EndedStays(application: ApplicationId, s: Session, turns: seq<Turn>, k: nat)
    requires k <= |turns| && (TakeAll(application, s, turns[..k]).status.Ended? || k == |turns|)
    ensures TakeAll(application, s, turns[..|turns|]) == TakeAll(application, s, turns[..k])
  {
    if k < |turns| {
      var shorter := turns[..|turns| - 1];
      assert shorter[..k] == turns[..k] && shorter[..|shorter|] == shorter == turns[..|turns|][..|turns| - 1];
      EndedStays(application, s, shorter, k);
    }
  }

  // ---------------------------------------------------------------- what a session says

  predicate IsOrder(m: SamToApplication) {
    m.PrepareMode? || m.CommitMode?
  }

  /** An order as a session takes it: what SAM asks, and what the handler decides about it. */
  datatype Order = Order(message: SamToApplication, decision: Decision)

  /** `reply` tells SAM what the handler decided about `order`. */
  predicate Answers(application: ApplicationId, order: Order, reply: ApplicationToSam) {
    match order.message
    case PrepareMode(id, _) =>
      && (reply == ModeReady(application, id) <==> order.decision.prepares)
      && (reply == ModeRejected(application, id, order.decision.reason) <==> !order.decision.prepares)
    case CommitMode(id, mode) => order.decision.commits && reply == ModeCommitted(application, id, mode)
    case _ => false
  }

  /** One turn's contribution to the orders taken. */
  function OrderIn(s: Session, turn: Turn): seq<Order> {
    if s.status.Running? && turn.Incoming? && IsOrder(turn.message) then [Order(turn.message, turn.decision)] else []
  }

  /** The prepare and commit orders received while running, in order, with the handler's decisions. */
  function OrdersTaken(application: ApplicationId, s: Session, turns: seq<Turn>): seq<Order>
    decreases |turns|
  {
    if turns == [] then []
    else
      var before, last := turns[..|turns| - 1], turns[|turns| - 1];
      OrdersTaken(application, s, before) +
      OrderIn(TakeAll(application, s, before), last)
  }

  /** Everything said after the first `from` messages, heartbeats aside. */
  function Said(sent: seq<ApplicationToSam>, from: nat): seq<ApplicationToSam>
    decreases |sent|
  {
    if |sent| <= from then []
    else
      var last := sent[|sent| - 1];
      Said(sent[..|sent| - 1], from) + (if last.Heartbeat? then [] else [last])
  }

  lemma OneTurn(application: ApplicationId, s: Session, turn: Turn, from: nat)
    requires from <= |s.sent|
    ensures
      var t, order := Take(application, s, turn), OrderIn(s, turn);
      && s.sent <= t.sent
      && if order == [] || t.status == Ended(CommitFailed)
         then Said(t.sent, from) == Said(s.sent, from)
         else exists reply ::
           Said(t.sent, from) == Said(s.sent, from) + [reply] && Answers(application, order[0], reply)
    ensures Take(application, s, turn).status == Ended(CommitFailed) <==>
            s.status == Ended(CommitFailed) || (OrderIn(s, turn) != [] && OrderIn(s, turn)[0].message.CommitMode?
                                                && !turn.decision.commits)
  {
    var t := Take(application, s, turn);
    if |t.sent| > |s.sent| {
      assert t.sent[..|t.sent| - 1] == s.sent;
      if !t.sent[|t.sent| - 1].Heartbeat? {
        assert Said(t.sent, from) == Said(s.sent, from) + [t.sent[|t.sent| - 1]];
      }
    }
  }

  /**
   Once it has registered, a session answers each order it takes exactly once, in the order received,
   with what its handler decided, and says nothing else but heartbeats, not even a second registration;
   only a commit its handler fails goes unanswered, and that ends it.
   */
  lemma {:induction false} OrdersAreAnsweredOnce(application: ApplicationId, s: Session, turns: seq<Turn>)
    requires s.status.Registering?
    ensures
      var end := TakeAll(application, s, turns);
      var orders, replies := OrdersTaken(application, s, turns), Said(end.sent, |s.sent|);
      && s.sent <= end.sent
      && |orders| == |replies| + (if end.status == Ended(CommitFailed) then 1 else 0)
      && forall k :: 0 <= k < |replies| ==> Answers(application, orders[k], replies[k])
    decreases |turns|
  {
    if turns != [] {
      var before, last := turns[..|turns| - 1], turns[|turns| - 1];
      OrdersAreAnsweredOnce(application, s, before);
      OneTurn(application, TakeAll(application, s, before), last, |s.sent|);
    }
  }

  // ---------------------------------------------------------------- heartbeats

  /** The heartbeats among what was said after the first `from` messages. */
  function BeatsSaid(sent: seq<ApplicationToSam>, from: nat): seq<ApplicationToSam>
    decreases |sent|
  {
    if |sent| <= from then []
    else
      var last := sent[|sent| - 1];
      BeatsSaid(sent[..|sent| - 1], from) + (if last.Heartbeat? then [last] else [])
  }

  /** The heartbeats due: one for each tick while running, with the health and the mode of that moment. */
  function BeatsDue(application: ApplicationId, s: Session, turns: seq<Turn>): seq<ApplicationToSam>
    decreases |turns|
  {
    if turns == [] then []
    else
      var before, last := TakeAll(application, s, turns[..|turns| - 1]), turns[|turns| - 1];
      BeatsDue(application, s, turns[..|turns| - 1]) +
      (if before.status.Running? && last.Tick? then [Heartbeat(application, last.health, before.mode)] else [])
  }

  lemma OneTurnBeats(application: ApplicationId, s: Session, turn: Turn, from: nat)
    requires from <= |s.sent|
    ensures from <= |Take(application, s, turn).sent|
    ensures BeatsSaid(Take(application, s, turn).sent, from) ==
            BeatsSaid(s.sent, from) +
            (if s.status.Running? && turn.Tick? then [Heartbeat(application, turn.health, s.mode)] else [])
  {
    var t := Take(application, s, turn);
    if |t.sent| > |s.sent| {
      assert t.sent[..|t.sent| - 1] == s.sent;
    }
  }

  /** A running session beats once for each tick, and each beat is true of the application when it is sent. */
  lemma {:induction false} HeartbeatsTellTheTruth(application: ApplicationId, s: Session, turns: seq<Turn>)
    ensures |s.sent| <= |TakeAll(application, s, turns).sent|
    ensures BeatsSaid(TakeAll(application, s, turns).sent, |s.sent|) == BeatsDue(application, s, turns)
    decreases |turns|
  {
    if turns != [] {
      var before, last := turns[..|turns| - 1], turns[|turns| - 1];
      HeartbeatsTellTheTruth(application, s, before);
      OneTurnBeats(application, TakeAll(application, s, before), last, |s.sent|);
    }
  }

  // ---------------------------------------------------------------- how sessions go

  /** SAM's first message lets the session run: its own protocol version, and a mode the handler is in or gets into. */
  predicate Admits(mode: SystemMode, turn: Turn) {
    && turn.Incoming? && turn.message.RegisterAccepted? && turn.message.protocolVersion == PROTOCOL_VERSION
    && (turn.message.currentMode == mode || (turn.decision.prepares && turn.decision.commits))
  }

  /** A turn that a running session survives. */
  predicate Survivable(turn: Turn) {
    match turn
    case Tick(_) => true
    case Incoming(CommitMode(_, _), d) => d.commits
    case Incoming(RegisterAccepted(_, _, _), _) => false
    case Incoming(RegisterRejected(_, _), _) => false
    case Incoming(_, _) => true
    case Lost => false
  }

  /** The session was admitted at turn `k`, having heard nothing before, and has survived every turn since. */
  ghost predicate RunsSince(mode: SystemMode, turns: seq<Turn>, k: nat) {
    && k < |turns| && Admits(mode, turns[k])
    && (forall j :: 0 <= j < k ==> turns[j].Tick?)
    && forall j :: k < j < |turns| ==> Survivable(turns[j])
  }

  /** The mode of the last acceptance or commit among the turns. */
  function ModeTold(turns: seq<Turn>): Option<SystemMode>
    decreases |turns|
  {
    if turns == [] then None
    else
      match turns[|turns| - 1]
      case Incoming(RegisterAccepted(_, mode, _), _) => Some(mode)
      case Incoming(CommitMode(_, mode), _) => Some(mode)
      case _ => ModeTold(turns[..|turns| - 1])
  }

  lemma RunsOneTurnMore(mode: SystemMode, turns: seq<Turn>, k: nat)
    requires turns != []
    ensures
      var before, last := turns[..|turns| - 1], turns[|turns| - 1];
      RunsSince(mode, turns, k) <==>
        || (RunsSince(mode, before, k) && Survivable(last))
        || (k == |before| && Admits(mode, last) && forall j :: 0 <= j < k ==> before[j].Tick?)
  {
    var before := turns[..|turns| - 1];
    assert forall j :: 0 <= j < |before| ==> before[j] == turns[j];
  }

  /**
   A session is running exactly if SAM's first message admitted it and nothing since would end it, and
   its handler is then in the mode SAM last told it. Before that message it waits, whatever ticks.
   */
  lemma {:induction false} SessionsRunExactly(application: ApplicationId, s: Session, turns: seq<Turn>)
    requires s.status.Registering?
    ensures
      var end := TakeAll(application, s, turns);
      && (end.status.Running? <==> exists k: nat :: RunsSince(s.mode, turns, k))
      && (end.status.Running? ==> ModeTold(turns) == Some(end.mode))
      && (end.status.Registering? <==> forall j :: 0 <= j < |turns| ==> turns[j].Tick?)
      && (end.status.Registering? ==> end.mode == s.mode)
    decreases |turns|
  {
    if turns != [] {
      var n := |turns| - 1;
      var before, last := turns[..n], turns[n];
      SessionsRunExactly(application, s, before);
      assert forall j :: 0 <= j < n ==> before[j] == turns[j];
      if k: nat :| RunsSince(s.mode, turns, k) {
        RunsOneTurnMore(s.mode, turns, k);
      }
      if k: nat :| RunsSince(s.mode, before, k) {
        RunsOneTurnMore(s.mode, turns, k);
      }
      RunsOneTurnMore(s.mode, turns, n);
    }
  }

  // ---------------------------------------------------------------- how sessions end

  /** The turn ends a session still waiting to be admitted, for the reason given, with the handler left in `left`. */
  predicate EndsWaiting(mode: SystemMode, turn: Turn, reason: EndReason, left: SystemMode) {
    match turn
    case Tick(_) => false
    case Lost => reason.ConnectionLost? && left == mode
    case Incoming(RegisterRejected(_, _), _) => reason.RegistrationRefused? && left == mode
    case Incoming(RegisterAccepted(version, current, _), d) =>
      if version != PROTOCOL_VERSION then reason.ProtocolVersionMismatch? && left == mode
      else
        && current != mode && !(d.prepares && d.commits) && reason.InitialSynchronizationFailed?
        && left == (if d.prepares then d.leftIn else mode)
    case Incoming(_, _) => reason.UnexpectedRegistrationResponse? && left == mode
  }

  /** The turn ends a running session, for the reason given, with the handler left in `left`. */
  predicate EndsRunning(mode: SystemMode, turn: Turn, reason: EndReason, left: SystemMode) {
    match turn
    case Tick(_) => false
    case Lost => reason.ConnectionLost? && left == mode
    case Incoming(CommitMode(_, _), d) => !d.commits && reason.CommitFailed? && left == d.leftIn
    case Incoming(m, _) =>
      (m.RegisterAccepted? || m.RegisterRejected?) && reason.UnexpectedRegistrationResponse? && left == mode
  }

  /** Turn `k` ends the session, which waited or ran until then. */
  ghost predicate EndsWith(mode: SystemMode, turns: seq<Turn>, k: nat, reason: EndReason, left: SystemMode)
    requires k < |turns|
  {
    || ((forall j :: 0 <= j < k ==> turns[j].Tick?) && EndsWaiting(mode, turns[k], reason, left))
    || ((exists a: nat :: RunsSince(mode, turns[..k], a))
        && ModeTold(turns[..k]).Some? && EndsRunning(ModeTold(turns[..k]).value, turns[k], reason, left))
  }

  lemma EndsWithOneMore(mode: SystemMode, turns: seq<Turn>, k: nat, reason: EndReason, left: SystemMode)
    requires k + 1 < |turns|
    ensures EndsWith(mode, turns[..|turns| - 1], k, reason, left) <==> EndsWith(mode, turns, k, reason, left)
  {
    assert turns[..|turns| - 1][..k] == turns[..k];
  }

  /** One turn of a session that has not ended. */
  lemma OneTurnEnds(application: ApplicationId, s: Session, turn: Turn, reason: EndReason, left: SystemMode)
    requires !s.status.Ended?
    ensures
      var t := Take(application, s, turn);
      t.status == Ended(reason) && t.mode == left <==>
      if s.status.Registering? then EndsWaiting(s.mode, turn, reason, left)
      else EndsRunning(s.mode, turn, reason, left)
  {
  }

  /** Where a session stands that has not ended: waiting, or running in the mode it was last told. */
  lemma StandsExactly(application: ApplicationId, s: Session, turns: seq<Turn>)
    requires s.status.Registering? && !TakeAll(application, s, turns).status.Ended?
    ensures
      var t := TakeAll(application, s, turns);
      if t.status.Registering? then
        && (forall j :: 0 <= j < |turns| ==> turns[j].Tick?) && t.mode == s.mode
        && !exists a: nat :: RunsSince(s.mode, turns, a)
      else
        && (exists a: nat :: RunsSince(s.mode, turns, a)) && ModeTold(turns) == Some(t.mode)
        && !forall j :: 0 <= j < |turns| ==> turns[j].Tick?
  {
    SessionsRunExactly(application, s, turns);
  }

  lemma LastTurnEnds(application: ApplicationId, s: Session, turns: seq<Turn>, reason: EndReason, left: SystemMode)
    requires s.status.Registering? && turns != []
    requires !TakeAll(application, s, turns[..|turns| - 1]).status.Ended?
    ensures
      var end := TakeAll(application, s, turns);
      end.status == Ended(reason) && end.mode == left <==> EndsWith(s.mode, turns, |turns| - 1, reason, left)
  {
    var n := |turns| - 1;
    var before := turns[..n];
    OneTurnEnds(application, TakeAll(application, s, before), turns[n], reason, left);
    StandsExactly(application, s, before);
    assert (forall j :: 0 <= j < n ==> before[j].Tick?) <==> (forall j :: 0 <= j < n ==> turns[j].Tick?) by {
      assert forall j :: 0 <= j < n ==> before[j] == turns[j];
    }
  }

  lemma {:induction false} NotEndedMeansNoEnding(application: ApplicationId, s: Session, turns: seq<Turn>, k: nat,
                                                 reason: EndReason, left: SystemMode)
    requires s.status.Registering? && k < |turns| && EndsWith(s.mode, turns, k, reason, left)
    ensures TakeAll(application, s, turns).status == Ended(reason) && TakeAll(application, s, turns).mode == left
    decreases |turns|
  {
    if k + 1 < |turns| {
      EndsWithOneMore(s.mode, turns, k, reason, left);
      NotEndedMeansNoEnding(application, s, turns[..|turns| - 1], k, reason, left);
    } else {
      SessionsRunExactly(application, s, turns[..k]);
      assert forall j :: 0 <= j < k ==> turns[..k][j] == turns[j];
      LastTurnEnds(application, s, turns, reason, left);
    }
  }

  /**
   A session has ended for a reason exactly when some turn ended it for that reason while it waited or
   ran; its handler is then where that turn left it, and nothing after that turn has an effect.
   */
  lemma {:induction false} SessionsEndExactly(application: ApplicationId, s: Session, turns: seq<Turn>,
                                              reason: EndReason, left: SystemMode)
    requires s.status.Registering?
    ensures
      var end := TakeAll(application, s, turns);
      end.status == Ended(reason) && end.mode == left <==>
      exists k :: 0 <= k < |turns| && EndsWith(s.mode, turns, k, reason, left)
    decreases |turns|
  {
    if k :| 0 <= k < |turns| && EndsWith(s.mode, turns, k, reason, left) {
      NotEndedMeansNoEnding(application, s, turns, k, reason, left);
    }
    if turns != [] {
      var before := turns[..|turns| - 1];
      SessionsEndExactly(application, s, before, reason, left);
      if !TakeAll(application, s, before).status.Ended? {
        LastTurnEnds(application, s, turns, reason, left);
      } else if k :| 0 <= k < |before| && EndsWith(s.mode, before, k, reason, left) {
        EndsWithOneMore(s.mode, turns, k, reason, left);
      }
    }
  }

  // ---------------------------------------------------------------- giving up

  /** SAM's first message, after ticks that go unheard, ends the session for a permanent reason. */
  ghost predicate IsRepelled(mode: SystemMode, turns: seq<Turn>, reason: EndReason) {
    exists k, left ::
      && 0 <= k < |turns| && EndsWaiting(mode, turns[k], reason, left) && forall j :: 0 <= j < k ==> turns[j].Tick?
  }

  /** A session ends for a permanent reason exactly when SAM's first message ends it for that reason. */
  lemma PermanentEndsExactly(application: ApplicationId, s: Session, turns: seq<Turn>, reason: EndReason)
    requires s.status.Registering? && IsPermanent(reason)
    ensures TakeAll(application, s, turns).status == Ended(reason) <==> IsRepelled(s.mode, turns, reason)
  {
    SessionsEndExactly(application, s, turns, reason, TakeAll(application, s, turns).mode);
    if k, left :| 0 <= k < |turns| && EndsWaiting(s.mode, turns[k], reason, left)
                  && forall j :: 0 <= j < k ==> turns[j].Tick? {
      assert EndsWith(s.mode, turns, k, reason, left);
      SessionsEndExactly(application, s, turns, reason, left);
    }
  }

  ghost predicate IsRepelledForGood(mode: SystemMode, turns: seq<Turn>) {
    exists reason :: IsPermanent(reason) && IsRepelled(mode, turns, reason)
  }

  lemma OneSessionGivesUp(application: ApplicationId, c: Career, turns: seq<Turn>)
    requires c.gaveUp.None?
    ensures ServeOne(application, c, turns).gaveUp.Some? <==> IsRepelledForGood(c.mode, turns)
  {
    var start := Session(Registering, c.mode, c.sent + [Register(application, PROTOCOL_VERSION)]);
    PermanentEndsExactly(application, start, turns, RegistrationRefused);
    PermanentEndsExactly(application, start, turns, ProtocolVersionMismatch);
    PermanentEndsExactly(application, start, turns, InitialSynchronizationFailed);
  }

  /** The session numbered `i` is repelled, in the mode the earlier ones left the handler in. */
  ghost predicate RepelledIn(application: ApplicationId, c: Career, sessions: seq<seq<Turn>>, i: nat)
    requires i < |sessions|
  {
    IsRepelledForGood(ServeAll(application, c, sessions[..i]).mode, sessions[i])
  }

  /**
   A runtime gives up exactly when some session it gets to is repelled, which includes a handler that
   cannot synchronize; every other ending, a failed commit too, is followed by a new session.
   */
  lemma {:induction false} RuntimesGiveUpExactly(application: ApplicationId, c: Career, sessions: seq<seq<Turn>>)
    requires c.gaveUp.None?
    ensures ServeAll(application, c, sessions).gaveUp.Some? <==>
            exists i :: 0 <= i < |sessions| && RepelledIn(application, c, sessions, i)
    decreases |sessions|
  {
    if sessions != [] {
      var n := |sessions| - 1;
      var before, last := sessions[..n], sessions[n];
      RuntimesGiveUpExactly(application, c, before);
      forall i | 0 <= i < n
        ensures RepelledIn(application, c, before, i) <==> RepelledIn(application, c, sessions, i)
      {
        assert before[..i] == sessions[..i];
      }
      if ServeAll(application, c, before).gaveUp.None? {
        OneSessionGivesUp(application, ServeAll(application, c, before), last);
        assert RepelledIn(application, c, sessions, n) <==> ServeAll(application, c, sessions).gaveUp.Some?;
      }
    }
  }
}
