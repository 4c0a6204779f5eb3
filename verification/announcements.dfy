/**
 The grammar of what SAM announces. `Advance` reads one broadcast at a time, knowing only the
 counter's arithmetic; a run of SAM never announces anything it does not accept, and what it has
 read determines the phase SAM is in.
 */
module Announcements {
  import opened Protocol
  import opened ServiceSteps
  import opened Coherence

  /** What a listener to every broadcast can tell; `issued` counts the transitions announced. */
  datatype Heard =
    | Quiet(issued: nat, mode: SystemMode)
    | Asked(issued: nat, mode: SystemMode, target: SystemMode)
    | Ordered(issued: nat, mode: SystemMode, target: SystemMode)

  function Advance(h: Heard, m: SamToApplication): Option<Heard> {
    match (h, m)
    case (Quiet(n, mode), PrepareMode(id, target)) =>
      if id == IdOf(n) && target != mode then Some(Asked(n + 1, mode, target)) else None
    case (Asked(n, mode, target), CommitMode(id, decided)) =>
      if n > 0 && id == IdOf(n - 1) && decided == target then Some(Ordered(n, mode, target)) else None
    case (Asked(n, mode, _), AbortMode(id)) =>
      if n > 0 && id == IdOf(n - 1) then Some(Quiet(n, mode)) else None
    case (Ordered(n, mode, target), StateBroadcast(told, _)) =>
      if told == target then Some(Quiet(n, target)) else if told == mode then Some(h) else None
    case (_, StateBroadcast(told, _)) =>
      if told == h.mode then Some(h) else None
    case _ => None
  }

  function Read(h: Heard, log: seq<SamToApplication>): Option<Heard>
    decreases |log|
  {
    if log == [] then Some(h)
    else
      match Advance(h, log[0])
      case Some(next) => Read(next, log[1..])
      case None => None
  }

  /** The listener's account agrees with SAM's own phase, ids included. */
  ghost predicate Tells(h: Heard, s: Service) {
    && s.modes.nextTransitionId == IdOf(h.issued)
    && match s.modes.state
       case Stable(mode) => h == Quiet(h.issued, mode)
       case Preparing(id, mode, target, _, _) =>
         h == Asked(h.issued, mode, target) && h.issued > 0 && id == IdOf(h.issued - 1)
       case Committing(id, mode, target, _, _) =>
         h == Ordered(h.issued, mode, target) && h.issued > 0 && id == IdOf(h.issued - 1)
  }

  lemma StepIsGrammatical(s: Service, call: Call, h: Heard) returns (next: Heard)
    requires Sound(s) && Tells(h, s)
    ensures Tells(next, Perform(s, call).service)
    ensures
      var sent := Perform(s, call).sent;
      if sent.Some? then Advance(h, sent.value) == Some(next) else next == h
  {
    var out := Perform(s, call);
    next := h;
    if out.sent.Some? {
      assert Advance(h, out.sent.value).Some?;
      next := Advance(h, out.sent.value).value;
    }
    if call.DoMessage? && call.message.ModeCommitted? {
      CommitKeepsPhase(s.modes, call.message.application, call.message.transitionId, call.message.mode);
    }
  }

  /** Whatever SAM is asked to do, its announcements follow the grammar and leave the listener up to date. */
  lemma {:induction false} AnnouncementsFollowGrammar(s: Service, calls: seq<Call>, h: Heard)
    requires Sound(s) && Tells(h, s)
    ensures Read(h, Broadcasts(s, calls)).Some?
    ensures Tells(Read(h, Broadcasts(s, calls)).value, After(s, calls))
    decreases |calls|
  {
    if calls != [] {
      var out := Perform(s, calls[0]);
      SoundnessIsKept(s, calls[0]);
      var next := StepIsGrammatical(s, calls[0], h);
      AnnouncementsFollowGrammar(out.service, calls[1..], next);
      var rest := Broadcasts(out.service, calls[1..]);
      if out.sent.Some? {
        assert Broadcasts(s, calls)[1..] == rest;
      } else {
        assert Broadcasts(s, calls) == rest;
      }
    }
  }

  /** A listener from the start hears a grammatical log. */
  lemma FreshServiceIsQuiet(timeout: nat, calls: seq<Call>)
    ensures Read(Quiet(0, Startup), Broadcasts(NewService(timeout), calls)).Some?
    ensures Tells(Read(Quiet(0, Startup), Broadcasts(NewService(timeout), calls)).value, After(NewService(timeout), calls))
  {
    AnnouncementsFollowGrammar(NewService(timeout), calls, Quiet(0, Startup));
  }

  // ---------------------------------------------------------------- what the grammar implies

  function Prepares(log: seq<SamToApplication>): nat
    decreases |log|
  {
    if log == [] then 0 else (if log[0].PrepareMode? then 1 else 0) + Prepares(log[1..])
  }

  predicate IsVerdict(m: SamToApplication) {
    m.CommitMode? || m.AbortMode?
  }

  lemma {:induction false} ReadSplits(h: Heard, log: seq<SamToApplication>, i: nat)
    requires i <= |log| && Read(h, log).Some?
    ensures Read(h, log[..i]).Some?
    ensures Read(Read(h, log[..i]).value, log[i..]) == Read(h, log)
    decreases i
  {
    if i == 0 {
      assert log[..0] == [] && log[0..] == log;
    } else {
      ReadSplits(Advance(h, log[0]).value, log[1..], i - 1);
      assert log[..i][1..] == log[1..][..i - 1];
      assert log[i..] == log[1..][i - 1..];
    }
  }

  lemma {:induction false} ReadCountsPrepares(h: Heard, log: seq<SamToApplication>)
    requires Read(h, log).Some?
    ensures Read(h, log).value.issued == h.issued + Prepares(log)
    decreases |log|
  {
    if log != [] {
      ReadCountsPrepares(Advance(h, log[0]).value, log[1..]);
    }
  }

  /** A further question needs a further transition. */
  lemma {:induction false} AskingTakesAPrepare(h: Heard, log: seq<SamToApplication>)
    requires !h.Asked? && Read(h, log).Some? && Read(h, log).value.Asked?
    ensures Read(h, log).value.issued > h.issued
    decreases |log|
  {
    var next := Advance(h, log[0]).value;
    if next.Asked? {
      ReadCountsPrepares(next, log[1..]);
    } else {
      AskingTakesAPrepare(next, log[1..]);
    }
  }

  /** What the listener has heard just before position `i` of an accepted log. */
  function HeardBefore(h: Heard, log: seq<SamToApplication>, i: nat): Heard
    requires i < |log| && Read(h, log).Some?
  {
    ReadSplits(h, log, i);
    Read(h, log[..i]).value
  }

  lemma StepAt(h: Heard, log: seq<SamToApplication>, i: nat)
    requires i < |log| && Read(h, log).Some?
    ensures
      var before := HeardBefore(h, log, i);
      && Advance(before, log[i]).Some?
      && Read(Advance(before, log[i]).value, log[i + 1..]) == Read(h, log)
      && before.issued == h.issued + Prepares(log[..i])
  {
    ReadSplits(h, log, i);
    ReadCountsPrepares(h, log[..i]);
    assert log[i..][0] == log[i] && log[i..][1..] == log[i + 1..];
  }

  lemma BetweenSteps(h: Heard, log: seq<SamToApplication>, i: nat, j: nat)
    requires i < j < |log| && Read(h, log).Some?
    ensures
      && Advance(HeardBefore(h, log, i), log[i]).Some?
      && Read(Advance(HeardBefore(h, log, i), log[i]).value, log[i + 1..j]) == Some(HeardBefore(h, log, j))
  {
    StepAt(h, log, i);
    var next := Advance(HeardBefore(h, log, i), log[i]).value;
    ReadSplits(next, log[i + 1..], j - i - 1);
    assert log[i + 1..][..j - i - 1] == log[i + 1..j];
    ReadSplits(h, log, j);
    ReadSplits(h, log[..j], i + 1);
    assert log[..j][..i + 1] == log[..i + 1] && log[..j][i + 1..] == log[i + 1..j];
    ReadSplits(h, log[..i + 1], i);
    assert log[..i + 1][..i] == log[..i] && log[..i + 1][i..] == [log[i]];
  }

  lemma {:induction false} PreparesOfPrefix(log: seq<SamToApplication>, i: nat)
    requires i <= |log|
    ensures Prepares(log[..i]) <= Prepares(log)
    decreases |log|
  {
    if i > 0 {
      PreparesOfPrefix(log[1..], i - 1);
      assert log[..i][1..] == log[1..][..i - 1];
    }
  }

  /** In a log of at most 2^64 transitions no id gets two verdicts; above all, never a commit and an abort. */
  lemma VerdictsAreUnique(mode: SystemMode, log: seq<SamToApplication>, i: nat, j: nat)
    requires Read(Quiet(0, mode), log).Some? && Prepares(log) <= WORD
    requires i < j < |log| && IsVerdict(log[i]) && IsVerdict(log[j])
    ensures log[i].transitionId != log[j].transitionId
  {
    var h := Quiet(0, mode);
    StepAt(h, log, i);
    StepAt(h, log, j);
    BetweenSteps(h, log, i, j);
    var first, second := HeardBefore(h, log, i), HeardBefore(h, log, j);
    AskingTakesAPrepare(Advance(first, log[i]).value, log[i + 1..j]);
    PreparesOfPrefix(log, j);
    IdsDistinct(first.issued - 1, second.issued - 1);
  }

  lemma {:induction false} LeavingOrderedTakesAnnouncement(h: Heard, log: seq<SamToApplication>) returns (k: nat)
    requires h.Ordered? && Read(h, log).Some? && !Read(h, log).value.Ordered?
    ensures k < |log| && log[k].StateBroadcast? && log[k].mode == h.target
    decreases |log|
  {
    var next := Advance(h, log[0]).value;
    if next.Ordered? {
      var rest := LeavingOrderedTakesAnnouncement(next, log[1..]);
      k := rest + 1;
    } else {
      k := 0;
    }
  }

  /** A committed target is announced as the system mode before the next transition starts. */
  lemma CommitsAreAnnounced(mode: SystemMode, log: seq<SamToApplication>, i: nat, j: nat)
    requires Read(Quiet(0, mode), log).Some?
    requires i < j < |log| && log[i].CommitMode? && log[j].PrepareMode?
    ensures exists k :: i < k < j && log[k].StateBroadcast? && log[k].mode == log[i].mode
  {
    var h := Quiet(0, mode);
    StepAt(h, log, i);
    StepAt(h, log, j);
    BetweenSteps(h, log, i, j);
    var k := LeavingOrderedTakesAnnouncement(Advance(HeardBefore(h, log, i), log[i]).value, log[i + 1..j]);
    assert log[i + 1 + k] == log[i + 1..j][k];
  }

  lemma {:induction false} AskedComesFromPrepare(mode: SystemMode, log: seq<SamToApplication>) returns (k: nat)
    requires Read(Quiet(0, mode), log).Some? && Read(Quiet(0, mode), log).value.Asked?
    ensures
      var h := Read(Quiet(0, mode), log).value;
      h.issued > 0 && k < |log| && log[k] == PrepareMode(IdOf(h.issued - 1), h.target)
    decreases |log|
  {
    var h, last := Quiet(0, mode), |log| - 1;
    StepAt(h, log, last);
    var before := HeardBefore(h, log, last);
    assert log[last + 1..] == [];
    if before.Asked? {
      ReadSplits(h, log, last);
      k := AskedComesFromPrepare(mode, log[..last]);
    } else {
      k := last;
    }
  }

  /** A commit orders exactly the mode that was asked for under its id. */
  lemma CommitsWhatWasAsked(mode: SystemMode, log: seq<SamToApplication>, j: nat)
    requires Read(Quiet(0, mode), log).Some?
    requires j < |log| && log[j].CommitMode?
    ensures exists i :: 0 <= i < j && log[i] == PrepareMode(log[j].transitionId, log[j].mode)
  {
    StepAt(Quiet(0, mode), log, j);
    ReadSplits(Quiet(0, mode), log, j);
    var i := AskedComesFromPrepare(mode, log[..j]);
    assert log[i] == log[..j][i];
  }
}
