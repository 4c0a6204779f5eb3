/** Types and messages shared by SAM and its applications, with the wrapping 64-bit counters that number them. */
module Protocol {

  datatype Option<+T> = None | Some(value: T)

  datatype Result<+T, +E> = Ok(value: T) | Err(error: E)

  const WORD: int := 0x1_0000_0000_0000_0000

  /** An unsigned 64-bit integer. */
  type U64 = x: int | 0 <= x < WORD

  /** `wrapping_add(1)` on an unsigned 64-bit integer. */
  function WrappingSucc(x: U64): U64 {
    if x + 1 == WORD then 0 else x + 1
  }

  type ApplicationId = string
  type TransitionId = U64
  type ConnectionId = U64

  const PROTOCOL_VERSION: nat := 1

  datatype SystemMode = Startup | Standby | Working

  datatype HealthState = Healthy | Degraded | Failed

  datatype ApplicationToSam =
    | Register(application: ApplicationId, protocolVersion: nat)
    | Heartbeat(application: ApplicationId, health: HealthState, currentMode: SystemMode)
    | ModeReady(application: ApplicationId, transitionId: TransitionId)
    | ModeRejected(application: ApplicationId, transitionId: TransitionId, reason: string)
    | ModeCommitted(application: ApplicationId, transitionId: TransitionId, mode: SystemMode)

  datatype SamToApplication =
    | RegisterAccepted(protocolVersion: nat, currentMode: SystemMode, systemHealth: HealthState)
    | PrepareMode(transitionId: TransitionId, requestedMode: SystemMode)
    | CommitMode(transitionId: TransitionId, mode: SystemMode)
    | AbortMode(transitionId: TransitionId)
    | StateBroadcast(mode: SystemMode, health: HealthState)
    | RegisterRejected(supportedProtocolVersion: nat, reason: string)

  /** The id handed out by the attempt numbered `n` (counting from zero) of a counter that starts at one. */
  function IdOf(n: nat): U64 {
    if n == 0 then 1 else WrappingSucc(IdOf(n - 1))
  }

  lemma ModSucc(n: nat)
    ensures (n + 1) % WORD == WrappingSucc(n % WORD)
  {
    var q, r := n / WORD, n % WORD;
    assert n + 1 == q * WORD + r + 1;
    if r + 1 == WORD {
      assert n + 1 == (q + 1) * WORD;
    }
  }

  lemma {:induction false} IdClosedForm(n: nat)
    ensures IdOf(n) == WrappingSucc(n % WORD)
  {
    if n > 0 {
      IdClosedForm(n - 1);
      ModSucc(n - 1);
    }
  }

  /** Two attempts share an id exactly when their numbers agree modulo 2^64. */
  lemma {:induction false} IdsRepeatModuloWord(i: nat, j: nat)
    ensures IdOf(i) == IdOf(j) <==> i % WORD == j % WORD
  {
    IdClosedForm(i);
    IdClosedForm(j);
  }

  /** Fewer than 2^64 attempts never share an id. */
  lemma IdsDistinct(i: nat, j: nat)
    requires i < j < WORD
    ensures IdOf(i) != IdOf(j)
  {
    IdsRepeatModuloWord(i, j);
  }

  /** Before the counter wraps, an id is the attempt's number counted from one. */
  lemma {:induction false} IdBeforeWrap(n: nat)
    requires n + 1 < WORD
    ensures IdOf(n) == n + 1
  {
    if n > 0 {
      IdBeforeWrap(n - 1);
    }
  }
}
