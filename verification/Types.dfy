/** The records shared by the tracker, the workers and the orchestrator. */
module Types {
  import opened Text

  datatype Option<+T> = None | Some(value: T) {
    function GetOr(default: T): T {
      match this
      case Some(v) => v
      case None => default
    }
  }

  const I64_MAX: nat := 0x7FFF_FFFF_FFFF_FFFF
  const U32_MAX: nat := 0xFFFF_FFFF
  const U64_MAX: nat := 0xFFFF_FFFF_FFFF_FFFF

  type Id = string

  datatype Blocker = Blocker(state: Option<string>)

  datatype Issue = Issue(
    id: Id,
    identifier: string,
    title: string,
    state: string,
    priority: Option<int>,
    createdAt: Option<int>,
    blockedBy: seq<Blocker>)

  /** The part of `EffectiveConfig` that decides scheduling. `dispatchable` is the verdict of
      `validate_dispatch_config`. */
  datatype Config = Config(
    activeStates: seq<string>,
    terminalStates: seq<string>,
    maxAgents: nat,
    maxByState: map<string, nat>,
    maxTurns: nat,
    maxBackoffMs: nat,
    stallTimeoutMs: int,
    root: string,
    dispatchable: bool)
  {
    predicate IsActive(state: string) {
      exists i :: 0 <= i < |activeStates| && Normalize(activeStates[i]) == Normalize(state)
    }

    predicate IsTerminal(state: string) {
      exists i :: 0 <= i < |terminalStates| && Normalize(terminalStates[i]) == Normalize(state)
    }

    /** The cap on running issues whose normalized state is `state`. */
    function Limit(state: string): nat {
      if state in maxByState then maxByState[state] else maxAgents
    }
  }

  /** Absolute token counts of one session, or their totals. */
  datatype Tokens = Tokens(input: nat, output: nat, total: nat) {
    function Plus(other: Tokens): Tokens {
      Tokens(input + other.input, output + other.output, total + other.total)
    }

    /** `saturating_sub`, field by field. */
    function Minus(other: Tokens): Tokens {
      Tokens(SaturatingSub(input, other.input), SaturatingSub(output, other.output), SaturatingSub(total, other.total))
    }

    predicate Leq(other: Tokens) {
      input <= other.input && output <= other.output && total <= other.total
    }
  }

  const NO_TOKENS := Tokens(0, 0, 0)

  function SaturatingSub(a: nat, b: nat): nat {
    if a < b then 0 else a - b
  }

  /** One `SessionUpdate` from a worker. */
  datatype Update = Update(
    issueId: Id,
    event: string,
    message: Option<string>,
    at: int,
    sessionId: Option<string>,
    tokens: Option<Tokens>,
    turnCount: Option<nat>)

  datatype Exit = Succeeded | Failed | TimedOut | Canceled

  /** What a worker reports when it ends. */
  datatype Outcome = Outcome(issue: Issue, exit: Exit, error: Option<string>, turnCount: nat)
}
