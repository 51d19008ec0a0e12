/**
 One harness stage: outcome, exit code, termination blob and Hub token revocation
 (harness/cmd/migration-harness/main.go and outcome.go).
 */
module StageExit {
  import opened Common
  import Decimals
  import opened PromptFold

  datatype Outcome = OutcomeSucceeded | OutcomeFailed | OutcomeLimitReached
  datatype Limit = NoLimit | MaxTurns | MaxCost

  function ExitCode(o: Outcome): int {
    match o
    case OutcomeSucceeded => 0
    case OutcomeLimitReached => 2
    case OutcomeFailed => 1
  }

  datatype PromptError = NoError | ConnectionLost | OtherError

  /** What SendPrompt handed back.  Without an error there is always a result. */
  datatype PromptEnd = PromptEnd(result: Option<PromptResult>, error: PromptError)

  const STOP_REASON_MAX_TURNS := "max_turn_requests"

  /** classifyOutcome */
  function Classify(end: PromptEnd, nativeMaxTurns: int, providerError: bool): (Outcome, Limit)
    requires end.error.NoError? ==> end.result.Some?
  {
    if !end.error.NoError? then
      if end.error.ConnectionLost? && end.result.Some? && nativeMaxTurns > 0
         && end.result.value.turnsUsed >= nativeMaxTurns
      then (OutcomeLimitReached, MaxTurns)
      else (OutcomeFailed, NoLimit)
    else
      var r := end.result.value;
      if r.stopReason == "cancelled" && r.costLimitReached then (OutcomeLimitReached, MaxCost)
      else if r.stopReason == "cancelled" then (OutcomeFailed, NoLimit)
      else if providerError && r.turnsUsed == 0 then (OutcomeFailed, NoLimit)
      else if r.stopReason == STOP_REASON_MAX_TURNS then (OutcomeLimitReached, MaxTurns)
      else if nativeMaxTurns > 0 && r.turnsUsed >= nativeMaxTurns then (OutcomeLimitReached, MaxTurns)
      else if r.costLimitReached then (OutcomeSucceeded, MaxCost)
      else (OutcomeSucceeded, NoLimit)
  }

  /** When a prompt counts as success: it ended by itself, did something, and hit no turn ceiling. */
  lemma ClassifySucceeds(end: PromptEnd, nativeMaxTurns: int, providerError: bool)
    requires end.error.NoError? ==> end.result.Some?
    ensures Classify(end, nativeMaxTurns, providerError).0 == OutcomeSucceeded <==>
      && end.error.NoError?
      && end.result.value.stopReason !in {"cancelled", STOP_REASON_MAX_TURNS}
      && !(providerError && end.result.value.turnsUsed == 0)
      && !(0 < nativeMaxTurns <= end.result.value.turnsUsed)
    ensures Classify(end, nativeMaxTurns, providerError).0 == OutcomeLimitReached ==>
      Classify(end, nativeMaxTurns, providerError).1 != NoLimit
  {
  }

  /** A turn ceiling was hit: goose says so, or the turns it took reach it. */
  predicate TurnCeiling(r: PromptResult, nativeMaxTurns: int) {
    r.stopReason == "max_turn_requests" || 0 < nativeMaxTurns <= r.turnsUsed
  }

  /** The provider failed before the agent did anything. */
  predicate NothingDone(r: PromptResult, providerError: bool) {
    providerError && r.turnsUsed == 0
  }

  /**
   Which limit a prompt ran into.  The harness's own cost cancel is the cost limit; a turn ceiling counts
   unless the prompt was cancelled or nothing was done, and also when the connection went down at it.
   */
  lemma ClassifyTable(end: PromptEnd, nativeMaxTurns: int, providerError: bool)
    requires end.error.NoError? ==> end.result.Some?
    ensures var (outcome, limit) := Classify(end, nativeMaxTurns, providerError);
      && (outcome == OutcomeLimitReached && limit == MaxCost <==>
            end.error.NoError? && end.result.value.stopReason == "cancelled" && end.result.value.costLimitReached)
      && (outcome == OutcomeLimitReached && limit == MaxTurns <==>
            || (end.error.NoError? && end.result.value.stopReason != "cancelled"
                  && !NothingDone(end.result.value, providerError) && TurnCeiling(end.result.value, nativeMaxTurns))
            || (end.error.ConnectionLost? && end.result.Some? && 0 < nativeMaxTurns <= end.result.value.turnsUsed))
      && (outcome == OutcomeLimitReached ==> limit != NoLimit)
      && (outcome == OutcomeFailed ==> limit == NoLimit)
      && (outcome == OutcomeSucceeded ==> limit == if end.result.value.costLimitReached then MaxCost else NoLimit)
  {
  }

  /** Everything a stage reads or meets on its way. */
  datatype Inputs = Inputs(
    configLoads: bool,
    hubTokenId: string,
    stage: string,               // KONVEYOR_WORKFLOW_STAGE
    stageCount: string,          // KONVEYOR_WORKFLOW_STAGE_COUNT
    setupSucceeds: bool,         // every step between loading config and sending the prompt
    prompt: PromptEnd,
    nativeMaxTurns: int,
    providerError: bool,
    gooseAlive: bool,
    pushSucceeds: bool)

  ghost predicate WellFormed(i: Inputs) {
    i.prompt.error.NoError? ==> i.prompt.result.Some?
  }

  /** workflowStagePosition */
  function StagePosition(stage: string, count: string): Option<(nat, nat)> {
    if stage == "" || count == "" then None
    else match Decimals.ParseUint(stage)
      case None => None
      case Some(s) =>
        if s == 0 then None
        else match Decimals.ParseUint(count)
          case None => None
          case Some(c) => if c == 0 || s > c then None else Some((s, c))
  }

  predicate Intermediate(stage: string, count: string) {
    var p := StagePosition(stage, count);
    p.Some? && p.value.0 < p.value.1
  }

  /** A position counts only if both parts are numbers from 1 on and the stage is not past the count. */
  lemma PositionTable(stage: string, count: string, s: nat, c: nat)
    ensures StagePosition(stage, count) == Some((s, c)) <==>
      Decimals.ParseUint(stage) == Some(s) && Decimals.ParseUint(count) == Some(c) && 1 <= s <= c
    ensures StagePosition(stage, count).Some? ==> 1 <= StagePosition(stage, count).value.0 <= StagePosition(stage, count).value.1
    ensures Intermediate(stage, count) <==>
      StagePosition(stage, count).Some? && StagePosition(stage, count).value.0 != StagePosition(stage, count).value.1
  {
  }

  /** The position the controller stamps is the position the harness reads back. */
  lemma StampedPosition(index: nat, count: nat)
    requires index < count < Decimals.TWO_64
    ensures StagePosition(Decimals.Format(index + 1), Decimals.Format(count)) == Some((index + 1, count))
    ensures Intermediate(Decimals.Format(index + 1), Decimals.Format(count)) <==> index + 1 < count
  {
    Decimals.ParseUintFormat(index + 1);
    Decimals.ParseUintFormat(count);
    Decimals.FormatRoundTrip(index + 1);
    Decimals.FormatRoundTrip(count);
  }

  datatype Blob = Blob(exitCode: int, outcome: Outcome, limit: Limit)

  datatype Exit = Exit(code: int, blob: Blob, revoked: bool)

  /** The stage did its work, kept its agent alive and landed its commits. */
  predicate StageSucceeds(i: Inputs)
    requires i.prompt.error.NoError? ==> i.prompt.result.Some?
  {
    && i.configLoads && i.setupSucceeds && i.gooseAlive && i.pushSucceeds
    && Classify(i.prompt, i.nativeMaxTurns, i.providerError).0 == OutcomeSucceeded
  }

  /** Nothing but the prompt itself can still decide. */
  predicate GotThrough(i: Inputs) {
    i.configLoads && i.setupSucceeds && i.gooseAlive && i.pushSucceeds
  }

  predicate EndedWell(i: Inputs) {
    && i.prompt.error.NoError? && i.prompt.result.Some? && i.prompt.result.value.stopReason != "cancelled"
    && !NothingDone(i.prompt.result.value, i.providerError) && !TurnCeiling(i.prompt.result.value, i.nativeMaxTurns)
  }

  /** The cost limit, or a turn ceiling, also one at which the connection went down. */
  predicate HitLimit(i: Inputs) {
    && i.prompt.result.Some?
    && var r := i.prompt.result.value;
       || (i.prompt.error.NoError? && r.stopReason == "cancelled" && r.costLimitReached)
       || (i.prompt.error.NoError? && r.stopReason != "cancelled" && !NothingDone(r, i.providerError)
             && TurnCeiling(r, i.nativeMaxTurns))
       || (i.prompt.error.ConnectionLost? && 0 < i.nativeMaxTurns <= r.turnsUsed)
  }

  /** The exit code a stage ends with. */
  function StageCode(i: Inputs): int
    requires i.prompt.error.NoError? ==> i.prompt.result.Some?
  {
    if StageSucceeds(i) then 0
    else if i.configLoads && i.setupSucceeds && i.gooseAlive && i.pushSucceeds
            && Classify(i.prompt, i.nativeMaxTurns, i.providerError).0 == OutcomeLimitReached
    then 2
    else 1
  }

  /** Revocation is owed whenever a usable token id was loaded, unless a later stage still needs it. */
  predicate StageRevokes(i: Inputs)
    requires i.prompt.error.NoError? ==> i.prompt.result.Some?
  {
    && i.configLoads && Decimals.ParseUint(i.hubTokenId).Some?
    && !(Intermediate(i.stage, i.stageCount) && StageSucceeds(i))
  }

  /**
   runStage.  `code` is what the process exits with; the blob and the revocation are what the
   deferred functions do, in whichever order the function was left.
   */
  method RunStage(i: Inputs) returns (exit: Exit)
    requires WellFormed(i)
    ensures exit.code == StageCode(i)
    ensures exit.blob.exitCode == exit.code && ExitCode(exit.blob.outcome) == exit.code
    ensures exit.revoked == StageRevokes(i)
    ensures exit.code == 2 ==> exit.blob.limit == Classify(i.prompt, i.nativeMaxTurns, i.providerError).1 != NoLimit
    ensures exit.code == 1 ==> exit.blob.limit == NoLimit
    ensures exit.code == 0 ==> exit.blob.limit == if i.prompt.result.value.costLimitReached then MaxCost else NoLimit
    ensures exit.code == 0 <==> GotThrough(i) && EndedWell(i)
    ensures exit.code == 2 <==> GotThrough(i) && HitLimit(i)
    ensures exit.revoked <==> i.configLoads && Decimals.ParseUint(i.hubTokenId).Some?
                              && !(exit.code == 0 && Intermediate(i.stage, i.stageCount))
  {
    var term := Blob(1, OutcomeFailed, NoLimit);
    var code := 1;
    var stageSucceeded := false;
    var revokeDeferred := false;
    var intermediate := false;

    if i.configLoads {
      if Decimals.ParseUint(i.hubTokenId).Some? {
        intermediate := Intermediate(i.stage, i.stageCount);
        revokeDeferred := true;
      }
      if i.setupSucceeds {
        var (stageOutcome, limit) := Classify(i.prompt, i.nativeMaxTurns, i.providerError);
        if !i.gooseAlive {
          stageOutcome, limit := OutcomeFailed, NoLimit;
        }
        if i.prompt.result.Some? {
          term := Blob(ExitCode(stageOutcome), stageOutcome, limit);
        } else {
          term := Blob(ExitCode(stageOutcome), stageOutcome, NoLimit);
        }
        if !i.pushSucceeds {
          term := Blob(1, OutcomeFailed, NoLimit);
        } else {
          match stageOutcome {
            case OutcomeSucceeded => stageSucceeded := true; code := 0;
            case OutcomeLimitReached => code := 2;
            case OutcomeFailed => code := 1;
          }
        }
      }
    }
    // deferred: token revocation, then the termination log
    exit := Exit(code, term, revokeDeferred && !(intermediate && stageSucceeded));
  }

  /** Exactly the intermediate successes leave the token alive for the next stage. */
  lemma RevocationPolicy(i: Inputs)
    requires WellFormed(i)
    ensures StageCode(i) == 0 <==> StageSucceeds(i)
    ensures i.configLoads && Decimals.ParseUint(i.hubTokenId).Some? ==>
      (!StageRevokes(i) <==> Intermediate(i.stage, i.stageCount) && StageCode(i) == 0)
  {
  }
}
