/** Normalisation of an agent run's configuration, and the round bounds derived from it. */
module RunConfig {
  import opened Wrappers

  const MIN_AGENT_ROUNDS := 3
  const MAX_AGENT_ROUNDS := 5

  datatype Config = Config(maxRounds: int, roundFetchSchedule: seq<int>, finalTopK: int)

  /** Operator settings: the defaults used for a request without a configuration. */
  datatype Runtime = Runtime(minRounds: int, defaults: Config)

  function RequestedConfig(config: Option<Config>, runtime: Runtime): Config {
    if config.None? then runtime.defaults else config.value
  }

  /** The configurations the service accepts. */
  predicate Acceptable(raw: Config, minRounds: int) {
    && MIN_AGENT_ROUNDS <= minRounds <= MAX_AGENT_ROUNDS
    && minRounds <= raw.maxRounds <= MAX_AGENT_ROUNDS
    && raw.finalTopK > 0
    && raw.roundFetchSchedule != []
    && forall i :: 0 <= i < |raw.roundFetchSchedule| ==> raw.roundFetchSchedule[i] > 0
  }

  /** In numbers: between three and five rounds, no fewer than the operator's minimum, at least one place
      on the shortlist, and at least one fetch size, all of them positive. */
  lemma {:induction false} AcceptableMeaning(config: Option<Config>, runtime: Runtime)
    ensures Acceptable(RequestedConfig(config, runtime), runtime.minRounds) <==>
      var raw := if config.None? then runtime.defaults else config.value;
      && 3 <= runtime.minRounds <= raw.maxRounds <= 5 && raw.finalTopK >= 1 && |raw.roundFetchSchedule| >= 1
      && forall size :: size in raw.roundFetchSchedule ==> size >= 1
  {
    var schedule := RequestedConfig(config, runtime).roundFetchSchedule;
    assert forall i :: 0 <= i < |schedule| ==> schedule[i] in schedule;
  }

  /** What the worker may rely on: one positive fetch size for each permitted round. */
  predicate Normalised(c: Config) {
    && MIN_AGENT_ROUNDS <= c.maxRounds <= MAX_AGENT_ROUNDS
    && c.finalTopK > 0
    && |c.roundFetchSchedule| == c.maxRounds
    && forall i :: 0 <= i < |c.roundFetchSchedule| ==> c.roundFetchSchedule[i] > 0
  }

  method NormalizeAgentRunConfig(config: Option<Config>, runtime: Runtime) returns (r: Result<Config>)
    ensures r.Success? <==> Acceptable(RequestedConfig(config, runtime), runtime.minRounds)
    ensures r.Failure? ==> r.error.code == "INVALID_AGENT_CONFIG"
    ensures r.Success? ==>
      var raw, c := RequestedConfig(config, runtime), r.value;
      && Normalised(c) && c.maxRounds == raw.maxRounds && c.finalTopK == raw.finalTopK
      && c.roundFetchSchedule == PaddedTo(raw.roundFetchSchedule, raw.maxRounds)
  {
    var raw := RequestedConfig(config, runtime);
    if runtime.minRounds < MIN_AGENT_ROUNDS || runtime.minRounds > MAX_AGENT_ROUNDS {
      return Failure(Error("INVALID_AGENT_CONFIG", "Configured min rounds are out of range."));
    }
    if raw.maxRounds < runtime.minRounds || raw.maxRounds > MAX_AGENT_ROUNDS {
      return Failure(Error("INVALID_AGENT_CONFIG", "maxRounds is out of range."));
    }
    if raw.finalTopK <= 0 {
      return Failure(Error("INVALID_AGENT_CONFIG", "finalTopK must be positive."));
    }
    if raw.roundFetchSchedule == [] || exists i :: 0 <= i < |raw.roundFetchSchedule| && raw.roundFetchSchedule[i] <= 0 {
      return Failure(Error("INVALID_AGENT_CONFIG", "roundFetchSchedule must contain positive integers."));
    }
    var schedule := if |raw.roundFetchSchedule| <= raw.maxRounds then raw.roundFetchSchedule
                    else raw.roundFetchSchedule[..raw.maxRounds];
    while |schedule| < raw.maxRounds
      invariant 0 < |schedule| <= raw.maxRounds
      invariant schedule == PaddedTo(raw.roundFetchSchedule, |schedule|)
      invariant |schedule| < raw.maxRounds ==> |raw.roundFetchSchedule| <= |schedule|
    {
      schedule := schedule + [schedule[|schedule| - 1]];
    }
    return Success(Config(raw.maxRounds, schedule, raw.finalTopK));
  }

  /** `schedule` cut to `n` rounds, or continued with its last entry. */
  function PaddedTo(schedule: seq<int>, n: nat): (r: seq<int>)
    requires schedule != []
    ensures |r| == n
    ensures forall i :: 0 <= i < n ==> r[i] == schedule[if i < |schedule| then i else |schedule| - 1]
  {
    seq(n, i requires 0 <= i => schedule[if i < |schedule| then i else |schedule| - 1])
  }

  /** Normalising keeps every size it has room for, in its round, and otherwise only repeats the last
      one; doing so again, or to a schedule of the right length, changes nothing. */
  lemma {:induction false} PaddedMeaning(schedule: seq<int>, n: nat)
    requires schedule != []
    ensures var padded := PaddedTo(schedule, n);
      && (if n <= |schedule| then padded == schedule[..n]
          else schedule <= padded && forall size :: size in padded[|schedule|..] ==> size == schedule[|schedule| - 1])
      && (n > 0 ==> PaddedTo(padded, n) == padded)
      && (forall size :: size in padded ==> size in schedule)
  {
    var padded := PaddedTo(schedule, n);
    if n <= |schedule| {
      assert padded == schedule[..n];
    } else {
      assert padded[..|schedule|] == schedule;
    }
    if n > 0 { assert PaddedTo(padded, n) == padded; }
  }

  function Min(a: int, b: int): int { if a <= b then a else b }

  function Max(a: int, b: int): int { if a >= b then a else b }

  /** The worker's own minimum: its setting clamped to the global bounds, then to `maxRounds`. */
  function EffectiveMinRounds(agentMinRounds: int, config: Config): (r: int)
    ensures r <= config.maxRounds
    ensures Normalised(config) ==>
      && MIN_AGENT_ROUNDS <= r
      && (agentMinRounds <= config.maxRounds ==> r == Max(MIN_AGENT_ROUNDS, agentMinRounds))
      && (agentMinRounds >= config.maxRounds ==> r == config.maxRounds)
  {
    Min(config.maxRounds, Max(MIN_AGENT_ROUNDS, Min(agentMinRounds, MAX_AGENT_ROUNDS)))
  }
}
