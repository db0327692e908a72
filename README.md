# Fault-injection decisions of the Lincheck distributed stress runner

This project models `Probability`, the class that the distributed stress
runner of Lincheck asks whether a simulated network event goes wrong. It reads
two flags of the test configuration, `isNetworkReliable` and
`messageDuplication`, and compares samples of `nextDouble(1.0)` against four
hard-coded constants (0.95, 0.9, 0.05 and 0.7) with a strict `<`. From them it
decides:

- how many times one message is delivered (`duplicationRate`: 0 lost, 1 once,
  2 duplicated), with `messageIsSent` as its first step;
- whether a live node crashes (`nodeFailed`);
- whether a crashed node recovers (`nodeRecovered`).

The random generator is an explicit, infinite stream of samples (`Stream`, a
function from positions to reals in [0, 1)) plus a position. Samples and
constants are Dafny `real`s, so the constants are exact.

The model has two layers:

- `decisions.dfy` (module `Decisions`) holds each decision as a pure function
  of the configuration, the stream and the current position. It returns the
  decision and the position after the call (`Draw`), so the samples consumed
  are explicit. The lemmas state the exact conditions for each outcome, what
  each flag rules out, and how many samples each call consumes. The same facts
  are also proved for any number of successive calls (`SuccessiveRates`).
- `stress.dfy` (module `Stress`) is the stateful form. `RandomSource` stands
  for the thread's generator and advances its position on each
  `NextDouble`. `Probability` keeps the configuration, the generator and the
  unused `prevMsgCount`. Each of its methods is proved equal to the
  corresponding `Decisions` function. Each also changes nothing in the
  object itself (`unchanged(this)`); only the generator's position moves.

The source gives the number 0.9 the name `MESSAGE_DUPLICATION_PROBABILITY`.
However, the code delivers a message once when the second sample is below 0.9
and twice otherwise. A sent message is therefore duplicated only for samples
in [0.9, 1). The model follows the code. The same goes for the constants:
they are compiled-in values that nothing validates. The model keeps them as
fixed constants and does not make them configurable or check them.

## Model

| member | source | states |
|---|---|---|
| Decisions.MessageIsSent | src/jvm/main/org/jetbrains/kotlinx/lincheck/distributed/stress/Probability.kt:47-52 | a reliable network reports the message as sent without drawing a sample; an unreliable one draws exactly one sample |
| Decisions.DuplicationRate | src/jvm/main/org/jetbrains/kotlinx/lincheck/distributed/stress/Probability.kt:37-45 | the result is always 0, 1 or 2, and the call consumes between 0 and 2 samples |
| Decisions.NodeFailed | src/jvm/main/org/jetbrains/kotlinx/lincheck/distributed/stress/Probability.kt:54 | the node-failure decision consumes exactly one sample |
| Decisions.NodeRecovered | src/jvm/main/org/jetbrains/kotlinx/lincheck/distributed/stress/Probability.kt:56 | the node-recovery decision consumes exactly one sample |
| Decisions.LostIff | src/jvm/main/org/jetbrains/kotlinx/lincheck/distributed/stress/Probability.kt:31-51 | the result is 0 exactly when the network is unreliable and the first sample is at least 0.95 (strict `<` against 0.95) |
| Decisions.ReliableNeverLost | src/jvm/main/org/jetbrains/kotlinx/lincheck/distributed/stress/Probability.kt:38-40 | on a reliable network the result is never 0 |
| Decisions.NoDuplicationWithoutFlag | src/jvm/main/org/jetbrains/kotlinx/lincheck/distributed/stress/Probability.kt:41-43 | with duplication off the result is never 2; it is 1 exactly when the message is sent, and no duplication sample is drawn |
| Decisions.DuplicatedIff | src/jvm/main/org/jetbrains/kotlinx/lincheck/distributed/stress/Probability.kt:32-44 | for a sent message with duplication on, the result is 1 exactly when the next sample is below 0.9 and 2 exactly when it is at least 0.9; that call draws one more sample; the range that duplicates is the narrower one |
| Decisions.DuplicationRateConsumption | src/jvm/main/org/jetbrains/kotlinx/lincheck/distributed/stress/Probability.kt:37-52 | samples consumed per call: 0 when the network is reliable and duplication is off; 1 when it is reliable and duplication is on; 1 when it is unreliable and the message is lost or duplication is off; 2 when it is unreliable, the message is sent and duplication is on |
| Decisions.NodeDecisions | src/jvm/main/org/jetbrains/kotlinx/lincheck/distributed/stress/Probability.kt:33-56 | a node fails exactly when its sample is below 0.05 and recovers exactly when its sample is below 0.7; on the same sample, a failure implies a recovery |
| Decisions.SuccessiveRates | src/jvm/main/org/jetbrains/kotlinx/lincheck/distributed/stress/Probability.kt:37-45 | n successive rate decisions on one stream give n results, each 0, 1 or 2, and advance the stream by at most 2n |
| Decisions.ReliableNeverLosesAny | src/jvm/main/org/jetbrains/kotlinx/lincheck/distributed/stress/Probability.kt:38-40 | on a reliable network no message is lost, whatever the number of successive calls |
| Decisions.NeverDuplicatesAny | src/jvm/main/org/jetbrains/kotlinx/lincheck/distributed/stress/Probability.kt:41-43 | with duplication off no message is ever delivered twice, whatever the number of successive calls |
| Decisions.SuccessiveConsumption | src/jvm/main/org/jetbrains/kotlinx/lincheck/distributed/stress/Probability.kt:37-52 | n successive calls consume exactly 0, n, n or between n and 2n samples, for the four combinations of the two flags |
| Stress.Probability.DuplicationRate | src/jvm/main/org/jetbrains/kotlinx/lincheck/distributed/stress/Probability.kt:37-45 | the returned count and the new generator position are those of `Decisions.DuplicationRate` at the old position; `prevMsgCount` and the configuration are unchanged |
| Stress.Probability.MessageIsSent | src/jvm/main/org/jetbrains/kotlinx/lincheck/distributed/stress/Probability.kt:47-52 | the result and the new position are those of `Decisions.MessageIsSent`; a reliable network leaves the generator where it was |
| Stress.Probability.NodeFailed | src/jvm/main/org/jetbrains/kotlinx/lincheck/distributed/stress/Probability.kt:54 | the result is `Decisions.NodeFailed` at the old position, and the generator advances by exactly one |
| Stress.Probability.NodeRecovered | src/jvm/main/org/jetbrains/kotlinx/lincheck/distributed/stress/Probability.kt:56 | the result is `Decisions.NodeRecovered` at the old position, and the generator advances by exactly one |
| Stress.Probability.constructor | src/jvm/main/org/jetbrains/kotlinx/lincheck/distributed/stress/Probability.kt:26-28 | keeps the given configuration and generator, with `prevMsgCount` at 0 as declared at line 58 |

## Left out

- The per-thread `ThreadLocal<Random>` (Probability.kt:30) is replaced by a `RandomSource` object passed to the constructor. Per-thread isolation is a concurrency matter and is not modelled.
- Kotlin's `Random.nextDouble` is outside the model: its samples are arbitrary reals in [0, 1), not IEEE doubles, and the generator's algorithm and seeding are not modelled.
- Statistical claims (how often each outcome occurs) cannot be stated as contracts. Only the decision for each sample is modelled.
- `DistributedCTestConfiguration` is reduced to its two flags.
- `prevMsgCount` has no behaviour in the source (Probability.kt:58). The model only keeps it as a field that no method touches.
- The node life cycle (live, failed, live again) belongs to the caller of these decisions and is not part of this model.
- The example lock-free stack under `src/jvm/test/org/jetbrains/kotlinx/lincheck/test/guide/StackTest.kt` is demonstration code for the concurrency checker and is not part of this model.
