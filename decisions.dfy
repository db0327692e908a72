/** The fault-injection decisions of the distributed stress runner, as pure
    functions over an explicit stream of random samples.

    Every call to `nextDouble(1.0)` of the source becomes a read of `rand(pos)`;
    each decision returns its value together with the stream position after
    the call, so the number of samples a decision consumes is visible. */
module Decisions {

  /** The four hard-coded probabilities, exact as reals. */
  const MessageSentProbability: real := 0.95
  const MessageDuplicationProbability: real := 0.9
  const NodeFailProbability: real := 0.05
  const NodeRecoveryProbability: real := 0.7

  /** A value returned by `nextDouble(1.0)`: uniform in [0, 1). */
  type Sample = x: real | 0.0 <= x < 1.0 witness 0.0

  /** The random generator's output, one sample per position. */
  type Stream = nat -> Sample

  /** The two flags of the test configuration that the decisions read. */
  datatype Config = Config(isNetworkReliable: bool, messageDuplication: bool)

  /** The outcome of a decision and the stream position after it. */
  datatype Draw<T> = Draw(value: T, next: nat)

  /** Whether a message gets through the network: always on a reliable
      network (no sample drawn), otherwise when one sample is below 0.95. */
  function MessageIsSent(cfg: Config, rand: Stream, pos: nat): (d: Draw<bool>)
    ensures d.next == pos || d.next == pos + 1
    ensures cfg.isNetworkReliable ==> d.value && d.next == pos
    ensures !cfg.isNetworkReliable ==> d.next == pos + 1
  {
    if cfg.isNetworkReliable then Draw(true, pos)
    else Draw(rand(pos) < MessageSentProbability, pos + 1)
  }

  /** How many times one message is delivered: 0 (lost), 1 or 2 (duplicated). */
  function DuplicationRate(cfg: Config, rand: Stream, pos: nat): (d: Draw<int>)
    ensures 0 <= d.value <= 2
    ensures pos <= d.next <= pos + 2
  {
    var sent := MessageIsSent(cfg, rand, pos);
    if !sent.value then Draw(0, sent.next)
    else if !cfg.messageDuplication then Draw(1, sent.next)
    else Draw(if rand(sent.next) < MessageDuplicationProbability then 1 else 2, sent.next + 1)
  }

  /** Whether a live node crashes now. */
  function NodeFailed(rand: Stream, pos: nat): (d: Draw<bool>)
    ensures d.next == pos + 1
  {
    Draw(rand(pos) < NodeFailProbability, pos + 1)
  }

  /** Whether a failed node comes back now. */
  function NodeRecovered(rand: Stream, pos: nat): (d: Draw<bool>)
    ensures d.next == pos + 1
  {
    Draw(rand(pos) < NodeRecoveryProbability, pos + 1)
  }

  // ---------------------------------------------------------------------------
  // One call

  /** A message is lost exactly when the network is unreliable and the first
      sample is at least 0.95 (the comparison is strict). */
  lemma LostIff(cfg: Config, rand: Stream, pos: nat)
    ensures DuplicationRate(cfg, rand, pos).value == 0
        <==> !cfg.isNetworkReliable && rand(pos) >= MessageSentProbability
  {
  }

  /** On a reliable network no message is lost. */
  lemma ReliableNeverLost(cfg: Config, rand: Stream, pos: nat)
    requires cfg.isNetworkReliable
    ensures DuplicationRate(cfg, rand, pos).value != 0
  {
  }

  /** Without duplication a message is never delivered twice: a sent message
      is delivered exactly once and no duplication sample is drawn. */
  lemma NoDuplicationWithoutFlag(cfg: Config, rand: Stream, pos: nat)
    requires !cfg.messageDuplication
    ensures DuplicationRate(cfg, rand, pos).value != 2
    ensures DuplicationRate(cfg, rand, pos).value == 1 <==> MessageIsSent(cfg, rand, pos).value
    ensures DuplicationRate(cfg, rand, pos).next == MessageIsSent(cfg, rand, pos).next
  {
  }

  /** A sent message under duplication is delivered once when the next sample
      is below 0.9 and twice otherwise; the twice-range [0.9, 1) is the
      narrower one. */
  lemma DuplicatedIff(cfg: Config, rand: Stream, pos: nat)
    requires cfg.messageDuplication && MessageIsSent(cfg, rand, pos).value
    ensures var k := MessageIsSent(cfg, rand, pos).next;
      && (DuplicationRate(cfg, rand, pos).value == 1 <==> rand(k) < MessageDuplicationProbability)
      && (DuplicationRate(cfg, rand, pos).value == 2 <==> rand(k) >= MessageDuplicationProbability)
      && DuplicationRate(cfg, rand, pos).next == k + 1
    ensures 1.0 - MessageDuplicationProbability < MessageDuplicationProbability
  {
  }

  /** The exact number of samples one `DuplicationRate` call consumes. */
  lemma DuplicationRateConsumption(cfg: Config, rand: Stream, pos: nat)
    ensures var d := DuplicationRate(cfg, rand, pos);
      && (cfg.isNetworkReliable && !cfg.messageDuplication ==> d.next == pos)
      && (cfg.isNetworkReliable && cfg.messageDuplication ==> d.next == pos + 1)
      && (!cfg.isNetworkReliable && d.value == 0 ==> d.next == pos + 1)
      && (!cfg.isNetworkReliable && !cfg.messageDuplication ==> d.next == pos + 1)
      && (!cfg.isNetworkReliable && cfg.messageDuplication && d.value != 0 ==> d.next == pos + 2)
  {
  }

  /** Node failure and recovery each look at one sample; on the same sample a
      failure decision implies a recovery decision. */
  lemma NodeDecisions(rand: Stream, pos: nat)
    ensures NodeFailed(rand, pos).value <==> rand(pos) < NodeFailProbability
    ensures NodeRecovered(rand, pos).value <==> rand(pos) < NodeRecoveryProbability
    ensures NodeFailed(rand, pos).value ==> NodeRecovered(rand, pos).value
  {
  }

  // ---------------------------------------------------------------------------
  // Any number of successive calls

  /** The results of `n` successive `DuplicationRate` calls on one stream,
      starting at `pos`, and the position after the last one. */
  function SuccessiveRates(cfg: Config, rand: Stream, pos: nat, n: nat): (d: Draw<seq<int>>)
    ensures |d.value| == n
    ensures forall i :: 0 <= i < n ==> 0 <= d.value[i] <= 2
    ensures pos <= d.next <= pos + 2 * n
    decreases n
  {
    if n == 0 then Draw([], pos)
    else
      var first := DuplicationRate(cfg, rand, pos);
      var rest := SuccessiveRates(cfg, rand, first.next, n - 1);
      Draw([first.value] + rest.value, rest.next)
  }

  /** On a reliable network no message is ever lost, over any number of calls. */
  lemma {:induction false} ReliableNeverLosesAny(cfg: Config, rand: Stream, pos: nat, n: nat)
    requires cfg.isNetworkReliable
    ensures forall i :: 0 <= i < n ==> SuccessiveRates(cfg, rand, pos, n).value[i] != 0
    decreases n
  {
    if n > 0 {
      var first := DuplicationRate(cfg, rand, pos);
      ReliableNeverLosesAny(cfg, rand, first.next, n - 1);
      var rs := SuccessiveRates(cfg, rand, pos, n).value;
      assert rs == [first.value] + SuccessiveRates(cfg, rand, first.next, n - 1).value;
      forall i | 0 <= i < n ensures rs[i] != 0 {
        if i == 0 { ReliableNeverLost(cfg, rand, pos); }
      }
    }
  }

  /** Without duplication no message is ever delivered twice, over any number
      of calls. */
  lemma {:induction false} NeverDuplicatesAny(cfg: Config, rand: Stream, pos: nat, n: nat)
    requires !cfg.messageDuplication
    ensures forall i :: 0 <= i < n ==> SuccessiveRates(cfg, rand, pos, n).value[i] != 2
    decreases n
  {
    if n > 0 {
      var first := DuplicationRate(cfg, rand, pos);
      NeverDuplicatesAny(cfg, rand, first.next, n - 1);
      var rs := SuccessiveRates(cfg, rand, pos, n).value;
      assert rs == [first.value] + SuccessiveRates(cfg, rand, first.next, n - 1).value;
      forall i | 0 <= i < n ensures rs[i] != 2 {
        if i == 0 { NoDuplicationWithoutFlag(cfg, rand, pos); }
      }
    }
  }

  /** How far `n` successive calls move the stream, per configuration. */
  lemma {:induction false} SuccessiveConsumption(cfg: Config, rand: Stream, pos: nat, n: nat)
    ensures var next := SuccessiveRates(cfg, rand, pos, n).next;
      && (cfg.isNetworkReliable && !cfg.messageDuplication ==> next == pos)
      && (cfg.isNetworkReliable && cfg.messageDuplication ==> next == pos + n)
      && (!cfg.isNetworkReliable && !cfg.messageDuplication ==> next == pos + n)
      && (!cfg.isNetworkReliable && cfg.messageDuplication ==> pos + n <= next <= pos + 2 * n)
    decreases n
  {
    if n > 0 {
      var first := DuplicationRate(cfg, rand, pos);
      DuplicationRateConsumption(cfg, rand, pos);
      SuccessiveConsumption(cfg, rand, first.next, n - 1);
    }
  }
}
