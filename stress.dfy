/** The stateful form of the decisions: a `Probability` object that consults a
    random generator whose position advances with every sample drawn. */
module Stress {
  import opened Decisions

  /** The random generator behind `nextDouble(1.0)`: a fixed stream of samples
      and the position of the next one to be handed out. */
  class RandomSource {
    const draws: Stream
    var position: nat

    constructor (draws: Stream)
      ensures this.draws == draws && position == 0
    {
      this.draws := draws;
      position := 0;
    }

    /** Hands out the next sample and moves past it. */
    method NextDouble() returns (x: Sample)
      modifies this
      ensures x == draws(old(position))
      ensures position == old(position) + 1
    {
      x := draws(position);
      position := position + 1;
    }
  }

  /** The fault-injection oracle of one test run. Its methods change nothing
      but the position of its random generator. */
  class Probability {
    const testCfg: Config
    const rand: RandomSource
    /** Declared by the runner but never read or written by any decision. */
    var prevMsgCount: int

    constructor (testCfg: Config, rand: RandomSource)
      ensures this.testCfg == testCfg && this.rand == rand
      ensures prevMsgCount == 0
      ensures unchanged(rand)
    {
      this.testCfg := testCfg;
      this.rand := rand;
      prevMsgCount := 0;
    }

    /** How many times the next message is delivered (0, 1 or 2). */
    method DuplicationRate() returns (r: int)
      modifies rand
      ensures Draw(r, rand.position) == Decisions.DuplicationRate(testCfg, rand.draws, old(rand.position))
      ensures 0 <= r <= 2
      ensures old(rand.position) <= rand.position <= old(rand.position) + 2
      ensures unchanged(this)
    {
      var sent := MessageIsSent();
      if !sent {
        return 0;
      }
      if !testCfg.messageDuplication {
        return 1;
      }
      var x := rand.NextDouble();
      r := if x < MessageDuplicationProbability then 1 else 2;
    }

    /** Whether the next message gets through the network. */
    method MessageIsSent() returns (sent: bool)
      modifies rand
      ensures Draw(sent, rand.position) == Decisions.MessageIsSent(testCfg, rand.draws, old(rand.position))
      ensures testCfg.isNetworkReliable ==> sent && rand.position == old(rand.position)
      ensures unchanged(this)
    {
      if testCfg.isNetworkReliable {
        return true;
      }
      var x := rand.NextDouble();
      sent := x < MessageSentProbability;
    }

    /** Whether a live node crashes now. */
    method NodeFailed() returns (failed: bool)
      modifies rand
      ensures Draw(failed, rand.position) == Decisions.NodeFailed(rand.draws, old(rand.position))
      ensures rand.position == old(rand.position) + 1
      ensures unchanged(this)
    {
      var x := rand.NextDouble();
      failed := x < NodeFailProbability;
    }

    /** Whether a failed node comes back now. */
    method NodeRecovered() returns (recovered: bool)
      modifies rand
      ensures Draw(recovered, rand.position) == Decisions.NodeRecovered(rand.draws, old(rand.position))
      ensures rand.position == old(rand.position) + 1
      ensures unchanged(this)
    {
      var x := rand.NextDouble();
      recovered := x < NodeRecoveryProbability;
    }
  }
}
