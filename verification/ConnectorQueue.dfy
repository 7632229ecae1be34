/** The connector's offline queue: what one enqueue and one flush do to it. */
module ConnectorQueue {
  import opened Prelude
  import PromptStore

  type Captured = PromptStore.Input
  type ClientEventId = PromptStore.ClientEventId

  const MAX_DELAY_MS := 60 * 60_000

  datatype Queued = Queued(prompt: Captured, attempts: nat, nextAttemptAt: real)

  type Queue = seq<Queued>

  function Pow2(n: nat): (p: nat)
    ensures p >= 1
  {
    if n == 0 then 1 else 2 * Pow2(n - 1)
  }

  function Min(a: int, b: int): int {
    if a <= b then a else b
  }

  /** The delay after the given number of failed attempts, before jitter. */
  function Delay(attempts: nat): int {
    Min(MAX_DELAY_MS, 1_000 * Pow2(Min(attempts, 12)))
  }

  predicate Holds(queue: Queue, id: ClientEventId) {
    exists i :: 0 <= i < |queue| && queue[i].prompt.clientEventId == id
  }

  function Enqueued(queue: Queue, prompt: Captured, now: real): Queue {
    if Holds(queue, prompt.clientEventId) then queue else queue + [Queued(prompt, 0, now)]
  }

  /** The delay with up to a fifth added or taken away. */
  function Jittered(delay: int, random: real): real {
    delay as real * (0.8 + random * 0.4)
  }

  function Retry(item: Queued, now: real, random: real): Queued {
    item.(attempts := item.attempts + 1, nextAttemptAt := now + Jittered(Delay(item.attempts + 1), random))
  }

  /** What happens when the flush comes to an item: the clock readings, whether the send
      succeeds and the random number drawn if it does not. */
  datatype Turn = Turn(checkedAt: real, delivered: bool, failedAt: real, random: real)

  function AfterTurn(item: Queued, turn: Turn): Queue {
    if item.nextAttemptAt > turn.checkedAt then [item]
    else if turn.delivered then []
    else [Retry(item, turn.failedAt, turn.random)]
  }

  function Flushed(queue: Queue, turns: seq<Turn>): Queue
    requires |turns| == |queue|
  {
    if queue == [] then [] else AfterTurn(queue[0], turns[0]) + Flushed(queue[1..], turns[1..])
  }

  lemma HoldsConcat(a: Queue, b: Queue, id: ClientEventId)
    ensures Holds(a + b, id) <==> Holds(a, id) || Holds(b, id)
  {
    if i :| 0 <= i < |a| && a[i].prompt.clientEventId == id {
      assert (a + b)[i] == a[i];
    }
    if i :| 0 <= i < |b| && b[i].prompt.clientEventId == id {
      assert (a + b)[|a| + i] == b[i];
    }
  }

  /** The item at `i` carries the event and was not delivered in its turn. */
  predicate Undelivered(queue: Queue, turns: seq<Turn>, id: ClientEventId, i: nat)
    requires |turns| == |queue|
  {
    && i < |queue| && queue[i].prompt.clientEventId == id
    && (queue[i].nextAttemptAt > turns[i].checkedAt || !turns[i].delivered)
  }

  /** A flush keeps an event exactly if some item that carries it was not delivered. */
  lemma {:induction false} FlushKeepsUndelivered(queue: Queue, turns: seq<Turn>, id: ClientEventId)
    requires |turns| == |queue|
    ensures Holds(Flushed(queue, turns), id) <==> exists i :: Undelivered(queue, turns, id, i)
  {
    if queue != [] {
      var head, tail := AfterTurn(queue[0], turns[0]), Flushed(queue[1..], turns[1..]);
      FlushKeepsUndelivered(queue[1..], turns[1..], id);
      HoldsConcat(head, tail, id);
      assert Holds(head, id) <==> Undelivered(queue, turns, id, 0) by {
        if head != [] { assert head[0].prompt == queue[0].prompt; }
      }
      if i: nat :| Undelivered(queue[1..], turns[1..], id, i) {
        assert Undelivered(queue, turns, id, i + 1);
      }
      if i: nat :| i > 0 && Undelivered(queue, turns, id, i) {
        assert Undelivered(queue[1..], turns[1..], id, i - 1);
      }
    }
  }

  lemma {:induction false} FlushedSplit(queue: Queue, turns: seq<Turn>, k: nat)
    requires |turns| == |queue| && k < |queue|
    ensures Flushed(queue[..k + 1], turns[..k + 1]) == Flushed(queue[..k], turns[..k]) + AfterTurn(queue[k], turns[k])
  {
    if k == 0 {
      assert queue[..1][1..] == [] && turns[..1][1..] == [];
      assert queue[..0] == [] && turns[..0] == [];
      assert Flushed(queue[..1], turns[..1]) == AfterTurn(queue[0], turns[0]) + [];
    } else {
      FlushedSplit(queue[1..], turns[1..], k - 1);
      assert queue[..k + 1][1..] == queue[1..][..k] && turns[..k + 1][1..] == turns[1..][..k];
      assert queue[..k][1..] == queue[1..][..k - 1] && turns[..k][1..] == turns[1..][..k - 1];
    }
  }

  /** The delays in milliseconds: doubling from two seconds, and an hour from the twelfth
      failure on. */
  lemma DelaysAre(attempts: nat)
    ensures attempts < 12 ==> Delay(attempts) == 1_000 * Pow2(attempts)
    ensures attempts >= 12 ==> Delay(attempts) == 3_600_000
    ensures Pow2(attempts + 1) == 2 * Pow2(attempts) && Pow2(0) == 1
  {
    assert Pow2(4) == 16 && Pow2(8) == 256 && Pow2(11) == 2_048 && Pow2(12) == 4_096;
    if attempts < 12 { SmallPower(attempts); }
  }

  lemma {:induction false} SmallPower(n: nat)
    requires n < 12
    ensures Pow2(n) <= 2_048
  {
    assert Pow2(0) == 1 && Pow2(1) == 2 && Pow2(2) == 4 && Pow2(3) == 8 && Pow2(4) == 16 && Pow2(5) == 32;
    assert Pow2(6) == 64 && Pow2(7) == 128 && Pow2(8) == 256 && Pow2(9) == 512 && Pow2(10) == 1_024 && Pow2(11) == 2_048;
  }

  /** What a turn does with an item: nothing before it is due; it goes when it is delivered;
      otherwise it waits, with one more failure on record, for the delay of that failure, give
      or take a fifth. */
  lemma TurnsAre(item: Queued, turn: Turn)
    requires 0.0 <= turn.random < 1.0
    ensures var after := AfterTurn(item, turn);
            && (turn.checkedAt < item.nextAttemptAt ==> after == [item])
            && (item.nextAttemptAt <= turn.checkedAt && turn.delivered ==> after == [])
            && (item.nextAttemptAt <= turn.checkedAt && !turn.delivered ==>
                  && |after| == 1 && after[0].prompt == item.prompt && after[0].attempts == item.attempts + 1
                  && var delay := Delay(item.attempts + 1) as real;
                     turn.failedAt + 0.8 * delay <= after[0].nextAttemptAt < turn.failedAt + 1.2 * delay)
  {
    DelaysAre(item.attempts + 1);
    JitterIsWithinAFifth(Delay(item.attempts + 1), turn.random);
    hide Delay, Jittered;
  }

  lemma JitterIsWithinAFifth(delay: int, random: real)
    requires delay >= 1 && 0.0 <= random < 1.0
    ensures 0.8 * delay as real <= Jittered(delay, random) < 1.2 * delay as real
  {
    var d := delay as real;
    assert d * (0.8 + random * 0.4) == 0.8 * d + 0.4 * (d * random);
    assert 0.0 <= d * random < d;
  }

  /** An event is appended with no failures, due at once, unless it is queued. */
  lemma EnqueuedIs(queue: Queue, prompt: Captured, now: real)
    ensures var queued := exists i :: 0 <= i < |queue| && queue[i].prompt.clientEventId == prompt.clientEventId;
            Enqueued(queue, prompt, now) == if queued then queue else queue + [Queued(prompt, 0, now)]
  {
  }

  /** The client, with the queue that its storage holds. */
  class ConnectorClient {
    var queue: Queue

    constructor ()
      ensures queue == []
    {
      queue := [];
    }

    method Enqueue(prompt: Captured, now: real)
      modifies this
      ensures queue == Enqueued(old(queue), prompt, now)
    {
      var items := queue;
      if exists i :: 0 <= i < |items| && items[i].prompt.clientEventId == prompt.clientEventId {
        return;
      }
      items := items + [Queued(prompt, 0, now)];
      queue := items;
    }

    method FlushInternal(turns: seq<Turn>)
      requires |turns| == |queue|
      modifies this
      ensures queue == Flushed(old(queue), turns)
    {
      var items := queue;
      var retained: Queue := [];
      for k := 0 to |items|
        invariant queue == items
        invariant retained == Flushed(items[..k], turns[..k])
      {
        FlushedSplit(items, turns, k);
        hide Flushed, Delay;
        assert retained + [] == retained;
        var item, turn := items[k], turns[k];
        if item.nextAttemptAt > turn.checkedAt {
          retained := retained + [item];
        } else if !turn.delivered {
          var attempts := item.attempts + 1;
          var exponentialMs := Delay(attempts);
          retained := retained + [item.(attempts := attempts,
                                        nextAttemptAt := turn.failedAt + Jittered(exponentialMs, turn.random))];
        }
      }
      assert items[..|items|] == items && turns[..|items|] == turns;
      queue := retained;
    }
  }
}
