/** `run_stage`: subscribe to the configured streams and hand each message to
    the connector, one at a time in arrival order, until the stop signal is
    seen or the stream ends. The Redis consumer is a finite sequence of items,
    and the stop signal is a flag read as each item arrives. */
module Stage {
  import opened Wrappers
  import opened Config
  import opened SaeMessages
  import opened Connector

  /** The keys the consumer subscribes to: one `{prefix}:{id}` per stream id, in order. */
  function StreamKeys(redis: RedisInputConfig): (keys: seq<string>)
    ensures |keys| == |redis.streamIds|
    ensures forall i :: 0 <= i < |keys| ==>
      && |keys[i]| == |redis.streamPrefix| + 1 + |redis.streamIds[i]|
      && keys[i][..|redis.streamPrefix|] == redis.streamPrefix
      && keys[i][|redis.streamPrefix|] == ':'
      && keys[i][|redis.streamPrefix| + 1..] == redis.streamIds[i]
  {
    seq(|redis.streamIds|, i requires 0 <= i < |redis.streamIds| => redis.streamPrefix + ":" + redis.streamIds[i])
  }

  /** Distinct stream ids give distinct keys. */
  lemma StreamKeysDistinct(redis: RedisInputConfig, i: nat, j: nat)
    requires i < |redis.streamIds| && j < |redis.streamIds|
    requires redis.streamIds[i] != redis.streamIds[j]
    ensures StreamKeys(redis)[i] != StreamKeys(redis)[j]
  {
  }

  /** One item the consumer yields: the stop flag as it reads when the item
      arrives, the stream key (absent for an empty poll) and the message. */
  datatype Item = Item(stopSet: bool, streamKey: Option<string>, env: MessageEnv)

  datatype Outcome = Stopped | Exhausted | Crashed(error: DecodeError)

  predicate AllWellFormed(items: seq<Item>) {
    forall i :: 0 <= i < |items| ==> WellFormed(items[i].env)
  }

  /** An item after which the loop goes on: no stop signal, and not a keyed
      message that fails to parse (that error leaves the loop). */
  predicate Continues(item: Item) {
    !item.stopSet && !(item.streamKey.Some? && item.env.parsed.Err?)
  }

  /** The first item the loop does not get past, or the number of items. */
  function FirstHalt(items: seq<Item>): (k: nat)
    ensures k <= |items|
    ensures forall j :: 0 <= j < k ==> Continues(items[j])
    ensures k < |items| ==> !Continues(items[k])
  {
    if items == [] || !Continues(items[0]) then 0 else 1 + FirstHalt(items[1..])
  }

  /** How many items the loop takes in: a stopping item is not taken, a
      crashing one is. */
  function Cut(items: seq<Item>): nat {
    var k := FirstHalt(items);
    if k < |items| && !items[k].stopSet then k + 1 else k
  }

  function RunOutcome(items: seq<Item>): Outcome {
    var k := FirstHalt(items);
    if k == |items| then Exhausted
    else if items[k].stopSet then Stopped
    else Crashed(items[k].env.parsed.error)
  }

  /** The messages handed to `get`, in order: every taken item with a key. */
  function Dispatched(items: seq<Item>): (handed: seq<MessageEnv>)
    ensures |handed| <= |items|
  {
    if items == [] then []
    else
      var last := items[|items| - 1];
      Dispatched(items[..|items| - 1]) + (if last.streamKey.Some? then [last.env] else [])
  }

  /** What one taken item adds to the connector's trace. */
  function ItemEffects(config: AicConnectorConfig, item: Item): seq<Effect>
    requires WellFormed(item.env)
  {
    if item.streamKey.None? || item.env.parsed.Err? then []
    else MessageEffects(config, item.env.parsed.value, item.env)
  }

  function DispatchEffects(config: AicConnectorConfig, items: seq<Item>): seq<Effect>
    requires AllWellFormed(items)
  {
    if items == [] then []
    else DispatchEffects(config, items[..|items| - 1]) + ItemEffects(config, items[|items| - 1])
  }

  /** One keyed item handed to `get`: its effects are those of ItemEffects, and a parse failure leaves none. */
  method Dispatch(connector: AicConnector, item: Item) returns (r: Result<(), DecodeError>)
    requires connector.Valid() && WellFormed(item.env) && item.streamKey.Some?
    modifies connector
    ensures r.Err? <==> item.env.parsed.Err?
    ensures r.Err? ==> r.error == item.env.parsed.error
    ensures connector.effects == old(connector.effects) + ItemEffects(connector.config, item)
  {
    r := connector.Get(item.env);
    if r.Err? {
      assert connector.effects + [] == connector.effects;
    }
  }

  /** The consume loop. The frame counter goes up for every keyed item, before
      the item reaches the connector. */
  method RunLoop(connector: AicConnector, items: seq<Item>) returns (frameCount: nat, outcome: Outcome)
    requires connector.Valid() && AllWellFormed(items)
    modifies connector
    ensures var taken := items[..Cut(items)];
      && frameCount == |Dispatched(taken)|
      && connector.effects == old(connector.effects) + DispatchEffects(connector.config, taken)
    ensures outcome == RunOutcome(items)
  {
    frameCount := 0;
    var i := 0;
    while i < |items|
      invariant i <= FirstHalt(items)
      invariant connector.Valid()
      invariant frameCount == |Dispatched(items[..i])|
      invariant connector.effects == old(connector.effects) + DispatchEffects(connector.config, items[..i])
    {
      var item := items[i];
      if item.stopSet {
        HaltsAt(items, i);
        return frameCount, Stopped;
      }
      ghost var done := DispatchEffects(connector.config, items[..i]);
      StepAt(connector.config, items, i);
      if item.streamKey.None? {
        assert ItemEffects(connector.config, item) == [];
        assert done + [] == done;
        PassesAt(items, i);
        i := i + 1;
        continue;
      }
      frameCount := frameCount + 1;
      var r := Dispatch(connector, item);
      if r.Err? {
        HaltsAt(items, i);
        assert ItemEffects(connector.config, item) == [];
        assert done + [] == done;
        return frameCount, Crashed(r.error);
      }
      PassesAt(items, i);
      AppendAssociative(old(connector.effects), done, ItemEffects(connector.config, item));
      i := i + 1;
    }
    assert items[..i] == items;
    outcome := Exhausted;
  }

  /** Extending the prefix by one item extends both traces by that item's part. */
  lemma StepAt(config: AicConnectorConfig, items: seq<Item>, i: nat)
    requires AllWellFormed(items) && i < |items|
    ensures Dispatched(items[..i + 1]) == Dispatched(items[..i]) + (if items[i].streamKey.Some? then [items[i].env] else [])
    ensures DispatchEffects(config, items[..i + 1]) == DispatchEffects(config, items[..i]) + ItemEffects(config, items[i])
  {
    assert items[..i + 1][..i] == items[..i];
  }

  /** The loop halts at the first item it does not get past. */
  lemma HaltsAt(items: seq<Item>, i: nat)
    requires i <= FirstHalt(items) && i < |items| && !Continues(items[i])
    ensures FirstHalt(items) == i
    ensures Cut(items) == if items[i].stopSet then i else i + 1
    ensures RunOutcome(items) == if items[i].stopSet then Stopped else Crashed(items[i].env.parsed.error)
  {
  }

  /** An item the loop gets past lies before the first halt. */
  lemma PassesAt(items: seq<Item>, i: nat)
    requires i <= FirstHalt(items) && i < |items| && Continues(items[i])
    ensures i + 1 <= FirstHalt(items)
  {
  }


  /** `run_stage`: build the connector from the configuration, subscribe to
      the stream keys and run the loop. */
  method RunStage(config: AicConnectorConfig, items: seq<Item>)
    returns (keys: seq<string>, frameCount: nat, outcome: Outcome, effects: seq<Effect>)
    requires AllWellFormed(items)
    ensures keys == StreamKeys(config.redisInput)
    ensures frameCount == |Dispatched(items[..Cut(items)])|
    ensures effects == DispatchEffects(config, items[..Cut(items)])
    ensures outcome == RunOutcome(items)
  {
    var connector := new AicConnector(config);
    keys := StreamKeys(config.redisInput);
    frameCount, outcome := RunLoop(connector, items);
    effects := connector.effects;
  }

  /** Once the stop flag is seen, neither that item nor any later one is taken. */
  lemma StopIgnoresLater(items: seq<Item>, j: nat)
    requires j < |items| && items[j].stopSet
    ensures Cut(items) <= j
  {
  }

  /** Without a stop signal or a parse failure, every item is taken and the loop ends with the stream. */
  lemma AllTakenWithoutHalt(items: seq<Item>)
    requires forall j :: 0 <= j < |items| ==> Continues(items[j])
    ensures Cut(items) == |items| && RunOutcome(items) == Exhausted
  {
  }

  /** A crash is the last thing the loop does: the failing message was handed
      to the connector (and counted) and its error is the outcome. */
  lemma CrashIsLastHanded(items: seq<Item>)
    requires RunOutcome(items).Crashed?
    ensures var taken := items[..Cut(items)];
      && |taken| > 0
      && var handed := Dispatched(taken);
      && |handed| > 0
      && handed[|handed| - 1].parsed == Err(RunOutcome(items).error)
  {
  }

  /** Inserting a well-formed item keeps every item well formed. */
  lemma WellFormedAround(before: seq<Item>, skipped: Item, after: seq<Item>)
    requires AllWellFormed(before + after) && WellFormed(skipped.env)
    ensures AllWellFormed(before + [skipped] + after)
  {
    var whole := before + [skipped] + after;
    forall i | 0 <= i < |whole| ensures WellFormed(whole[i].env) {
      if i < |before| { assert whole[i] == (before + after)[i]; }
      else if i > |before| { assert whole[i] == (before + after)[i - 1]; }
    }
  }

  lemma WellFormedPrefix(items: seq<Item>, n: nat)
    requires AllWellFormed(items) && n <= |items|
    ensures AllWellFormed(items[..n])
  {
  }

  /** An item without a key is never handed to the connector, so it is not counted. */
  lemma {:induction false} SkippedNotHanded(before: seq<Item>, skipped: Item, after: seq<Item>)
    requires skipped.streamKey.None?
    ensures Dispatched(before + [skipped] + after) == Dispatched(before + after)
  {
    if after == [] {
      assert (before + [skipped] + after)[..|before| + 1 - 1] == before;
      assert before + after == before;
    } else {
      var init := after[..|after| - 1];
      assert (before + [skipped] + after)[..|before| + |after|] == before + [skipped] + init;
      assert (before + after)[..|before| + |after| - 1] == before + init;
      SkippedNotHanded(before, skipped, init);
    }
  }

  lemma WellFormedSplit(a: seq<Item>, b: seq<Item>)
    requires AllWellFormed(a + b)
    ensures AllWellFormed(a) && AllWellFormed(b)
  {
    forall i | 0 <= i < |a| ensures WellFormed(a[i].env) {
      assert a[i] == (a + b)[i];
    }
    forall i | 0 <= i < |b| ensures WellFormed(b[i].env) {
      assert b[i] == (a + b)[|a| + i];
    }
  }

  /** The trace of a concatenation is the concatenation of the traces. */
  lemma {:induction false} DispatchAppend(config: AicConnectorConfig, a: seq<Item>, b: seq<Item>)
    requires AllWellFormed(a + b)
    ensures AllWellFormed(a) && AllWellFormed(b)
    ensures DispatchEffects(config, a + b) == DispatchEffects(config, a) + DispatchEffects(config, b)
  {
    WellFormedSplit(a, b);
    if b == [] {
      assert a + b == a;
    } else {
      var init := b[..|b| - 1];
      var last := b[|b| - 1];
      assert (a + b)[..|a + b| - 1] == a + init;
      assert (a + b)[|a + b| - 1] == last;
      WellFormedPrefix(a + b, |a + b| - 1);
      DispatchAppend(config, a, init);
      AppendAssociative(DispatchEffects(config, a), DispatchEffects(config, init), ItemEffects(config, last));
    }
  }

  /** An item without a key adds nothing to the trace. */
  lemma SkippedAddsNothing(config: AicConnectorConfig, before: seq<Item>, skipped: Item, after: seq<Item>)
    requires skipped.streamKey.None? && AllWellFormed(before + after) && WellFormed(skipped.env)
    ensures AllWellFormed(before + [skipped] + after)
    ensures DispatchEffects(config, before + [skipped] + after) == DispatchEffects(config, before + after)
  {
    WellFormedAround(before, skipped, after);
    DispatchAppend(config, before + [skipped], after);
    DispatchAppend(config, before, after);
    assert (before + [skipped])[..|before|] == before;
    assert DispatchEffects(config, before + [skipped]) == DispatchEffects(config, before) + ItemEffects(config, skipped);
  }
}
