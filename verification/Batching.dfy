/** The batcher: entities are buffered and closed into batches by size, by time, or at the end of a scrape. */
module Batching {
  import opened Types

  datatype Limits = Limits(maxEntities: int, maxInterval: real)

  datatype Buffer = Buffer(items: seq<Item>, connectorType: Option<string>, startedAt: Option<real>)

  const EmptyBuffer := Buffer([], None, None)

  /** The buffer afterwards and the batch closed by the call, if any. */
  datatype Step = Step(buffer: Buffer, closed: Option<Batch>)

  function CloseStep(buffer: Buffer, id: string): Step {
    Step(EmptyBuffer, Some(Batch(id, if buffer.connectorType.Some? then buffer.connectorType.value else "", buffer.items)))
  }

  /** None models the ValueError raised when a second connector type arrives. */
  function AddStep(limits: Limits, buffer: Buffer, connectorType: string, item: Item, now: real, id: string): Option<Step>
  {
    if buffer.connectorType.Some? && buffer.connectorType.value != connectorType then None
    else
      var first := buffer.connectorType.None?;
      var buffer' := Buffer(buffer.items + [item], Some(connectorType), if first then Some(now) else buffer.startedAt);
      Some(if |buffer'.items| >= limits.maxEntities then CloseStep(buffer', id) else Step(buffer', None))
  }

  predicate Due(limits: Limits, buffer: Buffer, now: real) {
    buffer.items != [] && buffer.startedAt.Some? && now - buffer.startedAt.value >= limits.maxInterval
  }

  function PollStep(limits: Limits, buffer: Buffer, now: real, id: string): Step {
    if Due(limits, buffer, now) then CloseStep(buffer, id) else Step(buffer, None)
  }

  function FlushStep(buffer: Buffer, id: string): Step {
    if buffer.items == [] then Step(buffer, None) else CloseStep(buffer, id)
  }

  /** Empty, untyped and unstarted go together, and the buffer stays below the size limit. */
  predicate Consistent(limits: Limits, buffer: Buffer) {
    && (buffer.items == [] <==> buffer.connectorType.None?)
    && (buffer.items == [] <==> buffer.startedAt.None?)
    && (buffer.items != [] ==> |buffer.items| < limits.maxEntities)
  }

  function MaxSize(limits: Limits): int {
    if limits.maxEntities < 1 then 1 else limits.maxEntities
  }

  predicate GoodBatch(limits: Limits, b: Batch, connectorType: string) {
    1 <= |b.entities| <= MaxSize(limits) && b.connectorType == connectorType
  }

  /** One entity, for any clock readings: the invariant is kept, a closed batch is within the size limit and of
      one connector type, no entity is lost, repeated or reordered between batch and buffer, and no batch is closed
      before it is full or the interval has passed since its first entity's reading. */
  lemma AddThenPoll(limits: Limits, buffer: Buffer, connectorType: string, item: Item, now: real, later: real,
      id1: string, id2: string)
    requires Consistent(limits, buffer) && (buffer.connectorType.Some? ==> buffer.connectorType.value == connectorType)
    ensures AddStep(limits, buffer, connectorType, item, now, id1).Some?
    ensures var added := AddStep(limits, buffer, connectorType, item, now, id1).value;
            var polled := PollStep(limits, added.buffer, later, id2);
            && Consistent(limits, added.buffer) && Consistent(limits, polled.buffer)
            && !(added.closed.Some? && polled.closed.Some?)
            && (added.closed.Some? ==> GoodBatch(limits, added.closed.value, connectorType))
            && (polled.closed.Some? ==> GoodBatch(limits, polled.closed.value, connectorType))
            && (polled.buffer.items != [] ==>
                  |polled.buffer.items| < limits.maxEntities && later - polled.buffer.startedAt.value < limits.maxInterval)
            && EntitiesOf(added.closed) + EntitiesOf(polled.closed) + polled.buffer.items == buffer.items + [item]
    ensures var added := AddStep(limits, buffer, connectorType, item, now, id1).value;
            var polled := PollStep(limits, added.buffer, later, id2);
            var since := if buffer.items == [] then now else buffer.startedAt.value;
            && (added.closed.Some? ==> |added.closed.value.entities| == MaxSize(limits))
            && (polled.closed.Some? ==> later - since >= limits.maxInterval)
            && (polled.buffer.items != [] ==> polled.buffer.startedAt == Some(since))
  {
  }

  function EntitiesOf(b: Option<Batch>): seq<Item> {
    match b
    case None => []
    case Some(batch) => batch.entities
  }

  /** One batcher per source and scrape. Clock readings and the fresh id are passed in. */
  class Batcher {
    const limits: Limits
    var buffer: seq<Item>
    var connectorType: Option<string>
    var batchStartedAt: Option<real>

    function Value(): Buffer
      reads this
    {
      Buffer(buffer, connectorType, batchStartedAt)
    }

    constructor (limits: Limits)
      ensures this.limits == limits && Value() == EmptyBuffer && Consistent(limits, Value())
    {
      this.limits := limits;
      buffer, connectorType, batchStartedAt := [], None, None;
    }

    method Add(entityType: string, entity: Item, now: real, id: string) returns (raised: bool, full: Option<Batch>)
      modifies this
      ensures raised <==> AddStep(limits, old(Value()), entityType, entity, now, id).None?
      ensures raised ==> Value() == old(Value()) && full == None
      ensures !raised ==> AddStep(limits, old(Value()), entityType, entity, now, id) == Some(Step(Value(), full))
      ensures old(Consistent(limits, Value())) ==> Consistent(limits, Value())
    {
      raised, full := false, None;
      if connectorType.None? {
        connectorType, batchStartedAt := Some(entityType), Some(now);
      } else if connectorType.value != entityType {
        raised := true;
        return;
      }
      buffer := buffer + [entity];
      if |buffer| >= limits.maxEntities {
        full := CloseBatch(id);
      }
    }

    method MaybeFlushOnInterval(now: real, id: string) returns (full: Option<Batch>)
      modifies this
      ensures Step(Value(), full) == PollStep(limits, old(Value()), now, id)
      ensures old(Consistent(limits, Value())) ==> Consistent(limits, Value())
    {
      full := None;
      if buffer != [] && batchStartedAt.Some? && now - batchStartedAt.value >= limits.maxInterval {
        full := CloseBatch(id);
      }
    }

    method Flush(id: string) returns (last: Option<Batch>)
      modifies this
      ensures Step(Value(), last) == FlushStep(old(Value()), id)
      ensures Value().items == []
    {
      last := None;
      if buffer != [] {
        last := CloseBatch(id);
      }
    }

    method CloseBatch(id: string) returns (batch: Option<Batch>)
      modifies this
      ensures Step(Value(), batch) == CloseStep(old(Value()), id)
    {
      batch := Some(Batch(id, if connectorType.Some? then connectorType.value else "", buffer));
      buffer, connectorType, batchStartedAt := [], None, None;
    }
  }
}
