/**
 * The emitter the entity collector hands its records to
 * (pivotal-import/pivotal_import.py, `get_mock_emitter` and the choice of
 * emitter in `main`). In a dry run it is a counter-based id allocator that
 * stamps every record with a made-up created entity; otherwise it is the
 * live creator, whose answers come from the target tracker and are a
 * parameter here.
 */
module Emitter {
  import opened Common
  import opened Values
  import Decimal

  /**
   * The live creator's answer to its `n`-th call with the given records:
   * the records it created, each with the entity created for it, or the
   * exception it raised.
   */
  type Backend = (nat, seq<EntityRecord>) -> Result<seq<(EntityRecord, Imported)>, string>

  /** The URL the dry run reports for the entity with id `id`. */
  function MockUrl(id: nat): string {
    "https://example.com/entity/" + Decimal.DecimalString(id)
  }

  /** The record after the dry run has made up its created entity. */
  function MockStamp(item: EntityRecord, id: nat): EntityRecord {
    item.(importedEntity := Some(Imported(id, item.kind, MockUrl(id), item.entity)))
  }

  /** The records stamped with consecutive ids from `base`. */
  function Stamped(items: seq<EntityRecord>, base: nat): (stamped: seq<EntityRecord>)
    ensures |stamped| == |items|
  {
    seq(|items|, i requires 0 <= i < |items| => MockStamp(items[i], base + i))
  }

  /** Index of the first record whose payload has no `name` (the dry run's `KeyError`), or the length. */
  function FirstNameless(items: seq<EntityRecord>): (k: nat)
    ensures k <= |items|
    ensures forall i :: 0 <= i < k ==> "name" in items[i].entity
    ensures k < |items| ==> "name" !in items[k].entity
  {
    if items == [] then 0
    else if "name" !in items[0].entity then 0
    else 1 + FirstNameless(items[1..])
  }

  /** The live answer written back into the records it names. */
  function Attach(created: seq<(EntityRecord, Imported)>): (records: seq<EntityRecord>)
    ensures |records| == |created|
  {
    seq(|created|, i requires 0 <= i < |created| => created[i].0.(importedEntity := Some(created[i].1)))
  }

  /**
   * A dry-run stamp keeps the record and adds the payload plus `id`,
   * `entity_type` and `app_url`; stamps from one base carry consecutive
   * ids, so their ledger rows are pairwise distinct.
   */
  lemma StampedIds(items: seq<EntityRecord>, base: nat)
    ensures AllImported(Stamped(items, base))
    ensures forall i :: 0 <= i < |items| ==>
      && Stamped(items, base)[i].(importedEntity := items[i].importedEntity) == items[i]
      && Stamped(items, base)[i].importedEntity.value == Imported(base + i, items[i].kind, MockUrl(base + i), items[i].entity)
    ensures forall i, j :: 0 <= i < j < |items| ==>
      LedgerRowOf(Stamped(items, base)[i].importedEntity.value) != LedgerRowOf(Stamped(items, base)[j].importedEntity.value)
  {
    var s := Stamped(items, base);
    forall i, j | 0 <= i < j < |items|
      ensures LedgerRowOf(s[i].importedEntity.value) != LedgerRowOf(s[j].importedEntity.value)
    {
      if LedgerRowOf(s[i].importedEntity.value) == LedgerRowOf(s[j].importedEntity.value) {
        LedgerRowOfInjective(s[i].importedEntity.value, s[j].importedEntity.value);
      }
    }
  }

  /**
   * What the emitter answers for `items` when its counter stands at
   * `nextId` and the live creator has been called `calls` times: the dry
   * run's stamped records or its `KeyError`, or the live answer attached.
   */
  function Outcome(dryRun: bool, backend: Backend, nextId: nat, calls: nat, items: seq<EntityRecord>): (r: Result<seq<EntityRecord>, string>)
    ensures dryRun ==> (r.Success? <==> FirstNameless(items) == |items|)
    ensures !dryRun ==> (r.Success? <==> backend(calls, items).Success?)
    ensures r.Success? ==> AllImported(r.value) && |r.value| == (if dryRun then |items| else |backend(calls, items).value|)
  {
    if dryRun then
      if FirstNameless(items) == |items| then StampedIds(items, nextId); Success(Stamped(items, nextId))
      else Failure("KeyError: 'name'")
    else
      var answer := backend(calls, items);
      if answer.Success? then Success(Attach(answer.value)) else Failure(answer.error)
  }

  /**
   * The dry run's counter after `emitter(items)`: one id per record, up to
   * and including the first record without a `name`. The live creator
   * leaves it alone.
   */
  function NextIdAfter(dryRun: bool, nextId: nat, items: seq<EntityRecord>): nat {
    if !dryRun then nextId
    else if FirstNameless(items) == |items| then nextId + |items|
    else nextId + FirstNameless(items) + 1
  }

  /** The number of calls made to the live creator after one more `emitter(items)`. */
  function CallsAfter(dryRun: bool, calls: nat): nat {
    if dryRun then calls else calls + 1
  }

  /** The emitter: a dry-run id allocator or the live creator. */
  class Emitter {
    /** Whether this is the dry-run emitter. */
    const dryRun: bool
    /** The live creator's answers. */
    const backend: Backend
    /** The dry run's next id (`_mock_global_id`). */
    var nextId: nat
    /** Number of calls made to the live creator. */
    var calls: nat

    constructor(dryRun: bool, backend: Backend)
      ensures this.dryRun == dryRun && this.backend == backend
      ensures nextId == 0 && calls == 0
    {
      this.dryRun := dryRun;
      this.backend := backend;
      nextId := 0;
      calls := 0;
    }

    /**
     * `emitter(items)`. The dry run stamps the records in order with the
     * ids `nextId`, `nextId + 1`, … and returns them; reaching a record
     * without a `name` raises after that record has used up its id. The
     * live creator is called once and its answer attached.
     */
    method Emit(items: seq<EntityRecord>) returns (r: Result<seq<EntityRecord>, string>)
      modifies this
      ensures dryRun ==> calls == old(calls)
      ensures dryRun ==> (r.Success? <==> FirstNameless(items) == |items|)
      ensures dryRun && r.Success? ==> r.value == Stamped(items, old(nextId)) && nextId == old(nextId) + |items|
      ensures dryRun && r.Failure? ==> nextId == old(nextId) + FirstNameless(items) + 1
      ensures !dryRun ==> nextId == old(nextId) && calls == old(calls) + 1
      ensures !dryRun ==> r == (var answer := backend(old(calls), items);
        if answer.Success? then Success(Attach(answer.value)) else Failure(answer.error))
      ensures r.Success? ==> AllImported(r.value)
      ensures r == Outcome(dryRun, backend, old(nextId), old(calls), items)
      ensures nextId == NextIdAfter(dryRun, old(nextId), items) && calls == CallsAfter(dryRun, old(calls))
    {
      if !dryRun {
        var answer := backend(calls, items);
        calls := calls + 1;
        if answer.Failure? {
          return Failure(answer.error);
        }
        return Success(Attach(answer.value));
      }
      r := MockEmit(items);
    }

    /** The dry-run emitter's loop. */
    method MockEmit(items: seq<EntityRecord>) returns (r: Result<seq<EntityRecord>, string>)
      modifies this
      ensures calls == old(calls)
      ensures r.Success? <==> FirstNameless(items) == |items|
      ensures r.Success? ==> r.value == Stamped(items, old(nextId)) && nextId == old(nextId) + |items|
      ensures r.Failure? ==> nextId == old(nextId) + FirstNameless(items) + 1
      ensures r.Success? ==> AllImported(r.value)
      ensures r == Outcome(true, backend, old(nextId), old(calls), items)
    {
      var stamped: seq<EntityRecord> := [];
      for i := 0 to |items|
        invariant nextId == old(nextId) + i && calls == old(calls)
        invariant i <= FirstNameless(items)
        invariant stamped == Stamped(items[..i], old(nextId))
      {
        var id := nextId;
        nextId := nextId + 1;
        stamped := stamped + [MockStamp(items[i], id)];
        if "name" !in items[i].entity {
          return Failure("KeyError: 'name'");
        }
      }
      assert items[..|items|] == items;
      StampedIds(items, old(nextId));
      r := Success(stamped);
    }
  }
}
