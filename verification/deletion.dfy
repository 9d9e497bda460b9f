/**
 * The cleanup tool that deletes what an import created
 * (pivotal-import/delete_imported_entities.py): it reads the ledger of
 * imported entities, deduplicates its rows, deletes them in reverse
 * dependency order, and drops from the ledger exactly the rows it deleted.
 */
module Deletion {
  import opened Common
  import opened Values

  /** The answer to one delete request. */
  datatype DeleteResponse =
    | Status(code: int)                 // the request returned with this status
    | HttpError(code: int)              // the request raised an HTTP error carrying a response with this status
    | HttpErrorWithoutResponse          // the request raised an HTTP error that carries no response
    | RequestFailed                     // the request raised a transport error
    | OtherError                        // the request raised anything else

  /** The API path prefix of each entity type that can be deleted. */
  function Prefix(kind: string): Option<string> {
    if kind == "story" then Some("/stories/")
    else if kind == "epic" then Some("/epics/")
    else if kind == "file" then Some("/files/")
    else if kind == "iteration" then Some("/iterations/")
    else if kind == "label" then Some("/labels/")
    else None
  }

  /** The types the tool knows how to delete. */
  predicate KnownType(kind: string) {
    kind in {"story", "epic", "file", "iteration", "label"}
  }

  /** Why a deletion run stops early: reading the status of an HTTP error that has no response. */
  datatype Abort = NoResponseOnHttpError

  /**
   * `delete_entity`: whether the entity counts as deleted. `delete` answers
   * the request for an API path. A 204 or an HTTP 404 (already gone) is a
   * success; any other status or exception is a failure; an unknown type is
   * a failure without any request. An HTTP error without a response raises
   * out of the function.
   */
  function DeleteEntity(kind: string, id: string, delete: string -> DeleteResponse): Result<bool, Abort> {
    match Prefix(kind)
    case None => Success(false)
    case Some(prefix) =>
      match delete(prefix + id)
      case Status(code) => Success(code == 204)
      case HttpError(code) => Success(code == 404)
      case HttpErrorWithoutResponse => Failure(NoResponseOnHttpError)
      case RequestFailed => Success(false)
      case OtherError => Success(false)
  }

  /**
   * For a known type exactly one request is sent, to the type's prefix
   * followed by the id; the entity counts as deleted exactly on a 204 or an
   * HTTP 404, and the run stops exactly on an HTTP error without a response.
   */
  lemma DeleteEntityMeaning(kind: string, id: string, delete: string -> DeleteResponse)
    ensures !KnownType(kind) ==> DeleteEntity(kind, id, delete) == Success(false)
    ensures KnownType(kind) ==> Prefix(kind).Some?
    ensures KnownType(kind) ==>
      var response := delete(Prefix(kind).value + id);
      var r := DeleteEntity(kind, id, delete);
      && (r.Failure? <==> response.HttpErrorWithoutResponse?)
      && (r == Success(true) <==> (response == Status(204) || response == HttpError(404)))
  {
  }

  /** An unknown type is never sent: the answer for its path does not matter. */
  lemma UnknownTypeSendsNothing(kind: string, id: string, d1: string -> DeleteResponse, d2: string -> DeleteResponse)
    requires !KnownType(kind)
    ensures DeleteEntity(kind, id, d1) == DeleteEntity(kind, id, d2) == Success(false)
  {
  }

  /** The deletion rank of a type: files first, labels last, unknown types before all. */
  function Rank(kind: string): (rank: nat)
    ensures rank <= 5
    ensures rank == 0 <==> !KnownType(kind)
  {
    if kind == "file" then 1
    else if kind == "story" then 2
    else if kind == "iteration" then 3
    else if kind == "epic" then 4
    else if kind == "label" then 5
    else 0
  }

  /** A sequence whose ranks never decrease. */
  predicate RankSorted(s: seq<LedgerRow>) {
    forall i, j :: 0 <= i < j < |s| ==> Rank(s[i].kind) <= Rank(s[j].kind)
  }

  /** The distinct rows of the ledger. */
  function Distinct(ledger: seq<LedgerRow>): (entities: set<LedgerRow>)
    ensures forall x :: x in entities <==> x in ledger
  {
    set x | x in ledger
  }

  /**
   * `sorted(entities, key=rank)` over a set: every row exactly once, ranks
   * non-decreasing; rows of the same rank come in the set's own (unspecified)
   * order, which the model leaves open.
   */
  method SortByRank(entities: set<LedgerRow>) returns (sorted: seq<LedgerRow>)
    ensures NoDuplicates(sorted)
    ensures forall x :: x in sorted <==> x in entities
    ensures RankSorted(sorted)
  {
    sorted := [];
    for rank := 0 to 6
      invariant NoDuplicates(sorted) && RankSorted(sorted)
      invariant forall x :: x in sorted <==> x in entities && Rank(x.kind) < rank
      invariant forall i :: 0 <= i < |sorted| ==> Rank(sorted[i].kind) < rank
    {
      sorted := AppendRank(sorted, entities, rank);
    }
  }

  /** Appends the rows of one rank, in any order, after the rows of all lower ranks. */
  method AppendRank(sorted: seq<LedgerRow>, entities: set<LedgerRow>, rank: nat) returns (sorted': seq<LedgerRow>)
    requires NoDuplicates(sorted) && RankSorted(sorted)
    requires forall x :: x in sorted <==> x in entities && Rank(x.kind) < rank
    requires forall i :: 0 <= i < |sorted| ==> Rank(sorted[i].kind) < rank
    ensures NoDuplicates(sorted') && RankSorted(sorted')
    ensures forall x :: x in sorted' <==> x in entities && Rank(x.kind) <= rank
    ensures forall i :: 0 <= i < |sorted'| ==> Rank(sorted'[i].kind) <= rank
  {
    sorted' := sorted;
    var remaining := set x | x in entities && Rank(x.kind) == rank;
    while remaining != {}
      invariant NoDuplicates(sorted') && RankSorted(sorted')
      invariant forall x :: x in sorted' <==> x in entities && Rank(x.kind) <= rank && x !in remaining
      invariant forall x :: x in remaining ==> x in entities && Rank(x.kind) == rank
      invariant forall i :: 0 <= i < |sorted'| ==> Rank(sorted'[i].kind) <= rank
      decreases |remaining|
    {
      var x :| x in remaining;
      sorted' := sorted' + [x];
      remaining := remaining - {x};
    }
  }

  /** Number of rows of the given type. */
  function CountOfType(rows: seq<LedgerRow>, kind: string): nat {
    if rows == [] then 0
    else CountOfType(rows[..|rows| - 1], kind) + (if rows[|rows| - 1].kind == kind then 1 else 0)
  }

  /** A type is counted at least once exactly when some row has it. */
  lemma {:induction false} CountOfTypePositive(rows: seq<LedgerRow>, kind: string)
    ensures CountOfType(rows, kind) > 0 <==> exists i :: 0 <= i < |rows| && rows[i].kind == kind
  {
    if rows != [] {
      var init := rows[..|rows| - 1];
      CountOfTypePositive(init, kind);
      if exists i :: 0 <= i < |rows| && rows[i].kind == kind {
        var i :| 0 <= i < |rows| && rows[i].kind == kind;
        if i < |init| {
          assert init[i] == rows[i];
        }
      }
      if exists i :: 0 <= i < |init| && init[i].kind == kind {
        var i :| 0 <= i < |init| && init[i].kind == kind;
        assert rows[i] == init[i];
      }
    }
  }

  /** The rows of one type, as a set. */
  function RowsOfType(rows: seq<LedgerRow>, kind: string): set<LedgerRow> {
    set x | x in rows && x.kind == kind
  }

  /** Over rows without repetition, the count of a type is the number of distinct rows of that type. */
  lemma {:induction false} CountOfTypeDistinct(rows: seq<LedgerRow>, kind: string)
    requires NoDuplicates(rows)
    ensures CountOfType(rows, kind) == |RowsOfType(rows, kind)|
  {
    if rows != [] {
      var init := rows[..|rows| - 1];
      var last := rows[|rows| - 1];
      assert rows == init + [last];
      assert NoDuplicates(init) by {
        forall i, j | 0 <= i < j < |init| ensures init[i] != init[j] {
          assert init[i] == rows[i] && init[j] == rows[j];
        }
      }
      CountOfTypeDistinct(init, kind);
      assert last !in init by {
        forall i | 0 <= i < |init| ensures init[i] != last {
          assert init[i] == rows[i];
        }
      }
      if last.kind == kind {
        assert RowsOfType(rows, kind) == RowsOfType(init, kind) + {last};
      } else {
        assert RowsOfType(rows, kind) == RowsOfType(init, kind);
      }
    }
  }

  /** `counter[kind] += 1` on a `Counter`. */
  function Increment(counts: map<string, nat>, kind: string): map<string, nat> {
    counts[kind := if kind in counts then counts[kind] + 1 else 1]
  }

  /** `Counter(t for t, _ in rows)`, built as the source builds it: one increment per row. */
  function TypeCounts(rows: seq<LedgerRow>): map<string, nat> {
    if rows == [] then map[]
    else Increment(TypeCounts(rows[..|rows| - 1]), rows[|rows| - 1].kind)
  }

  /** The counter holds exactly the types present, each with its number of rows. */
  lemma {:induction false} TypeCountsMeaning(rows: seq<LedgerRow>, kind: string)
    ensures kind in TypeCounts(rows) <==> CountOfType(rows, kind) > 0
    ensures kind in TypeCounts(rows) ==> TypeCounts(rows)[kind] == CountOfType(rows, kind)
  {
    if rows != [] {
      TypeCountsMeaning(rows[..|rows| - 1], kind);
    }
  }

  /**
   * The dry-run report: over a repetition-free enumeration of the ledger's
   * rows, each type present is counted once per distinct row of that type.
   */
  lemma DistinctTypeCounts(ledger: seq<LedgerRow>, order: seq<LedgerRow>, kind: string)
    requires NoDuplicates(order) && forall x :: x in order <==> x in ledger
    requires kind in TypeCounts(order)
    ensures TypeCounts(order)[kind] == |RowsOfType(ledger, kind)| > 0
  {
    TypeCountsMeaning(order, kind);
    CountOfTypeDistinct(order, kind);
    CountOfTypePositive(order, kind);
    assert RowsOfType(order, kind) == RowsOfType(ledger, kind);
  }

  /** The ledger rows outside `deleted`, in order. */
  function Remaining(ledger: seq<LedgerRow>, deleted: set<LedgerRow>): seq<LedgerRow> {
    if ledger == [] then []
    else Remaining(ledger[..|ledger| - 1], deleted) + (if ledger[|ledger| - 1] in deleted then [] else [ledger[|ledger| - 1]])
  }

  /** A row stays in the ledger exactly when it was not deleted. */
  lemma {:induction false} RemainingMembers(ledger: seq<LedgerRow>, deleted: set<LedgerRow>)
    ensures forall x :: x in Remaining(ledger, deleted) <==> x in ledger && x !in deleted
  {
    if ledger != [] {
      RemainingMembers(ledger[..|ledger| - 1], deleted);
      assert ledger == ledger[..|ledger| - 1] + [ledger[|ledger| - 1]];
    }
  }

  /** Without any deletion the ledger is rewritten as it was. */
  lemma {:induction false} RemainingNothingDeleted(ledger: seq<LedgerRow>, deleted: set<LedgerRow>)
    requires forall x :: x in ledger ==> x !in deleted
    ensures Remaining(ledger, deleted) == ledger
  {
    if ledger != [] {
      RemainingNothingDeleted(ledger[..|ledger| - 1], deleted);
      assert ledger == ledger[..|ledger| - 1] + [ledger[|ledger| - 1]];
    }
  }

  /** `update_csv_after_deletion`: the ledger rows not deleted, in their order; nothing happens for no deletion. */
  method UpdateCsvAfterDeletion(ledger: seq<LedgerRow>, deleted: set<LedgerRow>) returns (remaining: seq<LedgerRow>)
    ensures deleted == {} ==> remaining == ledger
    ensures remaining == Remaining(ledger, deleted)
  {
    if deleted == {} {
      RemainingNothingDeleted(ledger, deleted);
      return ledger;
    }
    remaining := [];
    for i := 0 to |ledger|
      invariant remaining == Remaining(ledger[..i], deleted)
    {
      assert ledger[..i + 1][..i] == ledger[..i];
      if ledger[i] !in deleted {
        remaining := remaining + [ledger[i]];
      }
    }
    assert ledger[..|ledger|] == ledger;
  }

  /** The attempted rows whose deletion succeeded, in attempt order. */
  function SucceededInOrder(attempts: seq<LedgerRow>, outcomes: seq<bool>): seq<LedgerRow>
    requires |outcomes| == |attempts|
  {
    if attempts == [] then []
    else
      var n := |attempts| - 1;
      SucceededInOrder(attempts[..n], outcomes[..n]) + (if outcomes[n] then [attempts[n]] else [])
  }

  /** A row is among the successes exactly when one of its attempts succeeded. */
  lemma {:induction false} SucceededInOrderMembers(attempts: seq<LedgerRow>, outcomes: seq<bool>)
    requires |outcomes| == |attempts|
    ensures forall x :: x in SucceededInOrder(attempts, outcomes) <==>
      exists i :: 0 <= i < |attempts| && attempts[i] == x && outcomes[i]
  {
    if attempts != [] {
      var n := |attempts| - 1;
      SucceededInOrderMembers(attempts[..n], outcomes[..n]);
      forall x ensures x in SucceededInOrder(attempts, outcomes) <==>
        exists i :: 0 <= i < |attempts| && attempts[i] == x && outcomes[i]
      {
        if exists i :: 0 <= i < |attempts| && attempts[i] == x && outcomes[i] {
          var i :| 0 <= i < |attempts| && attempts[i] == x && outcomes[i];
          if i < n {
            assert attempts[..n][i] == x && outcomes[..n][i];
          }
        }
        if exists i :: 0 <= i < n && attempts[..n][i] == x && outcomes[..n][i] {
          var i :| 0 <= i < n && attempts[..n][i] == x && outcomes[..n][i];
          assert attempts[i] == x && outcomes[i];
        }
      }
    }
  }

  /** Successes of distinct attempts are distinct. */
  lemma {:induction false} SucceededInOrderNoDuplicates(attempts: seq<LedgerRow>, outcomes: seq<bool>)
    requires |outcomes| == |attempts| && NoDuplicates(attempts)
    ensures NoDuplicates(SucceededInOrder(attempts, outcomes))
  {
    if attempts != [] {
      var n := |attempts| - 1;
      assert NoDuplicates(attempts[..n]) by {
        forall i, j | 0 <= i < j < n ensures attempts[..n][i] != attempts[..n][j] {
          assert attempts[..n][i] == attempts[i] && attempts[..n][j] == attempts[j];
        }
      }
      SucceededInOrderNoDuplicates(attempts[..n], outcomes[..n]);
      SucceededInOrderMembers(attempts[..n], outcomes[..n]);
      var prev := SucceededInOrder(attempts[..n], outcomes[..n]);
      forall i | 0 <= i < n
        ensures attempts[..n][i] != attempts[n]
      {
        assert attempts[..n][i] == attempts[i];
      }
      assert attempts[n] !in prev;
    }
  }

  /** One more attempt adds its row to the successes exactly when it succeeded. */
  lemma SucceededInOrderAppend(attempts: seq<LedgerRow>, outcomes: seq<bool>, x: LedgerRow, ok: bool)
    requires |outcomes| == |attempts|
    ensures SucceededInOrder(attempts + [x], outcomes + [ok]) == SucceededInOrder(attempts, outcomes) + (if ok then [x] else [])
  {
    assert (attempts + [x])[..|attempts|] == attempts;
    assert (outcomes + [ok])[..|outcomes|] == outcomes;
  }

  /** Counting one more row is one more increment of its type. */
  lemma TypeCountsAppend(rows: seq<LedgerRow>, x: LedgerRow)
    ensures TypeCounts(rows + [x]) == Increment(TypeCounts(rows), x.kind)
  {
    assert (rows + [x])[..|rows|] == rows;
  }

  /** When every row was tried, the successes are exactly the rows whose deletion succeeded. */
  lemma SucceededMeaning(sorted: seq<LedgerRow>, outcomes: seq<bool>, delete: string -> DeleteResponse)
    requires |outcomes| == |sorted|
    requires forall i :: 0 <= i < |sorted| ==> DeleteEntity(sorted[i].kind, sorted[i].id, delete) == Success(outcomes[i])
    ensures forall x :: x in SucceededInOrder(sorted, outcomes) <==> x in sorted && DeleteEntity(x.kind, x.id, delete) == Success(true)
  {
    SucceededInOrderMembers(sorted, outcomes);
    forall x | x in sorted && DeleteEntity(x.kind, x.id, delete) == Success(true)
      ensures x in SucceededInOrder(sorted, outcomes)
    {
      var i :| 0 <= i < |sorted| && sorted[i] == x;
    }
  }

  /** One more row tried: its answer joins the log, and a success joins the successes and the count. */
  lemma DeleteLoopStep(sorted: seq<LedgerRow>, delete: string -> DeleteResponse, i: nat, outcomes: seq<bool>, successes: seq<LedgerRow>, ok: bool)
    requires i < |sorted| && |outcomes| == i
    requires forall j :: 0 <= j < i ==> DeleteEntity(sorted[j].kind, sorted[j].id, delete) == Success(outcomes[j])
    requires DeleteEntity(sorted[i].kind, sorted[i].id, delete) == Success(ok)
    requires successes == SucceededInOrder(sorted[..i], outcomes)
    ensures forall j :: 0 <= j < i + 1 ==> DeleteEntity(sorted[j].kind, sorted[j].id, delete) == Success((outcomes + [ok])[j])
    ensures SucceededInOrder(sorted[..i + 1], outcomes + [ok]) == successes + (if ok then [sorted[i]] else [])
    ensures TypeCounts(successes + [sorted[i]]) == Increment(TypeCounts(successes), sorted[i].kind)
  {
    assert sorted[..i + 1] == sorted[..i] + [sorted[i]];
    SucceededInOrderAppend(sorted[..i], outcomes, sorted[i], ok);
    TypeCountsAppend(successes, sorted[i]);
  }

  /**
   * The `--apply` loop of `main`: tries each row in order, counts and
   * records the successes, and stops at an HTTP error without a response.
   * `outcomes` logs the answers of the rows tried.
   */
  method DeleteInOrder(sorted: seq<LedgerRow>, delete: string -> DeleteResponse)
    returns (r: Result<(map<string, nat>, set<LedgerRow>), Abort>, ghost outcomes: seq<bool>)
    ensures |outcomes| <= |sorted|
    ensures forall i :: 0 <= i < |outcomes| ==> DeleteEntity(sorted[i].kind, sorted[i].id, delete) == Success(outcomes[i])
    ensures r.Failure? <==> |outcomes| < |sorted|
    ensures r.Failure? ==> DeleteEntity(sorted[|outcomes|].kind, sorted[|outcomes|].id, delete).Failure?
    ensures r.Success? ==>
      && r.value.0 == TypeCounts(SucceededInOrder(sorted, outcomes))
      && forall x :: x in r.value.1 <==> x in SucceededInOrder(sorted, outcomes)
    ensures r.Success? <==> forall i :: 0 <= i < |sorted| ==> DeleteEntity(sorted[i].kind, sorted[i].id, delete).Success?
    ensures r.Success? ==> forall x :: x in r.value.1 <==> x in sorted && DeleteEntity(x.kind, x.id, delete) == Success(true)
  {
    var counts: map<string, nat> := map[];
    var deleted: set<LedgerRow> := {};
    ghost var successes: seq<LedgerRow> := [];
    outcomes := [];
    for i := 0 to |sorted|
      invariant |outcomes| == i
      invariant forall j :: 0 <= j < i ==> DeleteEntity(sorted[j].kind, sorted[j].id, delete) == Success(outcomes[j])
      invariant successes == SucceededInOrder(sorted[..i], outcomes)
      invariant counts == TypeCounts(successes)
      invariant forall x :: x in deleted <==> x in successes
    {
      var entity := sorted[i];
      var ok := DeleteEntity(entity.kind, entity.id, delete);
      if ok.Failure? {
        return Failure(ok.error), outcomes;
      }
      DeleteLoopStep(sorted, delete, i, outcomes, successes, ok.value);
      if ok.value {
        counts := Increment(counts, entity.kind);
        deleted := deleted + {entity};
        successes := successes + [entity];
      }
      outcomes := outcomes + [ok.value];
    }
    assert sorted[..|sorted|] == sorted;
    SucceededMeaning(sorted, outcomes, delete);
    r := Success((counts, deleted));
  }

  /** What a deletion run reports and leaves behind. */
  datatype RunResult = RunResult(counts: map<string, nat>, deleted: set<LedgerRow>, ledger: seq<LedgerRow>)

  /**
   * The body of `main`: deduplicate the ledger and order it by rank
   * (`order`), then either (with `apply`) try to delete each row once,
   * count and record the successes and rewrite the ledger without them, or
   * (dry run) report per type what would be deleted. An HTTP error without
   * a response stops the run before the ledger is rewritten. `outcomes`
   * logs the answers to the delete calls, made for a prefix of `order`.
   */
  method RunDeletion(ledger: seq<LedgerRow>, apply: bool, delete: string -> DeleteResponse)
    returns (r: Result<RunResult, Abort>, ghost order: seq<LedgerRow>, ghost outcomes: seq<bool>)
    ensures NoDuplicates(order) && RankSorted(order)
    ensures forall x :: x in order <==> x in ledger
    ensures |outcomes| <= |order|
    ensures forall i :: 0 <= i < |outcomes| ==> DeleteEntity(order[i].kind, order[i].id, delete) == Success(outcomes[i])
    ensures r.Failure? <==> apply && |outcomes| < |order|
    ensures r.Failure? ==> DeleteEntity(order[|outcomes|].kind, order[|outcomes|].id, delete).Failure?
    ensures !apply ==> r == Success(RunResult(TypeCounts(order), {}, ledger)) && outcomes == []
    ensures apply && r.Success? ==>
      var successes := SucceededInOrder(order, outcomes);
      && r.value.counts == TypeCounts(successes)
      && (forall x :: x in r.value.deleted <==> x in successes)
      && r.value.ledger == Remaining(ledger, r.value.deleted)
    ensures r.Failure? ==> apply
    ensures apply ==> (r.Success? <==> forall x :: x in ledger ==> DeleteEntity(x.kind, x.id, delete).Success?)
    ensures !apply ==> r.Success? && r.value.deleted == {} && r.value.ledger == ledger
    ensures !apply ==> forall k :: k in r.value.counts ==> r.value.counts[k] == |set x | x in ledger && x.kind == k|
    ensures apply && r.Success? ==>
      && (forall x :: x in r.value.deleted <==> x in ledger && DeleteEntity(x.kind, x.id, delete) == Success(true))
      && (forall x :: x in r.value.ledger <==> x in ledger && x !in r.value.deleted)
      && (forall k :: k in r.value.counts ==> r.value.counts[k] == |set x | x in r.value.deleted && x.kind == k|)
  {
    var entities := Distinct(ledger);
    var sorted := SortByRank(entities);
    order := sorted;
    if !apply {
      var preDelete := TypeCounts(sorted);
      forall k | k in preDelete
        ensures preDelete[k] == |set x | x in ledger && x.kind == k|
      {
        DistinctTypeCounts(ledger, sorted, k);
      }
      return Success(RunResult(preDelete, {}, ledger)), order, [];
    }
    var result;
    result, outcomes := DeleteInOrder(sorted, delete);
    if result.Failure? {
      var i :| 0 <= i < |sorted| && !DeleteEntity(sorted[i].kind, sorted[i].id, delete).Success?;
      assert sorted[i] in ledger;
      return Failure(result.error), order, outcomes;
    }
    var (counts, deleted) := result.value;
    var remaining := UpdateCsvAfterDeletion(ledger, deleted);
    RemainingMembers(ledger, deleted);
    forall k | k in counts
      ensures counts[k] == |set x | x in deleted && x.kind == k|
    {
      RunKeepsExactlyTheFailures(ledger, sorted, outcomes, deleted, k);
    }
    r := Success(RunResult(counts, deleted, remaining));
  }

  /**
   * After a run that went through, a ledger row is kept exactly when its
   * deletion did not succeed, and each type is counted once per distinct
   * row of that type actually deleted.
   */
  lemma RunKeepsExactlyTheFailures(ledger: seq<LedgerRow>, order: seq<LedgerRow>, outcomes: seq<bool>, deleted: set<LedgerRow>, kind: string)
    requires NoDuplicates(order) && |outcomes| == |order|
    requires forall x :: x in order <==> x in ledger
    requires forall x :: x in deleted <==> x in SucceededInOrder(order, outcomes)
    ensures forall x :: x in Remaining(ledger, deleted) <==>
      x in ledger && forall i :: 0 <= i < |order| && order[i] == x ==> !outcomes[i]
    ensures var counts := TypeCounts(SucceededInOrder(order, outcomes));
      kind in counts ==> counts[kind] == |set x | x in deleted && x.kind == kind|
  {
    var successes := SucceededInOrder(order, outcomes);
    SucceededInOrderMembers(order, outcomes);
    RemainingMembers(ledger, deleted);
    SucceededInOrderNoDuplicates(order, outcomes);
    CountOfTypeDistinct(successes, kind);
    TypeCountsMeaning(successes, kind);
    assert RowsOfType(successes, kind) == set x | x in deleted && x.kind == kind;
  }
}
