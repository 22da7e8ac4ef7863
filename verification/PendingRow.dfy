/** The row of one pending change (internal/adapters/driven/auth/sqlite_store.go): three
    conditional updates, and what any interleaving of them can do. */
module PendingRow {
  import opened Domain

  const LEASE := 300_000_000_000

  datatype Status = Open | Approving | Rejecting | Approved | Rejected

  datatype Verdict = Approve | Reject {
    function Interim(): Status {
      if Approve? then Approving else Rejecting
    }

    function Final(): Status {
      if Approve? then Approved else Rejected
    }
  }

  datatype Row = Row(status: Status, reviewedBy: Option<string>, reviewedAt: Option<int>)

  predicate CanBegin(row: Row, verdict: Verdict, now: int) {
    || row.status.Open?
    || (row.status == verdict.Interim() && row.reviewedAt.Some? && row.reviewedAt.value < now - LEASE)
  }

  function Begun(row: Row, reviewer: string, verdict: Verdict, now: int): Row {
    Row(verdict.Interim(), if row.status.Open? then Some(reviewer) else row.reviewedBy, Some(now))
  }

  predicate CanCancel(row: Row, reviewer: string) {
    (row.status.Approving? || row.status.Rejecting?) && row.reviewedBy == Some(reviewer)
  }

  const CANCELLED := Row(Open, None, None)

  predicate CanFinalize(row: Row, reviewer: string, verdict: Verdict) {
    row.status == verdict.Interim() && row.reviewedBy == Some(reviewer)
  }

  function Finalized(row: Row, verdict: Verdict, now: int): Row {
    row.(status := verdict.Final(), reviewedAt := Some(now))
  }

  // ---------------------------------------------------------------- any interleaving

  datatype Op = Begin(reviewer: string, verdict: Verdict) | Cancel(reviewer: string) | Finalize(reviewer: string, verdict: Verdict)

  /** The rows an UPDATE touches change; the others stay. */
  function Perform(row: Row, op: Op, now: int): Row {
    match op
    case Begin(reviewer, verdict) => if CanBegin(row, verdict, now) then Begun(row, reviewer, verdict, now) else row
    case Cancel(reviewer) => if CanCancel(row, reviewer) then CANCELLED else row
    case Finalize(reviewer, verdict) => if CanFinalize(row, reviewer, verdict) then Finalized(row, verdict, now) else row
  }

  /** `rows[i + 1]` is what operation `i`, at time `times[i]`, made of `rows[i]`. */
  ghost predicate History(rows: seq<Row>, ops: seq<Op>, times: seq<int>) {
    && |ops| == |times| && |rows| == |ops| + 1
    && (forall i :: 0 <= i < |ops| ==> rows[i + 1] == Perform(rows[i], ops[i], times[i]))
    && (forall i, j :: 0 <= i <= j < |times| ==> times[i] <= times[j])
  }

  /** The row is not open anywhere in `rows[i..j]`. */
  ghost predicate NeverOpen(rows: seq<Row>, i: nat, j: nat)
    requires i <= j < |rows|
  {
    forall k :: i <= k <= j ==> !rows[k].status.Open?
  }

  predicate OnSide(status: Status, verdict: Verdict) {
    status == verdict.Interim() || status == verdict.Final()
  }

  /** As long as nothing cancels the decision, it keeps its verdict and the reviewer who
      took it first, whoever takes the lease over; and a final state is never left. */
  lemma {:induction false} DecisionKeepsVerdictAndReviewer(rows: seq<Row>, ops: seq<Op>, times: seq<int>, i: nat, j: nat, verdict: Verdict)
    requires History(rows, ops, times) && i <= j < |rows|
    requires OnSide(rows[i].status, verdict)
    ensures NeverOpen(rows, i, j) ==> OnSide(rows[j].status, verdict) && rows[j].reviewedBy == rows[i].reviewedBy
    ensures rows[i].status == verdict.Final() ==> rows[j] == rows[i]
    decreases j - i
  {
    if i < j {
      DecisionKeepsVerdictAndReviewer(rows, ops, times, i, j - 1, verdict);
      assert rows[j] == Perform(rows[j - 1], ops[j - 1], times[j - 1]);
      if NeverOpen(rows, i, j) {
        assert NeverOpen(rows, i, j - 1);
      }
    }
  }

  predicate BeginSucceeds(rows: seq<Row>, ops: seq<Op>, times: seq<int>, i: nat)
    requires |ops| == |times| && |rows| == |ops| + 1 && i < |ops|
  {
    ops[i].Begin? && CanBegin(rows[i], ops[i].verdict, times[i])
  }

  lemma {:induction false} LeaseIsRenewed(rows: seq<Row>, ops: seq<Op>, times: seq<int>, i: nat, j: nat)
    requires History(rows, ops, times) && i < j < |rows|
    requires BeginSucceeds(rows, ops, times, i) && NeverOpen(rows, i + 1, j)
    ensures rows[j].reviewedAt.Some? && rows[j].reviewedAt.value >= times[i]
    decreases j - i
  {
    assert rows[j] == Perform(rows[j - 1], ops[j - 1], times[j - 1]);
    if i + 1 < j {
      LeaseIsRenewed(rows, ops, times, i, j - 1);
    }
  }

  /** Two successful begins of one change are separated by a cancel or by more than the
      lease of five minutes. */
  lemma BeginsAreSeparated(rows: seq<Row>, ops: seq<Op>, times: seq<int>, i: nat, j: nat)
    requires History(rows, ops, times) && i < j < |ops|
    requires BeginSucceeds(rows, ops, times, i) && BeginSucceeds(rows, ops, times, j)
    ensures times[j] - times[i] > 5 * 60_000_000_000 || exists k :: i < k <= j && rows[k].status.Open?
  {
    if NeverOpen(rows, i + 1, j) {
      LeaseIsRenewed(rows, ops, times, i, j);
    }
  }

  /** An open row comes only from a cancel by the reviewer on record. */
  lemma OpenedByCancel(rows: seq<Row>, ops: seq<Op>, times: seq<int>, k: nat)
    requires History(rows, ops, times) && 0 < k < |rows|
    requires rows[k].status.Open? && !rows[k - 1].status.Open?
    ensures ops[k - 1].Cancel? && rows[k - 1].reviewedBy == Some(ops[k - 1].reviewer)
  {
    assert rows[k] == Perform(rows[k - 1], ops[k - 1], times[k - 1]);
  }
}
