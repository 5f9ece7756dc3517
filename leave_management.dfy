/**
 * The leave-request panel: the status filter, the three status counts, the
 * pending-only approve/reject actions and the badge colours.
 */
module LeaveManagement {
  import opened Types
  import opened Seqs
  import opened Tones

  /** The panel's filter: 'all' or one request status. */
  datatype LeaveFilter = All | Only(status: LeaveStatus)

  /** The requests with status `st`, in their original order. */
  function WithStatus(reqs: seq<LeaveRequest>, st: LeaveStatus): (r: seq<LeaveRequest>)
    ensures IsSubsequence(r, reqs)
    ensures forall i :: 0 <= i < |r| ==> r[i].status == st
    ensures forall i :: 0 <= i < |reqs| && reqs[i].status == st ==> reqs[i] in r
    ensures multiset(r) <= multiset(reqs)
    ensures forall i :: 0 <= i < |reqs| ==> multiset(r)[reqs[i]] == if reqs[i].status == st then multiset(reqs)[reqs[i]] else 0
  {
    FilterIsSubsequence(reqs, (q: LeaveRequest) => q.status == st);
    Filter(reqs, (q: LeaveRequest) => q.status == st)
  }

  /** The number of records with status `st`, counted one record at a time. */
  function Tally(reqs: seq<LeaveRequest>, st: LeaveStatus): nat
  {
    if reqs == [] then 0 else (if reqs[0].status == st then 1 else 0) + Tally(reqs[1..], st)
  }

  /** The filter for a status keeps exactly as many records as the tally counts. */
  lemma {:induction false} WithStatusCount(reqs: seq<LeaveRequest>, st: LeaveStatus)
    ensures |WithStatus(reqs, st)| == Tally(reqs, st)
  {
    if reqs != [] {
      WithStatusCount(reqs[1..], st);
    }
  }

  /** The rows the table shows under filter `f`. */
  function FilteredRequests(reqs: seq<LeaveRequest>, f: LeaveFilter): (r: seq<LeaveRequest>)
    ensures f.All? ==> r == reqs
    ensures f.Only? ==> IsSubsequence(r, reqs)
    ensures f.Only? ==> forall i :: 0 <= i < |r| ==> r[i].status == f.status
    ensures f.Only? ==> forall i :: 0 <= i < |reqs| && reqs[i].status == f.status ==> reqs[i] in r
  {
    match f
    case All => reqs
    case Only(st) =>
      FilterIsSubsequence(reqs, (q: LeaveRequest) => q.status == st);
      WithStatus(reqs, st)
  }

  /** The counters above the table. */
  datatype LeaveStats = LeaveStats(pending: nat, approved: nat, rejected: nat)

  function Stats(reqs: seq<LeaveRequest>): (s: LeaveStats)
    ensures s.pending + s.approved + s.rejected == |reqs|
    ensures s.pending == Tally(reqs, LeavePending) && s.approved == Tally(reqs, Approved) && s.rejected == Tally(reqs, Rejected)
  {
    StatusCountsPartition(reqs);
    WithStatusCount(reqs, LeavePending);
    WithStatusCount(reqs, Approved);
    WithStatusCount(reqs, Rejected);
    LeaveStats(|WithStatus(reqs, LeavePending)|, |WithStatus(reqs, Approved)|, |WithStatus(reqs, Rejected)|)
  }

  /** The counter for status `st`. */
  function StatFor(s: LeaveStats, st: LeaveStatus): nat
  {
    match st
    case LeavePending => s.pending
    case Approved => s.approved
    case Rejected => s.rejected
  }

  /** Every request has exactly one of the three statuses, so the counts add up to the total. */
  lemma {:induction false} StatusCountsPartition(reqs: seq<LeaveRequest>)
    ensures |WithStatus(reqs, LeavePending)| + |WithStatus(reqs, Approved)| + |WithStatus(reqs, Rejected)| == |reqs|
  {
    if reqs != [] {
      StatusCountsPartition(reqs[1..]);
    }
  }

  /** Under a status filter the table has exactly as many rows as that status's counter says. */
  lemma FilteredCountMatchesStat(reqs: seq<LeaveRequest>, st: LeaveStatus)
    ensures |FilteredRequests(reqs, Only(st))| == StatFor(Stats(reqs), st)
  {
  }

  /** Whether a row carries the approve and reject buttons. */
  predicate ShowsActions(q: LeaveRequest)
  {
    q.status == LeavePending
  }

  /** The rows with buttons under `f`: all of the pending rows, and none under approved or rejected. */
  lemma ActionRows(reqs: seq<LeaveRequest>, f: LeaveFilter)
    ensures f == Only(Approved) || f == Only(Rejected) ==> Filter(FilteredRequests(reqs, f), ShowsActions) == []
    ensures f == All || f == Only(LeavePending) ==>
      Filter(FilteredRequests(reqs, f), ShowsActions) == WithStatus(reqs, LeavePending)
  {
    var rows := FilteredRequests(reqs, f);
    if f == Only(Approved) || f == Only(Rejected) {
      FilterKeepsNone(rows, ShowsActions);
    } else if f == Only(LeavePending) {
      FilterKeepsAll(rows, ShowsActions);
    } else {
      SameFilter(reqs);
    }
  }

  /** Filtering by the action predicate is filtering by status pending. */
  lemma {:induction false} SameFilter(reqs: seq<LeaveRequest>)
    ensures Filter(reqs, ShowsActions) == WithStatus(reqs, LeavePending)
  {
    if reqs != [] {
      SameFilter(reqs[1..]);
    }
  }

  /** `getStatusColor`, which takes the status as a string. */
  function StatusColor(status: string): (t: Tone)
    ensures t == Green <==> status == Approved.Name()
    ensures t == Yellow <==> status == LeavePending.Name()
    ensures t == Red <==> status == Rejected.Name()
    ensures t in {Green, Yellow, Red, Slate}
  {
    match status
    case "approved" => Green
    case "pending" => Yellow
    case "rejected" => Red
    case _ => Slate
  }

  /** `getTypeColor`, which takes the leave type as a string; 'unpaid' shares the fallback tone. */
  function TypeColor(leaveType: string): (t: Tone)
    ensures t == Red <==> leaveType == Sick.Name()
    ensures t == Blue <==> leaveType == Vacation.Name()
    ensures t == Purple <==> leaveType == Personal.Name()
    ensures t == Slate <==> leaveType !in [Sick.Name(), Vacation.Name(), Personal.Name()]
  {
    match leaveType
    case "sick" => Red
    case "vacation" => Blue
    case "personal" => Purple
    case "unpaid" => Slate
    case _ => Slate
  }
}
