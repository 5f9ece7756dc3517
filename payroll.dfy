/**
 * The payroll panel: the net total and status counters, the summary's three
 * independent sums, the unfiltered table and the "Process" button rule.
 */
module Payroll {
  import opened Types
  import opened Seqs
  import opened Tones

  function NetOf(p: PayrollRecord): int { p.netSalary }
  function BaseOf(p: PayrollRecord): int { p.baseSalary }
  function BonusOf(p: PayrollRecord): int { p.bonus }
  function DeductionsOf(p: PayrollRecord): int { p.deductions }

  /** The records with status `st`, in their original order. */
  function WithStatus(rs: seq<PayrollRecord>, st: PayrollStatus): (r: seq<PayrollRecord>)
    ensures IsSubsequence(r, rs)
    ensures forall i :: 0 <= i < |r| ==> r[i].status == st
    ensures forall i :: 0 <= i < |rs| && rs[i].status == st ==> rs[i] in r
    ensures multiset(r) <= multiset(rs)
    ensures forall i :: 0 <= i < |rs| ==> multiset(r)[rs[i]] == if rs[i].status == st then multiset(rs)[rs[i]] else 0
  {
    FilterIsSubsequence(rs, (p: PayrollRecord) => p.status == st);
    Filter(rs, (p: PayrollRecord) => p.status == st)
  }

  /** The number of records with status `st`, counted one record at a time. */
  function Tally(rs: seq<PayrollRecord>, st: PayrollStatus): nat
  {
    if rs == [] then 0 else (if rs[0].status == st then 1 else 0) + Tally(rs[1..], st)
  }

  /** The filter for a status keeps exactly as many records as the tally counts. */
  lemma {:induction false} WithStatusCount(rs: seq<PayrollRecord>, st: PayrollStatus)
    ensures |WithStatus(rs, st)| == Tally(rs, st)
  {
    if rs != [] {
      WithStatusCount(rs[1..], st);
    }
  }

  /** The counters above the table. */
  datatype PayrollStats = PayrollStats(totalPayroll: int, paid: nat, pending: nat, processing: nat)

  function Stats(rs: seq<PayrollRecord>): (s: PayrollStats)
    ensures s.paid + s.pending + s.processing == |rs|
    ensures rs == [] ==> s.totalPayroll == 0
    ensures s.totalPayroll == Total(rs, NetOf)
    ensures s.paid == Tally(rs, Paid) && s.pending == Tally(rs, PayPending) && s.processing == Tally(rs, Processing)
  {
    StatusCountsPartition(rs);
    WithStatusCount(rs, Paid);
    WithStatusCount(rs, PayPending);
    WithStatusCount(rs, Processing);
    PayrollStats(Total(rs, NetOf), |WithStatus(rs, Paid)|, |WithStatus(rs, PayPending)|, |WithStatus(rs, Processing)|)
  }

  /** Every record has exactly one of the three statuses. */
  lemma {:induction false} StatusCountsPartition(rs: seq<PayrollRecord>)
    ensures |WithStatus(rs, Paid)| + |WithStatus(rs, PayPending)| + |WithStatus(rs, Processing)| == |rs|
  {
    if rs != [] {
      StatusCountsPartition(rs[1..]);
    }
  }

  /** Each record's net salary is its base salary plus its bonus minus its deductions. */
  predicate Balanced(p: PayrollRecord)
  {
    p.netSalary == p.baseSalary + p.bonus - p.deductions
  }

  /** When every record is balanced, the net total equals the summary's base + bonuses - deductions. */
  lemma {:induction false} BalancedTotals(rs: seq<PayrollRecord>)
    requires forall i :: 0 <= i < |rs| ==> Balanced(rs[i])
    ensures Total(rs, NetOf) == Total(rs, BaseOf) + Total(rs, BonusOf) - Total(rs, DeductionsOf)
    ensures Summary(rs).netPayroll == Summary(rs).totalBase + Summary(rs).totalBonus - Summary(rs).totalDeductions
  {
    if rs != [] {
      BalancedTotals(rs[..|rs| - 1]);
    }
  }

  /** The totals are sums over the records, so they add up across a split of the records. */
  lemma SummaryAdditive(a: seq<PayrollRecord>, b: seq<PayrollRecord>)
    ensures Stats(a + b).totalPayroll == Stats(a).totalPayroll + Stats(b).totalPayroll
    ensures Summary(a + b).totalBase == Summary(a).totalBase + Summary(b).totalBase
    ensures Summary(a + b).totalBonus == Summary(a).totalBonus + Summary(b).totalBonus
    ensures Summary(a + b).totalDeductions == Summary(a).totalDeductions + Summary(b).totalDeductions
  {
    TotalAppend(a, b, NetOf);
    TotalAppend(a, b, BaseOf);
    TotalAppend(a, b, BonusOf);
    TotalAppend(a, b, DeductionsOf);
  }

  /** The "Payment Summary" card: three sums and the net line. */
  datatype PaymentSummary = PaymentSummary(totalBase: int, totalBonus: int, totalDeductions: int, netPayroll: int)

  function Summary(rs: seq<PayrollRecord>): (s: PaymentSummary)
    ensures s.netPayroll == Stats(rs).totalPayroll
    ensures rs == [] ==> s == PaymentSummary(0, 0, 0, 0)
    ensures s.totalBase == Total(rs, BaseOf) && s.totalBonus == Total(rs, BonusOf) && s.totalDeductions == Total(rs, DeductionsOf)
  {
    PaymentSummary(Total(rs, BaseOf), Total(rs, BonusOf), Total(rs, DeductionsOf), Total(rs, NetOf))
  }

  /** Whether a table row carries the "Process" button. */
  predicate ShowsProcess(p: PayrollRecord)
  {
    p.status != Paid
  }

  /** The table body: one row per record, every record, unfiltered and in input order. */
  function Table(rs: seq<PayrollRecord>): (rows: seq<PayrollRecord>)
    ensures |rows| == |rs|
    ensures forall i :: 0 <= i < |rs| ==> rows[i] == rs[i]
  {
    rs
  }

  /** The table lists every record in order, so the rows with "Process" are the unpaid ones. */
  lemma {:induction false} ProcessRows(rs: seq<PayrollRecord>)
    ensures |Filter(Table(rs), ShowsProcess)| == Stats(rs).pending + Stats(rs).processing
  {
    if rs != [] {
      ProcessRows(rs[1..]);
    }
  }

  /** `getStatusColor`, which takes the status as a string. */
  function StatusColor(status: string): (t: Tone)
    ensures t == Green <==> status == Paid.Name()
    ensures t == Blue <==> status == Processing.Name()
    ensures t == Yellow <==> status == PayPending.Name()
    ensures t == Slate <==> ParsePayrollStatus(status).None?
  {
    match status
    case "paid" => Green
    case "processing" => Blue
    case "pending" => Yellow
    case _ => Slate
  }

  /** `getStatusIcon`: 'processing' shares the clock with unknown statuses. */
  function StatusIcon(status: string): (i: Icon)
    ensures i == CheckCircle <==> status == Paid.Name()
    ensures i == AlertCircle <==> status == PayPending.Name()
    ensures i == ClockIcon <==> status != Paid.Name() && status != PayPending.Name()
  {
    match status
    case "paid" => CheckCircle
    case "processing" => ClockIcon
    case "pending" => AlertCircle
    case _ => ClockIcon
  }
}
