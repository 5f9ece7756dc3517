/**
 * The attendance panel: the present / late / absent counters, the table, which
 * ignores the chosen date, and the status colour and icon mappings.
 */
module Attendance {
  import opened Types
  import opened Seqs
  import opened Tones

  /** The records with status `st`, in their original order. */
  function WithStatus(rs: seq<AttendanceRecord>, st: AttendanceStatus): (r: seq<AttendanceRecord>)
    ensures IsSubsequence(r, rs)
    ensures forall i :: 0 <= i < |r| ==> r[i].status == st
    ensures forall i :: 0 <= i < |rs| && rs[i].status == st ==> rs[i] in r
    ensures multiset(r) <= multiset(rs)
    ensures forall i :: 0 <= i < |rs| ==> multiset(r)[rs[i]] == if rs[i].status == st then multiset(rs)[rs[i]] else 0
  {
    FilterIsSubsequence(rs, (a: AttendanceRecord) => a.status == st);
    Filter(rs, (a: AttendanceRecord) => a.status == st)
  }

  /** The number of records with status `st`, counted one record at a time. */
  function Tally(rs: seq<AttendanceRecord>, st: AttendanceStatus): nat
  {
    if rs == [] then 0 else (if rs[0].status == st then 1 else 0) + Tally(rs[1..], st)
  }

  /** The filter for a status keeps exactly as many records as the tally counts. */
  lemma {:induction false} WithStatusCount(rs: seq<AttendanceRecord>, st: AttendanceStatus)
    ensures |WithStatus(rs, st)| == Tally(rs, st)
  {
    if rs != [] {
      WithStatusCount(rs[1..], st);
    }
  }

  /** The counters above the table (the average-hours counter is not modelled). */
  datatype AttendanceStats = AttendanceStats(present: nat, late: nat, absent: nat)

  /** Half-day records are counted by none of the three counters. */
  function Stats(rs: seq<AttendanceRecord>): (s: AttendanceStats)
    ensures s.present + s.late + s.absent == |rs| - |WithStatus(rs, HalfDay)|
    ensures s.present + s.late + s.absent <= |rs|
    ensures s.present == Tally(rs, Present) && s.late == Tally(rs, Late) && s.absent == Tally(rs, Absent)
  {
    StatusCountsPartition(rs);
    WithStatusCount(rs, Present);
    WithStatusCount(rs, Late);
    WithStatusCount(rs, Absent);
    AttendanceStats(|WithStatus(rs, Present)|, |WithStatus(rs, Late)|, |WithStatus(rs, Absent)|)
  }

  /** Every record has exactly one of the four statuses. */
  lemma {:induction false} StatusCountsPartition(rs: seq<AttendanceRecord>)
    ensures |WithStatus(rs, Present)| + |WithStatus(rs, Late)| + |WithStatus(rs, Absent)|
            + |WithStatus(rs, HalfDay)| == |rs|
  {
    if rs != [] {
      StatusCountsPartition(rs[1..]);
      WithStatusStep(rs, Present);
      WithStatusStep(rs, Late);
      WithStatusStep(rs, Absent);
      WithStatusStep(rs, HalfDay);
    }
  }

  /** The first record adds one to the count of its own status only. */
  lemma WithStatusStep(rs: seq<AttendanceRecord>, st: AttendanceStatus)
    requires rs != []
    ensures |WithStatus(rs, st)| == (if rs[0].status == st then 1 else 0) + |WithStatus(rs[1..], st)|
  {
  }

  /** What the panel shows for a chosen date: a caption naming the date and the table rows. */
  datatype AttendancePage = AttendancePage(caption: string, rows: seq<AttendanceRecord>)

  function Page(rs: seq<AttendanceRecord>, selectedDate: string): (p: AttendancePage)
    ensures p.caption == selectedDate
    ensures p.rows == rs
  {
    AttendancePage(selectedDate, rs)
  }

  /** The chosen date changes only the caption: every date shows the same, unfiltered rows. */
  lemma DateOnlyChangesCaption(rs: seq<AttendanceRecord>, d1: string, d2: string)
    ensures Page(rs, d1).rows == Page(rs, d2).rows == rs
    ensures d1 != d2 ==> Page(rs, d1) != Page(rs, d2)
  {
  }

  /** `getStatusColor`, which takes the status as a string; 'half-day' has its own tone. */
  function StatusColor(status: string): (t: Tone)
    ensures t == Green <==> status == Present.Name()
    ensures t == Yellow <==> status == Late.Name()
    ensures t == Red <==> status == Absent.Name()
    ensures t == Blue <==> status == HalfDay.Name()
    ensures t == Slate <==> ParseAttendanceStatus(status).None?
  {
    match status
    case "present" => Green
    case "late" => Yellow
    case "absent" => Red
    case "half-day" => Blue
    case _ => Slate
  }

  /** `getStatusIcon`, which has no 'half-day' case: it falls to the clock, like unknown statuses. */
  function StatusIcon(status: string): (i: Icon)
    ensures i == CheckCircle <==> status == Present.Name()
    ensures i == AlertCircle <==> status == Late.Name()
    ensures i == XCircle <==> status == Absent.Name()
    ensures i == ClockIcon <==> ParseAttendanceStatus(status).None? || status == HalfDay.Name()
  {
    match status
    case "present" => CheckCircle
    case "late" => AlertCircle
    case "absent" => XCircle
    case _ => ClockIcon
  }

  /** Half-day is told apart from unknown statuses by its colour but not by its icon. */
  lemma HalfDayIconIsDefault(unknown: string)
    requires ParseAttendanceStatus(unknown).None?
    ensures StatusIcon(HalfDay.Name()) == StatusIcon(unknown)
    ensures StatusColor(HalfDay.Name()) != StatusColor(unknown)
  {
  }
}
