/**
 * The records of the employee-management data and their closed status and type
 * unions. Each union is a datatype; `Name()` gives the string tag the program
 * stores and `Parse*` reads a tag back, so that the functions taking a plain
 * `status: string` can be related to the datatype.
 */
module Types {
  import opened Wrappers

  /** `Employee.status`: 'active' | 'on-leave' | 'inactive'. */
  datatype EmployeeStatus = Active | OnLeave | Inactive {
    function Name(): string {
      match this
      case Active => "active"
      case OnLeave => "on-leave"
      case Inactive => "inactive"
    }
  }

  /** `AttendanceRecord.status`: 'present' | 'absent' | 'late' | 'half-day'. */
  datatype AttendanceStatus = Present | Absent | Late | HalfDay {
    function Name(): string {
      match this
      case Present => "present"
      case Absent => "absent"
      case Late => "late"
      case HalfDay => "half-day"
    }
  }

  /** `LeaveRequest.type`: 'sick' | 'vacation' | 'personal' | 'unpaid'. */
  datatype LeaveType = Sick | Vacation | Personal | Unpaid {
    function Name(): string {
      match this
      case Sick => "sick"
      case Vacation => "vacation"
      case Personal => "personal"
      case Unpaid => "unpaid"
    }
  }

  /** `LeaveRequest.status`: 'pending' | 'approved' | 'rejected'. */
  datatype LeaveStatus = LeavePending | Approved | Rejected {
    function Name(): string {
      match this
      case LeavePending => "pending"
      case Approved => "approved"
      case Rejected => "rejected"
    }
  }

  /** `PayrollRecord.status`: 'paid' | 'pending' | 'processing'. */
  datatype PayrollStatus = Paid | PayPending | Processing {
    function Name(): string {
      match this
      case Paid => "paid"
      case PayPending => "pending"
      case Processing => "processing"
    }
  }

  datatype Employee = Employee(
    id: string,
    name: string,
    email: string,
    position: string,
    department: string,
    avatar: string,
    salary: int,
    joinDate: string,
    status: EmployeeStatus,
    phone: string,
    address: string,
    emergencyContact: string,
    performanceScore: int)

  /** One day of one employee; `employeeName` is a copy of the employee's name. */
  datatype AttendanceRecord = AttendanceRecord(
    id: string,
    employeeId: string,
    employeeName: string,
    date: string,
    checkIn: string,
    checkOut: string,
    status: AttendanceStatus,
    hoursWorked: real)

  datatype LeaveRequest = LeaveRequest(
    id: string,
    employeeId: string,
    employeeName: string,
    leaveType: LeaveType,
    startDate: string,
    endDate: string,
    days: int,
    status: LeaveStatus,
    reason: string)

  datatype PayrollRecord = PayrollRecord(
    id: string,
    employeeId: string,
    employeeName: string,
    month: string,
    baseSalary: int,
    bonus: int,
    deductions: int,
    netSalary: int,
    status: PayrollStatus)

  /** The precomputed roll-up shown on the dashboard. */
  datatype DashboardStats = DashboardStats(
    totalEmployees: int,
    activeEmployees: int,
    onLeave: int,
    newHires: int,
    attendanceRate: int,
    pendingLeaves: int,
    payrollPending: int,
    avgPerformance: int)

  function ParseEmployeeStatus(s: string): (r: Option<EmployeeStatus>)
    ensures r.Some? ==> r.value.Name() == s
    ensures r.None? ==> forall st: EmployeeStatus :: st.Name() != s
  {
    if s == "active" then Some(Active)
    else if s == "on-leave" then Some(OnLeave)
    else if s == "inactive" then Some(Inactive)
    else None
  }

  function ParseAttendanceStatus(s: string): (r: Option<AttendanceStatus>)
    ensures r.Some? ==> r.value.Name() == s
    ensures r.None? ==> forall st: AttendanceStatus :: st.Name() != s
  {
    if s == "present" then Some(Present)
    else if s == "absent" then Some(Absent)
    else if s == "late" then Some(Late)
    else if s == "half-day" then Some(HalfDay)
    else None
  }

  function ParseLeaveType(s: string): (r: Option<LeaveType>)
    ensures r.Some? ==> r.value.Name() == s
    ensures r.None? ==> forall t: LeaveType :: t.Name() != s
  {
    if s == "sick" then Some(Sick)
    else if s == "vacation" then Some(Vacation)
    else if s == "personal" then Some(Personal)
    else if s == "unpaid" then Some(Unpaid)
    else None
  }

  function ParseLeaveStatus(s: string): (r: Option<LeaveStatus>)
    ensures r.Some? ==> r.value.Name() == s
    ensures r.None? ==> forall st: LeaveStatus :: st.Name() != s
  {
    if s == "pending" then Some(LeavePending)
    else if s == "approved" then Some(Approved)
    else if s == "rejected" then Some(Rejected)
    else None
  }

  function ParsePayrollStatus(s: string): (r: Option<PayrollStatus>)
    ensures r.Some? ==> r.value.Name() == s
    ensures r.None? ==> forall st: PayrollStatus :: st.Name() != s
  {
    if s == "paid" then Some(Paid)
    else if s == "pending" then Some(PayPending)
    else if s == "processing" then Some(Processing)
    else None
  }

  /** Distinct union members have distinct tags, so a tag names exactly one member. */
  lemma TagsAreInjective()
    ensures forall a: EmployeeStatus, b: EmployeeStatus :: a.Name() == b.Name() ==> a == b
    ensures forall a: AttendanceStatus, b: AttendanceStatus :: a.Name() == b.Name() ==> a == b
    ensures forall a: LeaveType, b: LeaveType :: a.Name() == b.Name() ==> a == b
    ensures forall a: LeaveStatus, b: LeaveStatus :: a.Name() == b.Name() ==> a == b
    ensures forall a: PayrollStatus, b: PayrollStatus :: a.Name() == b.Name() ==> a == b
  {
  }

  /** Reading back a tag gives the member it came from. */
  lemma ParseName()
    ensures forall st: EmployeeStatus :: ParseEmployeeStatus(st.Name()) == Some(st)
    ensures forall st: AttendanceStatus :: ParseAttendanceStatus(st.Name()) == Some(st)
    ensures forall t: LeaveType :: ParseLeaveType(t.Name()) == Some(t)
    ensures forall st: LeaveStatus :: ParseLeaveStatus(st.Name()) == Some(st)
    ensures forall st: PayrollStatus :: ParsePayrollStatus(st.Name()) == Some(st)
  {
  }
}
