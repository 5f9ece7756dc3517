/**
 * The employee directory: the search-and-department filter, the department
 * options and the "Showing n of m" footer. Rows show `EmployeeProfile.Initials`
 * of each name and their badges use `EmployeeProfile.StatusColor`.
 */
module EmployeeList {
  import opened Types
  import opened Text
  import opened Seqs

  /** The department option that disables the department filter. */
  const AllDepartments: string := "all"

  /** Case-insensitive substring search on name, email and position; never on department or id. */
  predicate MatchesSearch(e: Employee, term: string)
  {
    Contains(Lower(e.name), Lower(term)) ||
    Contains(Lower(e.email), Lower(term)) ||
    Contains(Lower(e.position), Lower(term))
  }

  /** 'all', or exact equality with the employee's department. */
  predicate MatchesDepartment(e: Employee, department: string)
  {
    department == AllDepartments || e.department == department
  }

  predicate Matches(e: Employee, term: string, department: string)
  {
    MatchesSearch(e, term) && MatchesDepartment(e, department)
  }

  /** `filteredEmployees`: the matching employees, in directory order. */
  function FilteredEmployees(emps: seq<Employee>, term: string, department: string): (r: seq<Employee>)
    ensures |r| <= |emps|
    ensures IsSubsequence(r, emps)
    ensures forall i :: 0 <= i < |r| ==> Matches(r[i], term, department)
    ensures forall i :: 0 <= i < |emps| && Matches(emps[i], term, department) ==> emps[i] in r
    ensures multiset(r) <= multiset(emps)
    ensures forall i :: 0 <= i < |emps| ==>
      multiset(r)[emps[i]] == if Matches(emps[i], term, department) then multiset(emps)[emps[i]] else 0
  {
    FilterIsSubsequence(emps, (e: Employee) => Matches(e, term, department));
    Filter(emps, (e: Employee) => Matches(e, term, department))
  }

  /** An empty search with department 'all' lists every employee, in order. */
  lemma ShowAll(emps: seq<Employee>)
    ensures FilteredEmployees(emps, "", AllDepartments) == emps
  {
    forall i | 0 <= i < |emps|
      ensures Matches(emps[i], "", AllDepartments)
    {
      EmptyIsEverywhere(Lower(emps[i].name));
    }
    FilterKeepsAll(emps, (e: Employee) => Matches(e, "", AllDepartments));
  }

  /** Terms that lower to the same string select the same employees. */
  lemma {:induction false} SearchIsCaseInsensitive(emps: seq<Employee>, t1: string, t2: string, department: string)
    requires Lower(t1) == Lower(t2)
    ensures FilteredEmployees(emps, t1, department) == FilteredEmployees(emps, t2, department)
  {
    if emps != [] {
      SearchIsCaseInsensitive(emps[1..], t1, t2, department);
    }
  }

  /** The search never looks at the department or the id. */
  lemma SearchIgnoresDepartmentAndId(e: Employee, term: string, department: string, id: string)
    ensures MatchesSearch(e.(department := department, id := id), term) == MatchesSearch(e, term)
  {
  }

  /** `e.department` of every employee, in directory order. */
  function DepartmentColumn(emps: seq<Employee>): (r: seq<string>)
    ensures |r| == |emps|
    ensures forall i :: 0 <= i < |emps| ==> r[i] == emps[i].department
  {
    if emps == [] then [] else [emps[0].department] + DepartmentColumn(emps[1..])
  }

  /**
   * `['all', ...new Set(departments)]`: 'all', then each department once, in the
   * order in which the directory first mentions it.
   */
  function Departments(emps: seq<Employee>): (r: seq<string>)
    ensures |r| >= 1 && r[0] == AllDepartments
    ensures NoDuplicates(r[1..])
    ensures forall i :: 0 <= i < |emps| ==> emps[i].department in r[1..]
    ensures forall j :: 1 <= j < |r| ==> r[j] in DepartmentColumn(emps)
  {
    var column := DepartmentColumn(emps);
    var d := Distinct(column);
    var r := [AllDepartments] + d;
    assert r[1..] == d;
    assert forall j :: 1 <= j < |r| ==> r[j] in column;
    r
  }

  /**
   * The departments after 'all' appear in the order of their first mention in
   * the directory.
   */
  lemma DepartmentsFirstSeenOrder(emps: seq<Employee>, i: int, j: int)
    requires 0 <= i < j < |Departments(emps)| - 1
    ensures FirstIndex(DepartmentColumn(emps), Departments(emps)[1..][i])
          < FirstIndex(DepartmentColumn(emps), Departments(emps)[1..][j])
  {
    assert Departments(emps)[1..] == Distinct(DepartmentColumn(emps));
    DistinctFirstSeenOrder(DepartmentColumn(emps), i, j);
  }

  /** The footer "Showing shown of total employees". */
  datatype Footer = Footer(shown: nat, total: nat)

  function FooterCounts(emps: seq<Employee>, term: string, department: string): (f: Footer)
    ensures f.shown == |FilteredEmployees(emps, term, department)|
    ensures f.shown <= f.total == |emps|
    ensures term == "" && department == AllDepartments ==> f.shown == f.total
  {
    var shown := |FilteredEmployees(emps, term, department)|;
    assert term == "" && department == AllDepartments ==> shown == |emps| by {
      if term == "" && department == AllDepartments {
        ShowAll(emps);
      }
    }
    Footer(shown, |emps|)
  }
}
