/** The employee record the API returns (`IEmployee`). */
module Employees {

  datatype Status = Active | Warning

  /** The string the API uses for a status. */
  function StatusName(s: Status): string
  {
    match s
    case Active => "active"
    case Warning => "warning"
  }

  datatype Department = Department(id: string, name: string)

  /** Dates are kept as the strings the API sends; numbers are reals. */
  datatype Employee = Employee(
    id: string,
    name: string,
    email: string,
    department: Department,
    designation: string,
    level: int,
    salary: real,
    performanceId: string,
    performanceScore: real,
    status: Status,
    joinDate: string,
    createdAt: string,
    updatedAt: string,
    version: int)
}
