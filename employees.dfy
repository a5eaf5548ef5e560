/**
 * A member of staff. Identity, name, contact and the join timestamp are fixed
 * when the record is created; salary and position are updated in place.
 */
module Staff {

  /** One line of the employee listing: the columns the employee report shows. */
  datatype EmployeeRow = EmployeeRow(id: int, name: string, position: string, salary: real, contact: string)

  class Employee {
    const id: int
    const name: string
    const contact: string
    /** The creation time as the clock rendered it; supplied by the caller. */
    const joinDate: string
    var position: string
    var salary: real

    constructor (id: int, name: string, position: string, salary: real, contact: string, joinDate: string)
      ensures this.id == id && this.name == name && this.contact == contact && this.joinDate == joinDate
      ensures this.position == position && this.salary == salary
    {
      this.id := id;
      this.name := name;
      this.position := position;
      this.salary := salary;
      this.contact := contact;
      this.joinDate := joinDate;
    }

    method SetSalary(newSalary: real)
      modifies `salary
      ensures salary == newSalary
    {
      salary := newSalary;
    }

    method SetPosition(newPosition: string)
      modifies `position
      ensures position == newPosition
    {
      position := newPosition;
    }

    /** The employee report's row for this employee. */
    function Row(): EmployeeRow
      reads this
    {
      EmployeeRow(id, name, position, salary, contact)
    }
  }
}
