/**
 * The records of the three tables of models/database.js:8-66, with the
 * primary key Sequelize adds, and the token payload the login route signs.
 * Dates are kept as the text the client sent; the creation timestamps the
 * store fills in are not part of the model.
 */
module Records {
  import opened Wrappers

  /** The ENUM('student', 'teacher') column of a user. */
  datatype Role = Student | Teacher

  /** The text of a role, as stored and as put into a token. */
  function RoleName(r: Role): string {
    match r
    case Student => "student"
    case Teacher => "teacher"
  }

  /** A row of the User table: `passwordHash` is the bcrypt digest stored in the `password` column. */
  datatype User = User(id: int, username: string, passwordHash: string, role: Role)

  /** The payload `{ id, username, role }` of a token, as signed and as decoded. */
  datatype Claims = Claims(id: int, username: string, role: string)

  /** A row of the Assignment table. */
  datatype Assignment = Assignment(id: int, title: string, description: string, dueDate: string, teacherId: int)

  /** A row of the Submission table; `grade` is nullable. */
  datatype Submission = Submission(id: int, studentId: int, assignmentId: int, content: string, grade: Option<string>)
}
