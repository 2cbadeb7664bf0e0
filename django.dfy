/** What the back-end views observe of Python and Django: a raised exception (its class and
    `str(e)`), a call that returns or raises, and an instant as `timezone.now()` gives it. The
    database is the SQLite engine configured at `backend/settings.py:84`, whose constraint
    violations surface as `IntegrityError` with the messages used below. */
module Django {

  /** A Python exception: its class name and `str(e)`. */
  datatype PyException = PyException(name: string, message: string)

  /** A Python call either returns a value or raises. */
  datatype PyResult<+T> = Returned(value: T) | Raised(exception: PyException)

  /** An instant in whole seconds, as read from `timezone.now()`. */
  type Instant = int

  /** The column constraints whose violation SQLite reports. */
  datatype Constraint = UniqueColumn | NotNullColumn

  /** The error SQLite reports when a row would break `kind` on `column`: a repeated value in a
      `unique=True` column, or `None` in a non-null column. The message names the constraint and
      ends with the column. */
  function ConstraintFailed(kind: Constraint, column: string): (e: PyException)
    ensures e.name == "IntegrityError"
    ensures |e.message| >= |column| && e.message[|e.message| - |column|..] == column
    ensures kind == UniqueColumn <==> "UNIQUE" <= e.message
  {
    var name := if kind == UniqueColumn then "UNIQUE" else "NOT NULL";
    var m := name + " constraint failed: " + column;
    assert m[|m| - |column|..] == column;
    assert m[..6] == (if kind == UniqueColumn then "UNIQUE" else "NOT NU");
    assert kind == NotNullColumn ==> m[0] == 'N' != "UNIQUE"[0];
    PyException("IntegrityError", m)
  }

  /** What `x.get(...)` raises when `x` is `None`. */
  const NoneHasNoGet := PyException("AttributeError", "'NoneType' object has no attribute 'get'")
}
