/** SQL's three-valued logic: a condition is TRUE, FALSE or NULL. */
module SqlLogic {
  import opened Prelude

  type Truth = Option<bool>

  function Not3(t: Truth): Truth {
    if t.None? then None else Some(!t.value)
  }

  // FALSE wins over NULL in a conjunction.
  function And3(a: Truth, b: Truth): Truth {
    if a == Some(false) || b == Some(false) then Some(false)
    else if a.None? || b.None? then None
    else Some(true)
  }

  // TRUE wins over NULL in a disjunction.
  function Or3(a: Truth, b: Truth): Truth {
    if a == Some(true) || b == Some(true) then Some(true)
    else if a.None? || b.None? then None
    else Some(false)
  }

  // A comparison with a NULL operand is NULL.
  function Equals3(a: Option<string>, b: Option<string>): Truth {
    if a.None? || b.None? then None else Some(a.value == b.value)
  }

  function AtLeast3(a: Option<real>, b: real): Truth {
    if a.None? then None else Some(a.value >= b)
  }
}
