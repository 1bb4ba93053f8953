/**
 * A validation issue of a form schema: the field it concerns (the first
 * element of its path) and its message. Issues come in the order of the
 * schema's fields.
 */
module FormIssues {
  datatype Issue = Issue(field: string, message: string)

  /** A field whose length is below `min` yields one issue. */
  function MinLength(field: string, value: string, min: nat, message: string): (r: seq<Issue>)
    ensures |r| <= 1
    ensures r != [] <==> |value| < min
    ensures r != [] ==> r[0] == Issue(field, message)
  {
    if |value| < min then [Issue(field, message)] else []
  }

  /** A field the email predicate rejects yields one issue. */
  function EmailIssue(field: string, value: string, isEmail: string -> bool, message: string): (r: seq<Issue>)
    ensures |r| <= 1
    ensures r != [] <==> !isEmail(value)
    ensures r != [] ==> r[0] == Issue(field, message)
  {
    if isEmail(value) then [] else [Issue(field, message)]
  }
}
