/** What the client forms share: schema issues and the generic error text. */
module Forms {

  /** One validation issue: the field it is attached to and its message. */
  datatype Issue = Issue(path: string, message: string)

  const GenericError: string := "An error occurred. Please try again."

  /** The issue a single check contributes: none when it passes. */
  function Check(passes: bool, issue: Issue): (issues: seq<Issue>)
    ensures issue in issues <==> !passes
    ensures |issues| <= 1
    ensures forall i :: i in issues ==> i == issue
  {
    if passes then [] else [issue]
  }
}
