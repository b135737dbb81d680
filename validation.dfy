/** The validators of the create/edit pages are ordered checks: the first
    check that fails sets the page's error text and stops validation. */
module Validation {
  import opened Basics

  /** One check: whether it passes, and the message it sets when it fails. */
  datatype Check = Check(passes: bool, message: string)

  predicate AllPass(checks: seq<Check>) {
    forall i :: 0 <= i < |checks| ==> checks[i].passes
  }

  /** `i` is the first failing check. */
  predicate FirstFailingAt(checks: seq<Check>, i: int) {
    0 <= i < |checks| && !checks[i].passes && AllPass(checks[..i])
  }

  /** The message of the first failing check, or `None` when all pass. */
  function FirstFailure(checks: seq<Check>): (r: Option<string>)
    ensures r == None <==> AllPass(checks)
    ensures r.Some? ==> exists i :: FirstFailingAt(checks, i) && checks[i].message == r.value
  {
    if checks == [] then None
    else if !checks[0].passes then
      assert FirstFailingAt(checks, 0);
      Some(checks[0].message)
    else
      var r := FirstFailure(checks[1..]);
      if r.Some? then
        var i :| FirstFailingAt(checks[1..], i) && checks[1..][i].message == r.value;
        assert checks[..i + 1] == [checks[0]] + checks[1..][..i];
        assert FirstFailingAt(checks, i + 1);
        r
      else
        r
  }

  /** A failing check's message is reported whenever every earlier check
      passes, whatever the later checks say. */
  lemma {:induction false} FirstFailureIsEarliest(checks: seq<Check>, i: int)
    requires FirstFailingAt(checks, i)
    ensures FirstFailure(checks) == Some(checks[i].message)
  {
    if i > 0 {
      assert checks[1..][..i - 1] == checks[..i][1..];
      FirstFailureIsEarliest(checks[1..], i - 1);
    }
  }
}
