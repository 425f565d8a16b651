/**
 * The shape shared by every validator of the game: a list of checks made in a
 * fixed order, each with the reason reported when it is the first to fail.
 */
module Checks {
  /**
   * The outcome of running the checks in order: the reason of the first failing
   * check, or the success message when every check passes.
   */
  function FirstFailure(checks: seq<(bool, string)>, success: string): (r: (bool, string))
    ensures r.0 <==> forall k :: 0 <= k < |checks| ==> checks[k].0
    ensures r.0 ==> r.1 == success
    ensures !r.0 ==> exists k :: 0 <= k < |checks| && !checks[k].0 && r.1 == checks[k].1
                                && forall j :: 0 <= j < k ==> checks[j].0
  {
    if checks == [] then (true, success)
    else if !checks[0].0 then (false, checks[0].1)
    else FirstFailure(checks[1..], success)
  }

  /** FirstFailure over three checks, written out. */
  lemma FirstFailure3(a: (bool, string), b: (bool, string), c: (bool, string), success: string)
    ensures FirstFailure([a, b, c], success) ==
      if !a.0 then (false, a.1) else if !b.0 then (false, b.1) else if !c.0 then (false, c.1) else (true, success)
  {
    assert [a, b, c][1..] == [b, c];
    assert [b, c][1..] == [c];
    assert [c][1..] == [];
    assert FirstFailure([c], success) == if !c.0 then (false, c.1) else FirstFailure([], success);
    assert FirstFailure([b, c], success) == if !b.0 then (false, b.1) else FirstFailure([c], success);
  }

  /** Putting one more check in front: it is reported if it fails, else the rest decide. */
  lemma FirstFailureCons(a: (bool, string), rest: seq<(bool, string)>, success: string)
    ensures FirstFailure([a] + rest, success) == if !a.0 then (false, a.1) else FirstFailure(rest, success)
  {
    assert ([a] + rest)[1..] == rest;
  }

  /** FirstFailure over four checks, written out. */
  lemma FirstFailure4(a: (bool, string), b: (bool, string), c: (bool, string), d: (bool, string), success: string)
    ensures FirstFailure([a, b, c, d], success) ==
      if !a.0 then (false, a.1) else if !b.0 then (false, b.1) else if !c.0 then (false, c.1)
      else if !d.0 then (false, d.1) else (true, success)
  {
    assert [a, b, c, d] == [a] + [b, c, d];
    FirstFailureCons(a, [b, c, d], success);
    FirstFailure3(b, c, d, success);
  }

  /** FirstFailure over five checks, written out. */
  lemma FirstFailure5(a: (bool, string), b: (bool, string), c: (bool, string), d: (bool, string), e: (bool, string),
                      success: string)
    ensures FirstFailure([a, b, c, d, e], success) ==
      if !a.0 then (false, a.1) else if !b.0 then (false, b.1) else if !c.0 then (false, c.1)
      else if !d.0 then (false, d.1) else if !e.0 then (false, e.1) else (true, success)
  {
    assert [a, b, c, d, e] == [a] + [b, c, d, e];
    FirstFailureCons(a, [b, c, d, e], success);
    FirstFailure4(b, c, d, e, success);
  }

  /** FirstFailure over six checks, written out. */
  lemma FirstFailure6(a: (bool, string), b: (bool, string), c: (bool, string), d: (bool, string), e: (bool, string),
                      f: (bool, string), success: string)
    ensures FirstFailure([a, b, c, d, e, f], success) ==
      if !a.0 then (false, a.1) else if !b.0 then (false, b.1) else if !c.0 then (false, c.1)
      else if !d.0 then (false, d.1) else if !e.0 then (false, e.1) else if !f.0 then (false, f.1) else (true, success)
  {
    assert [a, b, c, d, e, f] == [a] + [b, c, d, e, f];
    FirstFailureCons(a, [b, c, d, e, f], success);
    FirstFailure5(b, c, d, e, f, success);
  }
}
