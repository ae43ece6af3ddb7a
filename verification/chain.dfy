/** First-success search over an ordered list of candidates, the shape shared by the
    library loader and the proc-address lookup. */
module Chain {
  import opened EglTypes

  /** The first non-null `f(x)` over `xs`, in order; null when every candidate fails. */
  function FirstNonNull<T>(xs: seq<T>, f: T -> Ptr): (r: Ptr)
    ensures r == NULL <==> forall k :: 0 <= k < |xs| ==> f(xs[k]) == NULL
    ensures r != NULL ==> exists k :: 0 <= k < |xs| && r == f(xs[k])
                                      && forall j :: 0 <= j < k ==> f(xs[j]) == NULL
  {
    if xs == [] then NULL
    else if f(xs[0]) != NULL then f(xs[0])
    else
      var r := FirstNonNull(xs[1..], f);
      assert forall k :: 1 <= k < |xs| ==> xs[k] == xs[1..][k - 1];
      if r != NULL then
        var k :| 0 <= k < |xs[1..]| && r == f(xs[1..][k])
                  && forall j :: 0 <= j < k ==> f(xs[1..][j]) == NULL;
        assert r == f(xs[k + 1]) && forall j :: 0 <= j < k + 1 ==> f(xs[j]) == NULL;
        r
      else
        r
  }
}
