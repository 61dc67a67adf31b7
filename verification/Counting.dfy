/** A counting argument that several components rest on. */
module Counting {

  /** Numbers below n that do not repeat are at most n, and exactly n only when none is missing. */
  lemma {:induction false} NoneMissing(s: seq<nat>, n: nat)
    requires forall a :: 0 <= a < |s| ==> s[a] < n
    requires forall a, b :: 0 <= a < b < |s| ==> s[a] != s[b]
    ensures |s| <= n
    ensures |s| == n ==> forall i :: 0 <= i < n ==> i in s
  {
    // Only mentions s[0]: with n == 0 it would have to be negative, so s is empty.
    var first := if s == [] then 0 else s[0];
    if n > 0 {
      if at :| 0 <= at < |s| && s[at] == n - 1 {
        var rest := s[..at] + s[at + 1..];
        assert forall i :: i in s <==> i in rest || i == n - 1;
        NoneMissing(rest, n - 1);
      } else {
        NoneMissing(s, n - 1);
      }
    }
  }
}
