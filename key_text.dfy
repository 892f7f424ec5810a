/**
 * Cache keys are fields joined with '-'. This module splits a key at its
 * last '-', which is how a key is decoded when every field after the first
 * is free of dashes.
 */
module KeyText {
  import opened Wrappers
  import opened Decimal

  const Dash: char := '-'

  /** The text before and after the last dash of `s`, or None when `s` has no dash. */
  function SplitLast(s: string): (r: Option<(string, string)>)
    ensures r.None? <==> Dash !in s
    ensures r.Some? ==> r.value.0 + [Dash] + r.value.1 == s && Dash !in r.value.1
    decreases |s|
  {
    if s == [] then None
    else if s[|s| - 1] == Dash then Some((s[..|s| - 1], []))
    else match SplitLast(s[..|s| - 1])
      case None => None
      case Some((before, after)) => Some((before, after + [s[|s| - 1]]))
  }

  /** Joining with a dash and splitting at the last dash are inverse when the tail has no dash. */
  lemma {:induction false} SplitLastJoin(before: string, after: string)
    requires Dash !in after
    ensures SplitLast(before + [Dash] + after) == Some((before, after))
  {
    var s := before + [Dash] + after;
    if after != [] {
      var init := after[..|after| - 1];
      assert s[..|s| - 1] == before + [Dash] + init;
      assert after == init + [after[|after| - 1]];
      SplitLastJoin(before, init);
    } else {
      assert s[..|s| - 1] == before;
    }
  }

  /** A numeral never contains a dash, so it can follow a dash in a key. */
  lemma NumeralHasNoDash(n: nat)
    ensures Dash !in NatToString(n)
  {
  }
}
