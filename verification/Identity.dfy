/** Objects told apart by reference, and their places in the order of creation. */
module Identity {
  import opened Basics

  ghost predicate Distinct<T>(s: seq<T>) {
    forall i, j :: 0 <= i < j < |s| ==> s[i] != s[j]
  }

  ghost function IndexOf<T>(s: seq<T>, x: T): (i: nat)
    requires x in s
    ensures i < |s| && s[i] == x
  {
    var i :| 0 <= i < |s| && s[i] == x;
    i
  }

  ghost function PlaceOf<T>(s: seq<T>, x: T): Option<nat> {
    if x in s then Some(IndexOf(s, x)) else None
  }

  lemma PlaceStays<T>(s: seq<T>, longer: seq<T>, x: T)
    requires s <= longer && Distinct(longer) && x in s
    ensures x in longer && IndexOf(longer, x) == IndexOf(s, x)
  {
  }
}
