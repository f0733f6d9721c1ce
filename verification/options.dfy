/** A value that may be missing: a nil pointer, a NaN, a lookup that found nothing. And where
    a member of a list is. */
module Options {

  datatype Option<+T> = None | Some(value: T)

  /** A member of a list has a place in it. */
  lemma MemberIndex<T>(s: seq<T>, x: T) returns (i: nat)
    requires x in s
    ensures i < |s| && s[i] == x
  {
    i :| i < |s| && s[i] == x;
  }
}
