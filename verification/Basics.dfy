/** Shared helper datatypes and finite-set facts. */
module Basics {

  datatype Option<+T> = None | Some(value: T)

  lemma SubsetSize<T>(s: set<T>, t: set<T>)
    requires s <= t
    ensures |s| <= |t|
  {
    if s != {} {
      var x :| x in s;
      SubsetSize(s - {x}, t - {x});
    }
  }

  /** What a remote write does: it is accepted, or fails after or before it took effect. */
  datatype Reply = Accepts | FailsAfter | FailsBefore
}
