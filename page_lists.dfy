/**
 * List-state helpers shared by the projects and teams screens: the JavaScript
 * `||` on optional strings that picks a record's key (`x.id || x._id`), and
 * the delete that keeps the records whose key differs from the deleted id.
 */
module PageLists {
  import opened Wrappers
  import Sequences

  /** `a || b` on values that are a string or `undefined`: the empty string is falsy too. */
  function Or(a: Option<string>, b: Option<string>): Option<string> {
    if a.Some? && a.value != "" then a else b
  }

  /** `a || ""`. */
  function OrEmpty(a: Option<string>): string {
    if a.Some? then a.value else ""
  }

  /** `list.filter(x => (x.id || x._id) !== id)` with `key` standing for `x.id || x._id`. */
  function Without<T>(list: seq<T>, key: T -> Option<string>, id: string): (r: seq<T>)
    ensures Sequences.IsSubsequence(r, list)
    ensures forall x :: x in r ==> x in list && key(x) != Some(id)
    ensures forall x :: x in list && key(x) != Some(id) ==> x in r
  {
    Sequences.FilterIsSubsequence(list, (x: T) => key(x) != Some(id));
    Sequences.Filter(list, (x: T) => key(x) != Some(id))
  }

  /** Deleting the same id a second time changes nothing. */
  lemma DeleteTwiceIsDeleteOnce<T>(list: seq<T>, key: T -> Option<string>, id: string)
    ensures Without(Without(list, key, id), key, id) == Without(list, key, id)
  {
    Sequences.FilterIdempotent(list, (x: T) => key(x) != Some(id));
  }
}
