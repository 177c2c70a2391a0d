/**
 * The entry data model the user-interface code reads: concrete entries,
 * their groups, errors, and entry predicates.
 */
module Entries {
  import opened Wrappers

  /** One concrete installable or removable unit (a BzEntry). */
  datatype Entry = Entry(
    uniqueId: string,
    id: string,
    title: string,
    installed: bool,
    holding: bool,              // already involved in a pending transaction
    donationUrl: Option<string>,
    addons: Option<nat>,        // the addon list, when there is one, by its number of items
    hasIcon: bool)

  /**
   * A logical package identity (a BzEntryGroup). Its entries are not part of
   * the value: they are materialised asynchronously, and every fetch is an
   * input of the operation that performs it.
   */
  datatype Group = Group(id: string, title: string, installable: int, removable: int)

  /** The GError domains and codes the core raises; External covers errors of collaborators. */
  datatype ErrorKind = IoUnknown | IoNotFound | IoCancelled | External
  datatype Error = Error(kind: ErrorKind, message: string)

  /** The result of materialising a group's entries (bz_entry_group_dup_all_into_store). */
  type Fetch = Result<seq<Entry>, Error>

  /** An entry predicate such as test_is_support; None is the NULL test. */
  type Test = Option<Entry -> bool>

  /** A NULL test accepts every entry. */
  predicate Accepts(test: Test, e: Entry)
  {
    test.None? || test.value(e)
  }

  /** `r` is obtained from `s` by deleting elements, keeping the order of the rest. */
  predicate IsSubsequence<T(==)>(r: seq<T>, s: seq<T>)
    decreases |s|
  {
    if r == [] then true
    else if s == [] then false
    else if r[|r| - 1] == s[|s| - 1] && IsSubsequence(r[..|r| - 1], s[..|s| - 1]) then true
    else IsSubsequence(r, s[..|s| - 1])
  }

  /** A subsequence of `s` is also one of `s` extended at the end. */
  lemma SubsequenceOfExtension<T>(r: seq<T>, s: seq<T>, x: T)
    requires IsSubsequence(r, s)
    ensures IsSubsequence(r, s + [x])
  {
    if r != [] {
      assert (s + [x])[..|s + [x]| - 1] == s;
    }
  }
}
