/** What Logger::removeOldFiles does to a directory listing ordered oldest
    first (backend/logger.cpp). */
module Retention {

  /** maxFileCount: how many files the logs directory keeps before a new one is opened. */
  const MaxFileCount: nat := 99

  /** Directory entries have distinct names. */
  predicate Distinct(s: seq<string>)
  {
    forall i, j :: 0 <= i < j < |s| ==> s[i] != s[j]
  }

  /** The directory listing after the file `name` is removed. */
  function Without(s: seq<string>, name: string): (r: seq<string>)
    ensures name !in r
    ensures forall x :: x in r <==> x in s && x != name
    ensures |r| <= |s|
  {
    if s == [] then []
    else if s[0] == name then Without(s[1..], name)
    else [s[0]] + Without(s[1..], name)
  }

  /** Removing the oldest entry of a listing with distinct names leaves the rest, in order. */
  lemma {:induction false} WithoutFirst(s: seq<string>)
    requires Distinct(s) && |s| > 0
    ensures Without(s, s[0]) == s[1..]
    ensures Distinct(s[1..])
  {
    WithoutAbsent(s[1..], s[0]);
  }

  lemma {:induction false} WithoutAbsent(s: seq<string>, name: string)
    requires name !in s
    ensures Without(s, name) == s
  {
    if s != [] {
      assert s[0] != name;
      WithoutAbsent(s[1..], name);
      assert [s[0]] + s[1..] == s;
    }
  }

  /** The index of the first of files[0..limit) whose removal fails, or `limit`
      when every one of them can be removed. */
  function FirstUndeletable(files: seq<string>, undeletable: set<string>, limit: nat): (i: nat)
    requires limit <= |files|
    ensures i <= limit
    ensures i < limit ==> files[i] in undeletable
    ensures forall j :: 0 <= j < i ==> files[j] !in undeletable
  {
    if limit == 0 then 0
    else
      var i := FirstUndeletable(files, undeletable, limit - 1);
      if i < limit - 1 then i
      else if files[limit - 1] in undeletable then limit - 1
      else limit
  }

  /** The result of a pruning pass: whether it succeeded and how many of the
      oldest files it removed. */
  datatype PruneOutcome = PruneOutcome(ok: bool, removed: nat)

  /** removeOldFiles on a listing ordered oldest first, where removing a name in
      `undeletable` fails: it removes the excess files from the front and stops
      at the first one it cannot remove. */
  function Prune(files: seq<string>, undeletable: set<string>): (r: PruneOutcome)
    ensures |files| <= MaxFileCount ==> r == PruneOutcome(true, 0)
    ensures r.ok <==> forall j :: 0 <= j < |files| - MaxFileCount ==> files[j] !in undeletable
    ensures r.removed <= |files|
    ensures r.ok ==> r.removed == if |files| <= MaxFileCount then 0 else |files| - MaxFileCount
    ensures r.ok ==> |files[r.removed..]| <= MaxFileCount
    ensures !r.ok ==> r.removed < |files| - MaxFileCount && files[r.removed] in undeletable
    ensures forall j :: 0 <= j < r.removed ==> files[j] !in undeletable
  {
    if |files| <= MaxFileCount then PruneOutcome(true, 0)
    else
      var excess := |files| - MaxFileCount;
      var i := FirstUndeletable(files, undeletable, excess);
      PruneOutcome(i == excess, i)
  }
}
