/** The entry-point choice both managers make: scan the candidates in order,
    take the first eligible one whose flag is true, otherwise fall back to the
    first eligible one. */
module Selection {
  import opened Wrappers

  /** The index of the first element satisfying `p`. */
  function FirstIndex<T>(s: seq<T>, p: T -> bool): (r: Option<nat>)
    ensures r.Some? ==> r.value < |s| && p(s[r.value])
    ensures r.Some? ==> forall j :: 0 <= j < r.value ==> !p(s[j])
    ensures r.None? <==> forall j :: 0 <= j < |s| ==> !p(s[j])
  {
    if s == [] then None
    else if p(s[0]) then Some(0)
    else
      var rest := FirstIndex(s[1..], p);
      assert forall j :: 1 <= j < |s| ==> s[j] == s[1..][j - 1];
      if rest.Some? then Some(rest.value + 1) else None
  }

  /** The first index satisfying `p` is the only index that satisfies `p`
      with nothing before it satisfying `p`. */
  lemma FirstIndexUnique<T>(s: seq<T>, p: T -> bool, i: nat)
    requires i < |s| && p(s[i])
    requires forall j :: 0 <= j < i ==> !p(s[j])
    ensures FirstIndex(s, p) == Some(i)
  {
  }

  /** Extending the scanned prefix by one element. */
  lemma FirstIndexExtend<T>(s: seq<T>, p: T -> bool, i: nat)
    requires i < |s|
    ensures FirstIndex(s[..i + 1], p)
         == if FirstIndex(s[..i], p).Some? then FirstIndex(s[..i], p)
            else if p(s[i]) then Some(i) else None
  {
    var pre := s[..i];
    var ext := s[..i + 1];
    assert forall j :: 0 <= j < i ==> ext[j] == pre[j];
    var r := FirstIndex(pre, p);
    if r.Some? {
      FirstIndexUnique(ext, p, r.value);
    } else if p(s[i]) {
      FirstIndexUnique(ext, p, i);
    } else {
      assert forall j :: 0 <= j < i + 1 ==> !p(ext[j]);
    }
  }

  /** The index the scan settles on: the first eligible and flagged
      candidate, otherwise the first eligible one, otherwise none. */
  function SelectFlaggedOrFirst<T>(s: seq<T>, eligible: T -> bool, flagged: T -> bool): (r: Option<nat>)
    ensures r.Some? ==> r.value < |s| && eligible(s[r.value])
    ensures r.None? <==> forall j :: 0 <= j < |s| ==> !eligible(s[j])
    ensures (exists j :: 0 <= j < |s| && eligible(s[j]) && flagged(s[j])) ==>
              r.Some? && flagged(s[r.value]) &&
              forall j :: 0 <= j < r.value ==> !(eligible(s[j]) && flagged(s[j]))
    ensures (forall j :: 0 <= j < |s| ==> !(eligible(s[j]) && flagged(s[j]))) ==>
              r.Some? ==> forall j :: 0 <= j < r.value ==> !eligible(s[j])
  {
    var both := FirstIndex(s, x => eligible(x) && flagged(x));
    if both.Some? then
      assert eligible(s[both.value]);
      both
    else FirstIndex(s, eligible)
  }

  /** A flagged eligible candidate with none before it is the choice. */
  lemma SelectFlagged<T>(s: seq<T>, eligible: T -> bool, flagged: T -> bool, i: nat)
    requires i < |s| && eligible(s[i]) && flagged(s[i])
    requires forall j :: 0 <= j < i ==> !(eligible(s[j]) && flagged(s[j]))
    ensures SelectFlaggedOrFirst(s, eligible, flagged) == Some(i)
  {
  }

  /** With no flagged eligible candidate the choice is the first eligible one. */
  lemma SelectFallback<T>(s: seq<T>, eligible: T -> bool, flagged: T -> bool)
    requires forall j :: 0 <= j < |s| ==> !(eligible(s[j]) && flagged(s[j]))
    ensures SelectFlaggedOrFirst(s, eligible, flagged) == FirstIndex(s, eligible)
  {
  }

  /** Extending a prefix with no flagged eligible candidate by one more
      candidate that is not both. */
  lemma NoneFlaggedExtend<T>(s: seq<T>, eligible: T -> bool, flagged: T -> bool, i: nat)
    requires i < |s| && !(eligible(s[i]) && flagged(s[i]))
    requires forall j :: 0 <= j < i ==> !(eligible(s[j]) && flagged(s[j]))
    ensures forall j :: 0 <= j < i + 1 ==> !(eligible(s[j]) && flagged(s[j]))
  {
  }
}
