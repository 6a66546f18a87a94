/**
 * Lists of free-text tags (assessment skills, company values, awards) kept
 * free of duplicates and of blank entries: an entered text is trimmed and
 * appended unless it is blank or already listed; removal drops every equal
 * entry.
 */
module TagList {
  import opened Text
  import opened Seqs

  /** No entry occurs twice and none is blank. */
  predicate Clean(l: seq<string>) {
    NoDuplicates(l) && forall i :: 0 <= i < |l| ==> !IsBlank(l[i])
  }

  /** Adding `input` takes effect: it is not blank and its trimmed form is not yet listed. */
  predicate Accepts(l: seq<string>, input: string) {
    !IsBlank(input) && Trim(input) !in l
  }

  /**
   * `if (input.trim() && !list.includes(input.trim())) [...list, input.trim()]`:
   * the old list is kept as a prefix, at most the trimmed input is added, and
   * it is added exactly when the input is accepted.
   */
  function AddTrimmed(l: seq<string>, input: string): (r: seq<string>)
    ensures l <= r
    ensures |r| == |l| + (if Accepts(l, input) then 1 else 0)
    ensures forall x :: x in r <==> x in l || (x == Trim(input) && !IsBlank(input))
    ensures Clean(l) ==> Clean(r)
  {
    var t := Trim(input);
    if t != [] && t !in l then
      TrimmedNotBlank(input);
      var r := l + [t];
      assert Clean(l) ==> Clean(r) by {
        if Clean(l) {
          NoDuplicatesAppend(l, t);
          assert forall i :: 0 <= i < |l| ==> r[i] == l[i];
        }
      }
      r
    else
      l
  }

  /** Entering the same text twice adds it once. */
  lemma AddTrimmedIdempotent(l: seq<string>, input: string)
    ensures AddTrimmed(AddTrimmed(l, input), input) == AddTrimmed(l, input)
  {
    var r := AddTrimmed(l, input);
    if !IsBlank(input) {
      assert Trim(input) in r;
    }
  }

  /** `list.filter(x => x !== removed)` keeps a clean list clean. */
  lemma RemoveKeepsClean(l: seq<string>, removed: string)
    requires Clean(l)
    ensures Clean(Without(l, removed))
  {
    var r := Without(l, removed);
    SubseqNoDuplicates(r, l);
    SubseqBounds(r, l);
    forall i | 0 <= i < |r| ensures !IsBlank(r[i]) {
      assert r[i] in l;
    }
  }

  /** Adding an accepted text and then removing it restores the list. */
  lemma AddThenRemove(l: seq<string>, input: string)
    requires Accepts(l, input)
    ensures Without(AddTrimmed(l, input), Trim(input)) == l
  {
    WithoutAppended(l, Trim(input));
  }
}
