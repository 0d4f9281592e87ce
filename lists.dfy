/** Filtering out empty strings, and a concatenation fact the chunking proofs use. */
module Lists {

  /** A string is kept when it is not empty (Python's truthiness of `str`). */
  function Keep(chunk: string): seq<string> {
    if |chunk| > 0 then [chunk] else []
  }

  /** The non-empty strings of `ws` from index `j` on, in order. */
  function NonEmptyFrom(ws: seq<string>, j: nat): seq<string>
    requires j <= |ws|
    decreases |ws| - j
  {
    if j == |ws| then [] else Keep(ws[j]) + NonEmptyFrom(ws, j + 1)
  }

  /** The non-empty strings of `ws`, in order. */
  function NonEmpty(ws: seq<string>): seq<string> {
    NonEmptyFrom(ws, 0)
  }

  /**
   * Filtering keeps no more than it is given, keeps only non-empty strings
   * taken from `ws`, and keeps every non-empty one.
   */
  lemma {:induction false} NonEmptyFromSpec(ws: seq<string>, j: nat)
    requires j <= |ws|
    ensures |NonEmptyFrom(ws, j)| <= |ws| - j
    ensures forall c :: c in NonEmptyFrom(ws, j) <==> exists k :: j <= k < |ws| && ws[k] == c && c != ""
    decreases |ws| - j
  {
    if j < |ws| {
      NonEmptyFromSpec(ws, j + 1);
      var rest := NonEmptyFrom(ws, j + 1);
      assert NonEmptyFrom(ws, j) == Keep(ws[j]) + rest;
      forall c | c in NonEmptyFrom(ws, j)
        ensures exists k :: j <= k < |ws| && ws[k] == c && c != ""
      {
        if c !in rest {
          assert c == ws[j] && c != "";
        }
      }
    }
  }

  /** Nothing is left exactly when every string from `j` on is empty. */
  lemma {:induction false} NonEmptyFromEmpty(ws: seq<string>, j: nat)
    requires j <= |ws|
    ensures NonEmptyFrom(ws, j) == [] <==> forall k :: j <= k < |ws| ==> ws[k] == ""
    decreases |ws| - j
  {
    if j < |ws| {
      NonEmptyFromEmpty(ws, j + 1);
    }
  }

  /**
   * An accumulator invariant survives one step: if `before` and the rest
   * make the total, and the rest is `kept` followed by `next`, then
   * `before + kept` and `next` make the total.
   */
  lemma AppendStep(before: seq<string>, kept: seq<string>, rest: seq<string>, next: seq<string>, total: seq<string>)
    requires before + rest == total && rest == kept + next
    ensures (before + kept) + next == total
  {
    assert before + (kept + next) == (before + kept) + next;
  }
}
