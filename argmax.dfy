/** The arg-max that Segmentation::Classify takes of every pixel's score
    vector with std::max_element: the first position holding a largest
    score, so that equal scores resolve to the lowest channel. */
module ArgMax {

  /** k is a largest element of s and no earlier element is as large. */
  ghost predicate IsFirstMax(s: seq<real>, k: int) {
    && 0 <= k < |s|
    && (forall j :: 0 <= j < |s| ==> s[j] <= s[k])
    && (forall j :: 0 <= j < k ==> s[j] < s[k])
  }

  /** Offset of the iterator std::max_element returns. On an empty range it
      returns the end iterator, whose offset from the beginning is 0. */
  function FirstMax(s: seq<real>): (k: nat)
    ensures |s| == 0 ==> k == 0
    ensures |s| > 0 ==> IsFirstMax(s, k)
  {
    if |s| <= 1 then 0
    else
      var k := FirstMax(s[..|s| - 1]);
      if s[k] < s[|s| - 1] then |s| - 1 else k
  }

  /** The scan std::max_element performs: keep the current largest and move
      only to a strictly larger element. */
  method MaxElement(s: seq<real>) returns (k: nat)
    ensures k == FirstMax(s)
    ensures |s| > 0 ==> IsFirstMax(s, k)
  {
    if |s| == 0 {
      return 0;
    }
    k := 0;
    var i := 1;
    while i < |s|
      invariant 1 <= i <= |s|
      invariant k == FirstMax(s[..i])
    {
      assert s[..i + 1][..i] == s[..i];
      if s[k] < s[i] {
        k := i;
      }
      i := i + 1;
    }
    assert s[..|s|] == s;
  }

  /** The first-maximum property pins the index down: any index that has it
      is the one FirstMax reports. */
  lemma FirstMaxUnique(s: seq<real>, k: int)
    requires IsFirstMax(s, k)
    ensures k == FirstMax(s)
  {
  }

  /** When two channels share the top score, the later one never wins. */
  lemma TieGoesToLowerChannel(s: seq<real>, i: int, j: int)
    requires 0 <= i < j < |s|
    requires s[i] == s[j]
    ensures FirstMax(s) != j
  {
  }
}
