/** The selection rule shared by `max(results, key=...)` and `np.argmax`:
    the first index whose value is maximal. */
module Selection {

  /** `k` holds a largest value, and every earlier value is strictly smaller. */
  predicate IsFirstMax(s: seq<real>, k: int) {
    && 0 <= k < |s|
    && (forall j :: 0 <= j < |s| ==> s[j] <= s[k])
    && (forall j :: 0 <= j < k ==> s[j] < s[k])
  }

  /** Scans left to right and moves only on a strictly larger value. */
  function FirstMax(s: seq<real>): (k: nat)
    requires |s| > 0
    ensures IsFirstMax(s, k)
  {
    if |s| == 1 then 0
    else
      var k := FirstMax(s[..|s| - 1]);
      if s[|s| - 1] > s[k] then |s| - 1 else k
  }

  /** The first maximum is unique, so any index with that property is FirstMax. */
  lemma FirstMaxUnique(s: seq<real>, k: int)
    requires IsFirstMax(s, k)
    ensures k == FirstMax(s)
  {
  }
}
