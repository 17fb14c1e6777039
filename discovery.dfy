/** Finding the installed source and target servers (main.go:91-123). */
module Discovery {
  import opened Common

  /** The candidate loops of main.go:94-101 and main.go:111-118: the chosen
      candidate is the first, in list order, whose `Present()` holds.
      `present[k]` is what the k-th candidate answers. */
  method FirstPresent(present: seq<bool>) returns (found: Option<nat>)
    ensures found.None? <==> true !in present
    ensures found.Some? ==> (found.value < |present| && present[found.value]
      && forall k :: 0 <= k < found.value ==> !present[k])
  {
    found := None;
    for i := 0 to |present|
      invariant found.None?
      invariant forall k :: 0 <= k < i ==> !present[k]
    {
      if !present[i] {
        continue;
      }
      found := Some(i);
      break;
    }
  }
}
