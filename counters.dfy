/**
 * The per-level numbering shared by both outline builders: a new entry at a
 * level counts one more at that level and restarts every deeper level.
 */
module Counters {

  /** The number of levels both builders number (`[0 for i in xrange(5)]`). */
  const DEPTH: nat := 5

  /** The counters after an entry at `level`: that level incremented, deeper levels zero, shallower levels kept. */
  function Advance(c: seq<int>, level: nat): (r: seq<int>)
    requires level < |c|
    ensures |r| == |c|
    ensures r[level] == c[level] + 1
    ensures forall j :: 0 <= j < level ==> r[j] == c[j]
    ensures forall j :: level < j < |c| ==> r[j] == 0
  {
    c[..level] + [c[level] + 1] + seq(|c| - level - 1, _ => 0)
  }

  function Zeros(): (r: seq<int>)
    ensures |r| == DEPTH && forall j :: 0 <= j < DEPTH ==> r[j] == 0
  {
    seq(DEPTH, _ => 0)
  }
}
