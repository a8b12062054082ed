/**
 * The recent-projects list shown in the "recent projects" combo box: most
 * recent first, at most ten entries when it starts with at most ten.
 */
module Recent {
  import opened Sequences

  const MaxRecentProjects := 10

  /**
   * The list after saving or loading the project at `path`: a path already
   * listed changes nothing; a new one goes in front of the others, which
   * keep their order, and when that makes the list longer than ten the
   * last (oldest) entry is dropped.
   */
  function Remembered(recent: seq<string>, path: string): (r: seq<string>)
    ensures path in r
    ensures path in recent ==> r == recent
    ensures path !in recent ==>
              |r| == if |recent| < MaxRecentProjects then |recent| + 1 else |recent|
    ensures path !in recent ==> r[0] == path && r[1..] == recent[..|r| - 1]
    ensures |recent| <= MaxRecentProjects ==> |r| <= MaxRecentProjects
  {
    if path in recent then recent
    else
      var grown := [path] + recent;
      if |grown| > MaxRecentProjects then
        assert grown[..|grown| - 1][0] == path;
        grown[..|grown| - 1]
      else grown
  }

  /** No path is ever listed twice. */
  lemma RememberedNoDuplicates(recent: seq<string>, path: string)
    requires NoDuplicates(recent)
    ensures NoDuplicates(Remembered(recent, path))
  {
    var r := Remembered(recent, path);
    if path !in recent {
      forall i, j | 0 <= i < j < |r| ensures r[i] != r[j] {
        assert r[j] == recent[j - 1];
        if i > 0 {
          assert r[i] == recent[i - 1];
        }
      }
    }
  }

  /** Every entry that stays was already listed, apart from `path` itself. */
  lemma RememberedFrom(recent: seq<string>, path: string, x: string)
    requires x in Remembered(recent, path)
    ensures x == path || x in recent
  {
    var r := Remembered(recent, path);
    if path !in recent && x != path {
      var k :| 0 <= k < |r| && r[k] == x;
      assert r[k] == r[1..][k - 1] == recent[k - 1];
    }
  }
}
