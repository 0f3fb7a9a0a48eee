/**
 * Path strings as the script handles them: joined with '/', split at the
 * last '/' (Python's str.rpartition('/')). Paths are compared as plain strings.
 */
module Paths {
  import opened Results

  /** Position of the last '/' in s, if any. */
  function LastSlash(s: string): (r: Option<nat>)
    ensures r.Some? ==> r.value < |s| && s[r.value] == '/'
    ensures r.Some? ==> forall j :: r.value < j < |s| ==> s[j] != '/'
    ensures r.None? <==> '/' !in s
  {
    if |s| == 0 then None
    else if s[|s| - 1] == '/' then Some(|s| - 1)
    else LastSlash(s[..|s| - 1])
  }

  /** rpartition('/')[-1]: what follows the last '/', or all of s when it has none. */
  function Basename(s: string): (r: string)
    ensures '/' !in r
    ensures |r| <= |s| && r == s[|s| - |r|..]
    ensures |r| < |s| ==> s[|s| - |r| - 1] == '/'
    ensures '/' !in s ==> r == s
  {
    match LastSlash(s)
    case None => s
    case Some(i) => s[i + 1..]
  }

  /** pathname + '/' + name */
  function Join(dir: string, name: string): string
  {
    dir + "/" + name
  }

  /** A name without '/' joined to dir splits back, at its last '/', into dir and name. */
  lemma {:induction false} JoinSplits(dir: string, name: string)
    requires '/' !in name
    ensures LastSlash(Join(dir, name)) == Some(|dir|)
    ensures Join(dir, name)[..|dir|] == dir
    ensures Basename(Join(dir, name)) == name
  {
    var p := Join(dir, name);
    assert p[|dir|] == '/';
    assert forall j :: |dir| < j < |p| ==> p[j] == name[j - |dir| - 1];
    var r := LastSlash(p);
    assert r.Some?;
    assert r.value == |dir|;
    assert p[|dir| + 1..] == name;
  }
}
