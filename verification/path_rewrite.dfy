/**
 * PathRewrite (middleware/path_rewrite.go): the request's URL path has its
 * first occurrence of one string replaced by another
 * (`strings.Replace(path, old, new, 1)`), and `next` serves the rewritten
 * request.
 */
module PathRewrite {
  import opened Common
  import opened Text
  import opened NetHttp

  /**
   * `strings.Replace(s, target, replacement, 1)`: nothing to do when the two
   * strings are equal or `target` does not occur; otherwise the leftmost
   * occurrence is replaced. An empty `target` occurs at position 0.
   */
  function ReplaceFirst(s: string, target: string, replacement: string): (r: string)
    ensures |r| == if Index(s, target).Some? then |s| - |target| + |replacement| else |s|
  {
    if target == replacement then s
    else match Index(s, target)
      case None => s
      case Some(i) => s[..i] + replacement + s[i + |target|..]
  }

  /** A path in which `target` does not occur is left as it is. */
  lemma AbsentUnchanged(s: string, target: string, replacement: string)
    requires forall j: nat :: !OccursAt(s, target, j)
    ensures ReplaceFirst(s, target, replacement) == s
  {
    IndexFromLeftmost(s, target, 0);
  }

  /**
   * The leftmost occurrence, and only that one, is replaced: whatever stands
   * before and after it, later occurrences included, is kept.
   */
  lemma LeftmostReplaced(s: string, target: string, replacement: string, i: nat)
    requires OccursAt(s, target, i)
    requires forall j: nat | j < i :: !OccursAt(s, target, j)
    ensures ReplaceFirst(s, target, replacement) == s[..i] + replacement + s[i + |target|..]
  {
    IndexFromLeftmost(s, target, 0);
    var k := Index(s, target).value;
    assert k == i;
    if target == replacement {
      assert s == s[..i] + s[i..i + |target|] + s[i + |target|..];
    }
  }

  /** A path that starts with `target` has that prefix replaced; an empty `target` prepends `replacement`. */
  lemma PrefixReplaced(s: string, target: string, replacement: string)
    requires HasPrefix(s, target)
    ensures ReplaceFirst(s, target, replacement) == replacement + s[|target|..]
  {
    assert OccursAt(s, target, 0);
    LeftmostReplaced(s, target, replacement, 0);
    assert s[..0] == [];
  }

  /** With n = 1 a second occurrence survives: "/a/a" with "/a" replaced by "/b" is "/b/a". */
  lemma OnlyFirstOccurrence()
    ensures ReplaceFirst("/a/a", "/a", "/b") == "/b/a"
  {
    var s := "/a/a";
    assert HasPrefix(s, "/a");
    PrefixReplaced(s, "/a", "/b");
    assert s[2..] == "/a";
  }

  /** The handler PathRewrite(target, replacement) wraps around `next`: it rewrites the path in place, then calls `next`. */
  method Serve(r: Request, target: string, replacement: string)
    modifies r`path
    ensures r.path == ReplaceFirst(old(r.path), target, replacement)
  {
    r.path := ReplaceFirst(r.path, target, replacement);
  }
}
