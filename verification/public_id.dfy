/**
 The identifier `deletePlace` hands to the image store's destroy call:
 `imagePath.split("/").pop().split(".")[0]`.
 */
module PublicId {

  /** What `split(c).pop()` returns: the text after the last `c`, or all of `s` when there is none. */
  function AfterLast(s: string, c: char): (r: string)
    ensures c !in r
    ensures |r| <= |s| && r == s[|s| - |r|..]
    ensures |r| < |s| ==> s[|s| - |r| - 1] == c
  {
    if s == [] then []
    else if s[|s| - 1] == c then []
    else AfterLast(s[..|s| - 1], c) + [s[|s| - 1]]
  }

  /** What `split(c)[0]` returns: the text before the first `c`, or all of `s` when there is none. */
  function BeforeFirst(s: string, c: char): (r: string)
    ensures c !in r
    ensures |r| <= |s| && r == s[..|r|]
    ensures |r| < |s| ==> s[|r|] == c
  {
    if s == [] then []
    else if s[0] == c then []
    else [s[0]] + BeforeFirst(s[1..], c)
  }

  /** The public id taken from an image URL. */
  function PublicIdOf(url: string): (r: string)
    // free of both separators
    ensures '/' !in r && '.' !in r
  {
    BeforeFirst(AfterLast(url, '/'), '.')
  }

  /** Text after the last separator: everything following a separator that
      does not occur again. */
  lemma {:induction false} AfterLastOfSuffix(p: string, c: char, q: string)
    requires c !in q
    ensures AfterLast(p + [c] + q, c) == q
  {
    var s := p + [c] + q;
    if q == [] {
      assert s[|s| - 1] == c;
    } else {
      assert s[..|s| - 1] == p + [c] + q[..|q| - 1];
      assert s[|s| - 1] == q[|q| - 1];
      AfterLastOfSuffix(p, c, q[..|q| - 1]);
      assert q == q[..|q| - 1] + [q[|q| - 1]];
    }
  }

  /** Text before the first separator: everything preceding a separator that
      has not occurred earlier. */
  lemma {:induction false} BeforeFirstOfPrefix(q: string, c: char, p: string)
    requires c !in q
    ensures BeforeFirst(q + [c] + p, c) == q
  {
    var s := q + [c] + p;
    if q == [] {
      assert s[0] == c;
    } else {
      assert s[1..] == q[1..] + [c] + p;
      assert s[0] == q[0];
      BeforeFirstOfPrefix(q[1..], c, p);
      assert q == [q[0]] + q[1..];
    }
  }

  /** For a URL whose last segment is `name.ext`, the public id is `name`. */
  lemma PublicIdOfDeliveryUrl(base: string, name: string, ext: string)
    requires '/' !in name && '.' !in name && '/' !in ext
    ensures PublicIdOf(base + "/" + name + "." + ext) == name
  {
    var last := name + "." + ext;
    assert base + "/" + name + "." + ext == base + ['/'] + last;
    AfterLastOfSuffix(base, '/', last);
    assert last == name + ['.'] + ext;
    BeforeFirstOfPrefix(name, '.', ext);
  }
}
