/** URL paths as lists of segments: the splitting step of the router's path trie. */
module Paths {

  /** A trie key: the non-empty, slash-free segments of a path, the last one outermost. */
  datatype Key = Top | Sub(up: Key, name: string)

  /** The key one segment further; an empty segment does not count. */
  function Extend(at: Key, part: string): Key {
    if part == "" then at else Sub(at, part)
  }

  /** p is key, or one of the keys that lead to it. */
  predicate Leads(p: Key, key: Key) {
    p == key || (key.Sub? && Leads(p, key.up))
  }

  function Depth(key: Key): nat {
    if key.Top? then 0 else Depth(key.up) + 1
  }

  /** Position of the first occurrence of c in s, or -1. */
  function IndexOf(s: string, c: char): (r: int)
    ensures -1 <= r < |s|
    ensures r == -1 ==> forall k | 0 <= k < |s| :: s[k] != c
    ensures 0 <= r ==> s[r] == c && forall k | 0 <= k < r :: s[k] != c
  {
    if s == "" then -1
    else if s[0] == c then 0
    else
      var rest := IndexOf(s[1..], c);
      if rest == -1 then -1 else rest + 1
  }

  /** One step of the splitting loop: the segment that starts at `start`, and
      where to continue, -1 meaning that this was the last segment. */
  function Slice(path: string, start: int): (r: (string, int))
    ensures r.1 == -1 || (0 <= start && start < r.1 <= |path|)
  {
    if |path| == 0 || start < 0 || start >= |path| then ("", -1)
    else
      var end := IndexOf(path[start..], '/');
      if end == -1 then (path[start..], -1)
      else (path[start..start + end], start + end + 1)
  }

  /** The key reached from `at` by the non-empty segments of a path. */
  function Walk(at: Key, path: string): Key
    decreases |path|
  {
    var end := IndexOf(path, '/');
    if end == -1 then Extend(at, path)
    else Walk(Extend(at, path[..end]), path[end + 1..])
  }

  /** The key of a path. */
  function Segments(path: string): Key {
    Walk(Top, path)
  }

  /** The key that the splitting loop reaches when it stands at `at` and continues at `next`. */
  ghost function Onward(at: Key, path: string, next: int): Key
    requires -1 <= next <= |path|
  {
    if next == -1 then at else Walk(at, path[next..])
  }

  /** The splitting loop takes one segment at a time towards the key. */
  lemma {:induction false} SliceStep(at: Key, path: string, next: nat)
    requires next <= |path|
    ensures Onward(at, path, next) == Onward(Extend(at, Slice(path, next).0), path, Slice(path, next).1)
  {
    if next < |path| {
      var tail := path[next..];
      var end := IndexOf(tail, '/');
      if end != -1 {
        assert tail[..end] == path[next..next + end];
        assert tail[end + 1..] == path[next + end + 1..];
      }
    }
  }

  /** The splitting loop only goes down. */
  lemma {:induction false} WalkLeads(at: Key, path: string)
    ensures Leads(at, Walk(at, path))
    decreases |path|
  {
    var end := IndexOf(path, '/');
    if end != -1 {
      var next := Extend(at, path[..end]);
      WalkLeads(next, path[end + 1..]);
      LeadsTrans(at, next, Walk(at, path));
    }
  }

  lemma {:induction false} OnwardLeads(at: Key, path: string, next: int)
    requires -1 <= next <= |path|
    ensures Leads(at, Onward(at, path, next))
  {
    if next != -1 {
      WalkLeads(at, path[next..]);
    }
  }

  lemma {:induction false} LeadsTrans(p: Key, q: Key, k: Key)
    requires Leads(p, q) && Leads(q, k)
    ensures Leads(p, k)
  {
    if q != k {
      LeadsTrans(p, q, k.up);
    }
  }

  lemma {:induction false} LeadsDepth(p: Key, k: Key)
    requires Leads(p, k)
    ensures Depth(p) <= Depth(k)
  {
    if p != k {
      LeadsDepth(p, k.up);
    }
  }

  lemma {:induction false} FirstSlash(w: string, q: string)
    requires '/' !in w
    ensures IndexOf(w + "/" + q, '/') == |w|
  {
    var path := w + "/" + q;
    assert path[|w|] == '/';
    assert forall k | 0 <= k < |w| :: path[k] == w[k];
  }

  /** Splitting is a homomorphism: a slash separates segments wherever it stands. */
  lemma {:induction false} WalkJoin(at: Key, p: string, q: string)
    ensures Walk(at, p + "/" + q) == Walk(Walk(at, p), q)
    decreases |p|
  {
    var path := p + "/" + q;
    var cut := IndexOf(p, '/');
    if cut == -1 {
      FirstSlash(p, q);
      assert path[..|p|] == p && path[|p| + 1..] == q;
    } else {
      var w, rest := p[..cut], p[cut + 1..];
      assert path == w + "/" + (rest + "/" + q);
      FirstSlash(w, rest + "/" + q);
      assert path[..cut] == w && path[cut + 1..] == rest + "/" + q;
      WalkJoin(Extend(at, w), rest, q);
    }
  }

  /** The path that spells a key: every segment preceded by a slash. */
  function Spell(key: Key): string {
    if key.Top? then "" else Spell(key.up) + "/" + key.name
  }

  ghost predicate Proper(key: Key) {
    key.Sub? ==> key.name != "" && '/' !in key.name && Proper(key.up)
  }

  /** Splitting undoes spelling: every list of proper segments is the key of a path. */
  lemma {:induction false} SegmentsOfSpell(key: Key)
    requires Proper(key)
    ensures Segments(Spell(key)) == key
  {
    if key.Sub? {
      SegmentsOfSpell(key.up);
      WalkJoin(Top, Spell(key.up), key.name);
      assert IndexOf(key.name, '/') == -1;
    }
  }

  lemma {:induction false} WalkIsProper(at: Key, path: string)
    requires Proper(at)
    ensures Proper(Walk(at, path))
    decreases |path|
  {
    var end := IndexOf(path, '/');
    if end != -1 {
      assert '/' !in path[..end];
      WalkIsProper(Extend(at, path[..end]), path[end + 1..]);
    }
  }
}
