/** Small value types and facts about sequences shared by every module. */
module Common {

  datatype Option<+T> = None | Some(value: T)

  datatype Result<+T, +E> = Ok(value: T) | Err(error: E)

  /** `sub` occurs inside `s` starting at offset `i`. */
  ghost predicate OccursAt<T>(s: seq<T>, sub: seq<T>, i: int)
  {
    0 <= i <= |s| - |sub| && s[i..i + |sub|] == sub
  }

  /** `sub` occurs somewhere inside `s`. */
  ghost predicate Contains<T>(s: seq<T>, sub: seq<T>)
  {
    exists i :: OccursAt(s, sub, i)
  }

  /** Whatever surrounds it, a piece placed in the middle of a concatenation occurs in it. */
  lemma ContainsInfix<T>(pre: seq<T>, sub: seq<T>, post: seq<T>)
    ensures Contains(pre + sub + post, sub)
  {
    var s := pre + sub + post;
    assert OccursAt(s, sub, |pre|);
  }

  /** A piece placed in the middle of a concatenation occurs right after what precedes it. */
  lemma OccursInfix<T>(pre: seq<T>, sub: seq<T>, post: seq<T>)
    ensures OccursAt(pre + sub + post, sub, |pre|)
  {
  }

  /** The right operand of a concatenation occurs right after the left one. */
  lemma OccursRight<T>(pre: seq<T>, sub: seq<T>)
    ensures OccursAt(pre + sub, sub, |pre|)
  {
  }

  /** An occurrence stays where it is when something is appended. */
  lemma OccursExtend<T>(s: seq<T>, sub: seq<T>, i: int, post: seq<T>)
    requires OccursAt(s, sub, i)
    ensures OccursAt(s + post, sub, i)
  {
    assert (s + post)[i..i + |sub|] == s[i..i + |sub|];
  }

  /** An occurrence moves right by the length of what is prepended. */
  lemma OccursPrepend<T>(pre: seq<T>, s: seq<T>, sub: seq<T>, i: int)
    requires OccursAt(s, sub, i)
    ensures OccursAt(pre + s, sub, |pre| + i)
  {
    assert (pre + s)[|pre| + i..|pre| + i + |sub|] == s[i..i + |sub|];
  }

  /** A concatenation starts with its left operand. */
  lemma PrefixOfAppend<T>(s: seq<T>, t: seq<T>, post: seq<T>)
    requires s <= t
    ensures s <= t + post
  {
    assert (t + post)[..|s|] == t[..|s|];
  }

  /** The right operand of a concatenation occurs in it. */
  lemma ContainsRight<T>(pre: seq<T>, sub: seq<T>)
    ensures Contains(pre + sub, sub)
  {
    assert OccursAt(pre + sub, sub, |pre|);
  }

  /** Appending to a sequence keeps every occurrence inside it. */
  lemma ContainsExtend<T>(s: seq<T>, sub: seq<T>, post: seq<T>)
    requires Contains(s, sub)
    ensures Contains(s + post, sub)
  {
    var i :| OccursAt(s, sub, i);
    assert (s + post)[i..i + |sub|] == s[i..i + |sub|];
    assert OccursAt(s + post, sub, i);
  }

  /** Prepending to a sequence keeps every occurrence inside it. */
  lemma ContainsPrepend<T>(pre: seq<T>, s: seq<T>, sub: seq<T>)
    requires Contains(s, sub)
    ensures Contains(pre + s, sub)
  {
    var i :| OccursAt(s, sub, i);
    assert (pre + s)[|pre| + i..|pre| + i + |sub|] == s[i..i + |sub|];
    assert OccursAt(pre + s, sub, |pre| + i);
  }

  /** An element of `sub` is an element of every sequence containing `sub`. */
  lemma ContainsElement<T>(s: seq<T>, sub: seq<T>, x: T)
    requires Contains(s, sub) && x in sub
    ensures x in s
  {
    var i :| OccursAt(s, sub, i);
    var k :| 0 <= k < |sub| && sub[k] == x;
    assert s[i + k] == sub[k];
  }

  // ---------------------------------------------------------------------------
  // Relative paths, kept as their '/'-separated segments

  type Path = seq<string>

  /** The directory holding `p` (`path.dirname`); the root is its own parent. */
  function Parent(p: Path): Path
  {
    if p == [] then [] else p[..|p| - 1]
  }

  /** The segments joined with '/', as the source spells a relative path. */
  function JoinPath(p: Path): string
  {
    if p == [] then "" else if |p| == 1 then p[0] else JoinPath(p[..|p| - 1]) + "/" + p[|p| - 1]
  }

  lemma JoinPair(dir: string, name: string)
    ensures JoinPath([dir, name]) == dir + "/" + name
  {
    assert [dir, name][..1] == [dir];
  }

  /** Every directory the generator names has a segment without a dot. */
  predicate IsDirName(segment: string)
  {
    '.' !in segment
  }

  predicate IsDirPath(p: Path)
  {
    forall i :: 0 <= i < |p| ==> IsDirName(p[i])
  }

  /** Every file the generator names sits under dot-free directories and has a dotted name. */
  predicate IsFilePath(p: Path)
  {
    p != [] && IsDirPath(Parent(p)) && '.' in p[|p| - 1]
  }
}
