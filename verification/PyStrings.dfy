/** The string operations that the key and file-name code relies on: `str.rfind`, `str.rsplit(c, 1)[-1]`,
    `str.lower`, and the `name`, `suffix` and `stem` of a `PurePosixPath` (Python 3.11). */
module PyStrings {

  /** Index of the last `c` in `s`, or -1. */
  function RFind(s: string, c: char): (i: int)
    ensures -1 <= i < |s|
    ensures i >= 0 ==> s[i] == c && forall j :: i < j < |s| ==> s[j] != c
    ensures i == -1 ==> c !in s
  {
    if s == [] then -1
    else if s[|s| - 1] == c then |s| - 1
    else RFind(s[..|s| - 1], c)
  }

  /** What follows the last `c`; all of `s` when there is none. */
  function RSplitLast(s: string, c: char): (tail: string)
    ensures c !in tail
  {
    s[RFind(s, c) + 1..]
  }

  predicate SlashFree(s: string) {
    '/' !in s
  }

  function LowerChar(c: char): char {
    if 'A' <= c <= 'Z' then (c as int + 32) as char else c
  }

  /** Lower case over ASCII. No other letter lowers to one of `t`, `i`, `f`, so membership in the set of
      accepted extensions is the same as with the full Unicode mapping. */
  function Lower(s: string): (r: string)
    ensures |r| == |s|
  {
    seq(|s|, i requires 0 <= i < |s| => LowerChar(s[i]))
  }

  /** `PurePosixPath(path).name`: the last component, where empty components and `.` do not count. */
  function PosixName(path: string): (name: string)
    ensures SlashFree(name) && name != "."
    decreases |path|
  {
    var i := RFind(path, '/');
    var last := path[i + 1..];
    if last != "" && last != "." then last
    else if i <= 0 then ""
    else PosixName(path[..i])
  }

  /** The dot that separates stem and suffix, or the length of the name: a leading or a final dot does not. */
  function SuffixStart(name: string): (i: nat)
    ensures i <= |name|
    ensures i < |name| ==> 0 < i < |name| - 1 && name[i] == '.' && '.' !in name[i + 1..]
  {
    var i := RFind(name, '.');
    if 0 < i < |name| - 1 then i else |name|
  }

  function Suffix(path: string): string {
    var name := PosixName(path);
    name[SuffixStart(name)..]
  }

  function Stem(path: string): string {
    var name := PosixName(path);
    name[..SuffixStart(name)]
  }

  /** A separator determines how a string splits when the parts to its right are free of it. */
  lemma {:induction false} RSplitUnique(head: string, tail: string, c: char)
    requires c !in tail
    ensures RSplitLast(head + [c] + tail, c) == tail
    ensures RFind(head + [c] + tail, c) == |head|
  {
    var s := head + [c] + tail;
    assert s[|head|] == c;
    var i := RFind(s, c);
    assert i >= |head|;
    assert forall k :: |head| < k < |s| ==> s[k] in tail;
    assert i == |head|;
    assert s[i + 1..] == tail;
  }

  /** A separator determines how a string splits when the parts to its left are free of it. */
  lemma SplitUnique(left: string, right: string, left': string, right': string, c: char)
    requires c !in left && c !in left'
    requires left + [c] + right == left' + [c] + right'
    ensures left == left' && right == right'
  {
    var s := left + [c] + right;
    var s' := left' + [c] + right';
    assert s[|left|] == c && s'[|left'|] == c;
    assert forall k :: 0 <= k < |left| ==> s[k] in left;
    assert forall k :: 0 <= k < |left'| ==> s'[k] in left';
    assert left == s[..|left|] && left' == s'[..|left'|];
    assert right == s[|left| + 1..] && right' == s'[|left'| + 1..];
  }

  lemma CommonPrefix(p: string, x: string, y: string)
    requires p + x == p + y
    ensures x == y
  {
    assert x == (p + x)[|p|..] && y == (p + y)[|p|..];
  }

  /** Without a slash only the name `.` is special. */
  lemma SlashFreeName(name: string)
    requires SlashFree(name)
    ensures PosixName(name) == if name == "." then "" else name
  {
  }

  /* ---- what paths mean ---- */

  /** The name of a path is its last component. */
  lemma LastComponent(dir: string, name: string)
    requires SlashFree(name) && name != "" && name != "."
    ensures PosixName(dir + ['/'] + name) == name
  {
    RSplitUnique(dir, name, '/');
  }

  /** A final slash and a final `.` do not count as components. */
  lemma IgnoredComponents(dir: string)
    ensures PosixName(dir + ['/']) == PosixName(dir)
    ensures PosixName(dir + ['/'] + ".") == PosixName(dir)
  {
    RSplitUnique(dir, "", '/');
    RSplitUnique(dir, ".", '/');
    assert dir + ['/'] + "" == dir + ['/'];
    assert (dir + ['/'])[..|dir|] == dir && (dir + ['/'] + ".")[..|dir|] == dir;
    assert (dir + ['/'] + ".")[|dir| + 1..] == ".";
  }

  lemma SuffixAt(name: string)
    requires SlashFree(name) && name != "."
    ensures var i := RFind(name, '.'); Suffix(name) == if 0 < i < |name| - 1 then name[i..] else ""
  {
    SlashFreeName(name);
  }

  /** The suffix starts at the last dot, unless that is the first or the last character of the name. */
  lemma SuffixLaw(stem: string, ext: string)
    requires SlashFree(stem) && SlashFree(ext) && '.' !in ext && (stem != "" || ext != "")
    ensures Suffix(stem + ['.'] + ext) == if stem != "" && ext != "" then ['.'] + ext else ""
  {
    var name := stem + ['.'] + ext;
    assert |name| > 1;
    RSplitUnique(stem, ext, '.');
    SuffixAt(name);
    assert name[|stem|..] == ['.'] + ext;
  }

  lemma NoDotNoSuffix(name: string)
    requires SlashFree(name) && '.' !in name
    ensures Suffix(name) == ""
  {
    SuffixAt(name);
  }
}
