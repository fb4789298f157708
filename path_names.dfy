/**
 * The Python string and path helpers that source naming relies on, POSIX flavour:
 * `str.rfind`, `os.path.basename`, `os.path.splitext`, `str.lower` and `str.split('.')[0]`.
 * Each is a plain function; what it computes is stated by the lemma that follows it.
 */
module PathNames {

  /** `s.rfind(c)`: the last index holding `c`, or -1 when there is none. */
  function RFind(s: string, c: char): (r: int)
    ensures -1 <= r < |s|
  {
    if s == [] then -1
    else if s[|s| - 1] == c then |s| - 1
    else RFind(s[..|s| - 1], c)
  }

  lemma {:induction false} RFindSpec(s: string, c: char)
    ensures var r := RFind(s, c);
      && (r >= 0 ==> s[r] == c)
      && (forall j :: r < j < |s| ==> s[j] != c)
  {
    if s != [] && s[|s| - 1] != c {
      RFindSpec(s[..|s| - 1], c);
    }
  }

  /** `os.path.basename(path)`: everything after the last '/'. */
  function Basename(path: string): string {
    path[RFind(path, '/') + 1..]
  }

  /** The basename holds no '/', ends the path, and is all of it or preceded by a '/'. */
  lemma BasenameSpec(path: string)
    ensures var name := Basename(path);
      && '/' !in name
      && |name| <= |path| && path[|path| - |name|..] == name
      && (|name| < |path| ==> path[|path| - |name| - 1] == '/')
  {
    RFindSpec(path, '/');
  }

  predicate OnlyDots(s: string) {
    forall i :: 0 <= i < |s| ==> s[i] == '.'
  }

  /** A name has an extension when one of its dots comes after some character other than a dot
      (so ".bashrc" and "..csv" have none). */
  ghost predicate HasExtension(name: string) {
    exists i :: 0 <= i < |name| && name[i] == '.' && !OnlyDots(name[..i])
  }

  /** `os.path.splitext(name)` for a name without separators: the extension is the suffix from the
      last dot, unless only dots precede that dot. */
  function SplitExt(name: string): (string, string) {
    var dot := RFind(name, '.');
    if dot >= 0 && !OnlyDots(name[..dot]) then (name[..dot], name[dot..]) else (name, [])
  }

  /** Stem and extension put back together give the name; there is an extension exactly when the
      name has one, and then it is a dot followed by no other dot, after a stem that is not all dots. */
  lemma SplitExtSpec(name: string)
    ensures var parts := SplitExt(name);
      && parts.0 + parts.1 == name
      && (parts.1 != [] <==> HasExtension(name))
      && (parts.1 != [] ==> parts.1[0] == '.' && '.' !in parts.1[1..] && !OnlyDots(parts.0))
  {
    RFindSpec(name, '.');
    var dot := RFind(name, '.');
    if !(dot >= 0 && !OnlyDots(name[..dot])) {
      forall i | 0 <= i < |name| && name[i] == '.' ensures OnlyDots(name[..i]) {
        assert name[..i] == name[..dot][..i];
      }
    }
  }

  /** `c.lower()` for ASCII; every other character is left alone. */
  function LowerChar(c: char): char {
    if 'A' <= c <= 'Z' then (c as int - 'A' as int + 'a' as int) as char else c
  }

  /** `s.lower()`: every character lowered where it stands. */
  function Lower(s: string): (r: string)
    ensures |r| == |s|
  {
    seq(|s|, i requires 0 <= i < |s| => LowerChar(s[i]))
  }

  /** Lowering commutes with concatenation. */
  lemma LowerAppend(a: string, b: string)
    ensures Lower(a + b) == Lower(a) + Lower(b)
  {
    assert forall i :: 0 <= i < |a| + |b| ==> Lower(a + b)[i] == (Lower(a) + Lower(b))[i];
  }

  /** Lowering commutes with slicing. */
  lemma LowerSlice(s: string, lo: nat, hi: nat)
    requires lo <= hi <= |s|
    ensures Lower(s)[lo..hi] == Lower(s[lo..hi])
  {
    assert forall i :: 0 <= i < hi - lo ==> Lower(s)[lo..hi][i] == Lower(s[lo..hi])[i];
  }

  /** Lowering moves no dot: the last dot of `Lower(s)` is the last dot of `s`. */
  lemma {:induction false} RFindLower(s: string)
    ensures RFind(Lower(s), '.') == RFind(s, '.')
  {
    if s != [] {
      LowerSlice(s, 0, |s| - 1);
      assert Lower(s)[..|s| - 1] == Lower(s[..|s| - 1]);
      RFindLower(s[..|s| - 1]);
    }
  }

  /** `os.path.splitext` of a lowered name is the lowered `os.path.splitext`: lowering first or
      last gives the same stem and extension. */
  lemma SplitExtLower(name: string)
    ensures SplitExt(Lower(name)) == (Lower(SplitExt(name).0), Lower(SplitExt(name).1))
  {
    RFindLower(name);
    var dot := RFind(name, '.');
    if dot >= 0 {
      LowerSlice(name, 0, dot);
      LowerSlice(name, dot, |name|);
      assert Lower(name)[dot..] == Lower(name)[dot..|name|];
      assert name[dot..] == name[dot..|name|];
      assert forall i :: 0 <= i < dot ==> (Lower(name[..dot])[i] == '.') == (name[..dot][i] == '.');
    }
  }

  /** `s.split('.')[0]`: the part before the first dot (all of `s` when it has none). */
  function FirstSegment(s: string): string {
    if s == [] || s[0] == '.' then [] else [s[0]] + FirstSegment(s[1..])
  }

  /** The first segment is the longest prefix without a dot. */
  lemma {:induction false} FirstSegmentSpec(s: string)
    ensures var r := FirstSegment(s);
      && '.' !in r
      && |r| <= |s| && s[..|r|] == r
      && (r == s || s[|r|] == '.')
  {
    if s != [] && s[0] != '.' {
      FirstSegmentSpec(s[1..]);
    }
  }
}
