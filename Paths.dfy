/**
 * The part of `pathlib` the writer relies on: a path as a directory and a final
 * component, the component's suffix, and replacing that suffix.
 */
module Paths {

  /** `directory / name`. */
  datatype Path = Path(dir: string, name: string)

  /** `str.rfind`: the last position holding `c`, or -1. */
  function RFind(s: string, c: char): (i: int)
    ensures -1 <= i < |s|
    ensures i >= 0 ==> s[i] == c
    ensures forall j | i < j < |s| :: s[j] != c
  {
    if s == [] then -1
    else if s[|s| - 1] == c then |s| - 1
    else RFind(s[..|s| - 1], c)
  }

  /** Where the suffix starts: at the last dot, unless that dot leads or ends the name. */
  function SuffixStart(name: string): int
  {
    var i := RFind(name, '.');
    if 0 < i < |name| - 1 then i else |name|
  }

  /** `PurePath.suffix`: from the last dot on, or empty. */
  function Suffix(name: string): string
  {
    name[SuffixStart(name)..]
  }

  /** `PurePath.stem`: the name without its suffix. */
  function Stem(name: string): string
  {
    name[..SuffixStart(name)]
  }

  /** `PurePath.with_suffix`. */
  function WithSuffix(p: Path, suffix: string): Path
  {
    Path(p.dir, Stem(p.name) + suffix)
  }

  /** `str.lstrip(".")`. */
  function LStripDots(s: string): (r: string)
    ensures |r| <= |s| && r == s[|s| - |r|..]
    ensures r == [] || r[0] != '.'
    ensures forall i | 0 <= i < |s| - |r| :: s[i] == '.'
  {
    if s != [] && s[0] == '.' then LStripDots(s[1..]) else s
  }

  /** Stripping the dots of a dotted extension whose second character is not a dot drops the first. */
  lemma LStripOneDot(ext: string)
    requires |ext| >= 2 && ext[0] == '.' && ext[1] != '.'
    ensures LStripDots(ext) == ext[1..]
  {
    assert ext[1..][0] != '.';
  }

  /**
   * A non-empty stem followed by a dot and an extension without dots has exactly that
   * extension as its suffix and keeps its stem.
   */
  lemma SuffixOfExtension(stem: string, ext: string)
    requires stem != [] && |ext| >= 2 && ext[0] == '.'
    requires forall i | 1 <= i < |ext| :: ext[i] != '.'
    ensures Suffix(stem + ext) == ext
    ensures Stem(stem + ext) == stem
  {
    var s := stem + ext;
    assert s[|stem|] == '.';
    assert forall j | |stem| < j < |s| :: s[j] == ext[j - |stem|];
    assert RFind(s, '.') == |stem|;
  }

  /** Replacing a suffix by another dotted extension gives the stem followed by it. */
  lemma WithSuffixOfExtension(dir: string, stem: string, ext: string, ext2: string)
    requires stem != [] && |ext| >= 2 && ext[0] == '.'
    requires forall i | 1 <= i < |ext| :: ext[i] != '.'
    ensures WithSuffix(Path(dir, stem + ext), ext2) == Path(dir, stem + ext2)
  {
    SuffixOfExtension(stem, ext);
  }
}
