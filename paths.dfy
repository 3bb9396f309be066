/** Filesystem paths as a PathBuf holds them: the path's text. */
module Paths {

  /** The text of a path (a PathBuf built from a String keeps that string as is). */
  type PathBuf = seq<char>

  const Separator: char := '/'

  /** A Unix path is absolute when it starts at the root. */
  predicate IsAbsolute(p: PathBuf) {
    |p| > 0 && p[0] == Separator
  }

  /**
   * PathBuf::push on Unix: an absolute argument replaces the whole path;
   * otherwise the argument is appended, with a separator in between unless
   * the path is empty or already ends with one.
   */
  function Push(base: PathBuf, c: PathBuf): (r: PathBuf)
    ensures IsAbsolute(c) ==> r == c
    ensures !IsAbsolute(c) ==> base <= r && |r| >= |c| && r[|r| - |c|..] == c
    ensures !IsAbsolute(c) ==> |base| + |c| <= |r| <= |base| + 1 + |c|
    ensures !IsAbsolute(c) && base != [] ==> r[|r| - |c| - 1] == Separator
    ensures !IsAbsolute(c) ==> r == base + c || r == base + [Separator] + c
    ensures !IsAbsolute(c) && (base == [] || base[|base| - 1] == Separator) ==> |r| == |base| + |c|
  {
    if IsAbsolute(c) then c
    else if base == [] || base[|base| - 1] == Separator then base + c
    else base + [Separator] + c
  }
}
