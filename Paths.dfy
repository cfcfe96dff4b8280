/**
 * Joining paths as `PathBuf::join` does on a Unix host: an absolute path
 * replaces the base; otherwise a separator is put between the two unless the
 * base is empty or already ends in one.
 */
module Paths {

  const Separator: char := '/'

  predicate IsAbsolute(path: string) {
    |path| > 0 && path[0] == Separator
  }

  function Join(base: string, path: string): (r: string)
    ensures IsAbsolute(path) ==> r == path
    ensures !IsAbsolute(path) ==> |base| <= |r| && r[..|base|] == base && |path| <= |r| && r[|r| - |path|..] == path
    ensures !IsAbsolute(path) && base != [] && base[|base| - 1] != Separator ==>
              |r| == |base| + 1 + |path| && r[|base|] == Separator
    ensures !IsAbsolute(path) && (base == [] || base[|base| - 1] == Separator) ==> |r| == |base| + |path|
  {
    if IsAbsolute(path) then path
    else if base == [] || base[|base| - 1] == Separator then base + path
    else
      assert base + [Separator] + path == base + ([Separator] + path);
      base + [Separator] + path
  }
}
