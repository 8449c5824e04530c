/**
 * Go's `filepath.Ext` with '/' as the only path separator: the suffix of the
 * path that starts at the final '.' of its final element, or "" when that
 * element holds no '.'.
 */
module FilePath {

  /** `path[i]` is a '.' followed by neither another '.' nor a separator. */
  ghost predicate ExtStartsAt(path: string, i: nat)
  {
    i < |path| && path[i] == '.' && forall j :: i < j < |path| ==> path[j] != '.' && path[j] != '/'
  }

  function Ext(path: string): (e: string)
    ensures e != [] ==> |e| <= |path| && ExtStartsAt(path, |path| - |e|) && e == path[|path| - |e|..]
    ensures e == [] ==> forall i :: 0 <= i < |path| ==> !ExtStartsAt(path, i)
    decreases |path|
  {
    if path == [] || path[|path| - 1] == '/' then ""
    else if path[|path| - 1] == '.' then "."
    else
      var e := Ext(path[..|path| - 1]);
      assert forall i :: 0 <= i < |path| - 1 && ExtStartsAt(path, i) ==> ExtStartsAt(path[..|path| - 1], i);
      if e == "" then "" else e + [path[|path| - 1]]
  }

  /** A path that ends in `ext` (a '.' and then no '.' or '/') has extension `ext`. */
  lemma ExtOfSuffix(base: string, ext: string)
    requires |ext| > 0 && ext[0] == '.'
    requires forall j :: 1 <= j < |ext| ==> ext[j] != '.' && ext[j] != '/'
    ensures Ext(base + ext) == ext
  {
    var path := base + ext;
    assert ExtStartsAt(path, |base|);
  }
}
