/** The two Go standard-library string helpers whose behaviour the core
    depends on exactly: `strings.TrimPrefix` and `filepath.Ext` (with the
    Unix path separator `/`).
 */
module GoStrings {

  const PathSeparator: char := '/'

  /** `strings.HasPrefix`: `prefix` is a leading part of `s`. */
  predicate HasPrefix(s: string, prefix: string) {
    |prefix| <= |s| && s[..|prefix|] == prefix
  }

  /** `strings.TrimPrefix`: removes one leading copy of `prefix`, if there is
      one, and otherwise returns `s` unchanged. */
  function TrimPrefix(s: string, prefix: string): (r: string)
    ensures HasPrefix(s, prefix) ==> prefix + r == s
    ensures !HasPrefix(s, prefix) ==> r == s
    ensures |r| <= |s|
  {
    if HasPrefix(s, prefix) then s[|prefix|..] else s
  }

  /** Trimming a prefix that is present gives back exactly the rest. */
  lemma TrimPrefixOfConcat(prefix: string, rest: string)
    ensures TrimPrefix(prefix + rest, prefix) == rest
  {
    assert (prefix + rest)[..|prefix|] == prefix;
  }

  /** `filepath.Ext`: the suffix of `path` that starts at the last `.` of its
      final element, or "" when that element has no `.`.  The scan runs from
      the end and stops at the first separator, so a dot in a directory name
      never counts. */
  function Ext(path: string): string
    decreases |path|
  {
    if |path| == 0 then ""
    else
      var c := path[|path| - 1];
      if c == PathSeparator then ""
      else if c == '.' then [c]
      else
        var e := Ext(path[..|path| - 1]);
        if e == "" then "" else e + [c]
  }

  /** `Ext` is a suffix of the path that is either empty or a `.` followed
      by characters that are neither `.` nor the separator. */
  lemma {:induction false} ExtIsFinalDotSuffix(path: string)
    ensures var r := Ext(path);
            && |r| <= |path| && r == path[|path| - |r|..]
            && (r != "" ==> r[0] == '.')
            && forall i :: 1 <= i < |r| ==> r[i] != '.' && r[i] != PathSeparator
    decreases |path|
  {
    if |path| > 0 {
      var c := path[|path| - 1];
      var init := path[..|path| - 1];
      if c != PathSeparator && c != '.' {
        ExtIsFinalDotSuffix(init);
        var e := Ext(init);
        if e != "" {
          assert path[|path| - |e| - 1..] == init[|init| - |e|..] + [c];
        }
      }
    }
  }

  /** The final element of `path`, after its last separator, holds a `.`. */
  ghost predicate DotInLastElement(path: string) {
    exists k :: 0 <= k < |path| && path[k] == '.' && forall j :: k < j < |path| ==> path[j] != PathSeparator
  }

  /** `Ext` is empty exactly when the final element of the path has no `.`. */
  lemma {:induction false} ExtEmptyIffNoDot(path: string)
    ensures Ext(path) == "" <==> !DotInLastElement(path)
    decreases |path|
  {
    var r := Ext(path);
    ExtIsFinalDotSuffix(path);
    if r != "" {
      var k := |path| - |r|;
      assert path[k] == r[0];
      forall j | k < j < |path|
        ensures path[j] != PathSeparator
      {
        assert path[j] == r[j - k];
      }
    } else if DotInLastElement(path) {
      var k :| 0 <= k < |path| && path[k] == '.' && forall j :: k < j < |path| ==> path[j] != PathSeparator;
      var init := path[..|path| - 1];
      assert k < |path| - 1;
      ExtEmptyIffNoDot(init);
      assert false;
    }
  }
}

/** The slice built-in the core relies on. */
module GoSlices {

  /** `make([]T, n)`: `n` copies of the element type's zero value. */
  function Make<T>(n: nat, zero: T): (r: seq<T>)
    ensures |r| == n
    ensures forall i :: 0 <= i < n ==> r[i] == zero
  {
    seq(n, _ => zero)
  }
}
