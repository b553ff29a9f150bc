/**
 * The parts of Go's `path/filepath` package the two commands rely on, for
 * slash-separated paths: `Ext`, `Base` and a simplified `Join`.
 */
module Paths {

  const Separator: char := '/'
  const JarExtension: string := ".jar"

  /** `suffix` is the tail of `s`. */
  predicate EndsWith(s: string, suffix: string) {
    |suffix| <= |s| && forall k :: 0 <= k < |suffix| ==> s[|s| - |suffix| + k] == suffix[k]
  }

  /** `filepath.Join(dir, rel)` for a relative `rel`; an empty `dir` is dropped.
      Lexical cleaning (`filepath.Clean`) is not modelled. */
  function Join(dir: string, rel: string): string {
    if dir == "" then rel else dir + [Separator] + rel
  }

  /** The joined path ends with the relative path; under a non-empty
      directory it starts with the directory, and a separator comes right
      after it. */
  lemma JoinLayout(dir: string, rel: string)
    ensures var p := Join(dir, rel);
            && EndsWith(p, rel)
            && (dir == "" ==> p == rel)
            && (dir != "" ==> |p| == |dir| + 1 + |rel| && p[..|dir|] == dir && p[|dir|] == Separator)
  {
    if dir != "" {
      assert Join(dir, rel)[..|dir|] == dir;
    }
  }

  /** Two different names under the same directory give different paths. */
  lemma JoinDistinguishesNames(dir: string, a: string, b: string)
    requires a != b
    ensures Join(dir, a) != Join(dir, b)
  {
    if dir != "" && |a| == |b| {
      assert Join(dir, a)[|dir| + 1..] == a;
      assert Join(dir, b)[|dir| + 1..] == b;
    }
  }

  /** The characters `path[start..end]`, taken one at a time from the left. */
  function Slice(path: string, start: nat, end: nat): string
    requires start <= end <= |path|
    decreases end - start
  {
    if start == end then [] else [path[start]] + Slice(path, start + 1, end)
  }

  /** `Slice` is the subsequence from `start` to `end`. */
  lemma {:induction false} SliceIsSubsequence(path: string, start: nat, end: nat)
    requires start <= end <= |path|
    ensures Slice(path, start, end) == path[start..end]
    decreases end - start
  {
    if start < end {
      SliceIsSubsequence(path, start + 1, end);
      assert path[start..end] == [path[start]] + path[start + 1..end];
    }
  }

  /** `filepath.Ext`: the suffix that starts at the last dot of the last path
      element, or "" when that element has no dot. */
  function Ext(path: string): string {
    ExtScan(path, |path|)
  }

  /** The backwards scan of `filepath.Ext`, having looked at `path[i..]` already. */
  function ExtScan(path: string, i: nat): string
    requires i <= |path|
    decreases i
  {
    if i == 0 || path[i - 1] == Separator then ""
    else if path[i - 1] == '.' then Slice(path, i - 1, |path|)
    else ExtScan(path, i - 1)
  }

  /** What an extension looks like: empty, or a suffix of the path that starts
      with its only dot and holds no separator. */
  predicate ExtensionOf(path: string, ext: string) {
    (ext == "" || (ext[0] == '.' && EndsWith(path, ext)))
    && Separator !in ext
    && forall k :: 1 <= k < |ext| ==> ext[k] != '.'
  }

  /** The scan from `i` finds an extension when `path[i..]` holds neither a
      separator nor a dot. */
  lemma {:induction false} ExtScanFindsExtension(path: string, i: nat)
    requires i <= |path|
    requires forall k :: i <= k < |path| ==> path[k] != Separator && path[k] != '.'
    ensures ExtensionOf(path, ExtScan(path, i))
    decreases i
  {
    if i > 0 && path[i - 1] != Separator {
      if path[i - 1] == '.' {
        SliceIsSubsequence(path, i - 1, |path|);
      } else {
        ExtScanFindsExtension(path, i - 1);
      }
    }
  }

  /** `Ext` returns an extension of its path. */
  lemma ExtIsExtension(path: string)
    ensures ExtensionOf(path, Ext(path))
  {
    ExtScanFindsExtension(path, |path|);
  }

  /** A path has extension ".jar" exactly when it ends with ".jar". */
  lemma JarExtensionIffSuffix(path: string)
    ensures Ext(path) == JarExtension <==> EndsWith(path, JarExtension)
  {
    ExtIsExtension(path);
    if EndsWith(path, JarExtension) {
      var n := |path|;
      JarSuffixChars(path);
      assert path[n - 4..n] == JarExtension;
      assert ExtScan(path, n) == ExtScan(path, n - 1) == ExtScan(path, n - 2) == ExtScan(path, n - 3);
      SliceIsSubsequence(path, n - 4, n);
    }
  }

  /** The end of `path[..i]` once its trailing separators are dropped. */
  function StripEnd(path: string, i: nat): (end: nat)
    requires i <= |path|
    ensures end <= i
    ensures end == 0 || path[end - 1] != Separator
    decreases i
  {
    if i > 0 && path[i - 1] == Separator then StripEnd(path, i - 1) else i
  }

  /** Only trailing separators are dropped: everything from the end found up
      to `i` is a separator. With the contract of `StripEnd`, this fixes its
      value. */
  lemma {:induction false} StripEndDropsOnlySeparators(path: string, i: nat)
    requires i <= |path|
    ensures forall k :: StripEnd(path, i) <= k < i ==> path[k] == Separator
    decreases i
  {
    if i > 0 && path[i - 1] == Separator {
      StripEndDropsOnlySeparators(path, i - 1);
    }
  }

  /** Where the last element of `path[..i]` starts: just after the last
      separator before `i`, or at 0. */
  function ElementStart(path: string, i: nat): (start: nat)
    requires i <= |path|
    ensures start <= i
    ensures start == 0 || path[start - 1] == Separator
    decreases i
  {
    if i > 0 && path[i - 1] != Separator then ElementStart(path, i - 1) else i
  }

  /** `filepath.Base`: the last element of `path` after trailing separators are
      removed; "." for the empty path and "/" for a path of separators only. */
  function Base(path: string): (base: string)
    ensures base != ""
    ensures path == "" ==> base == "."
  {
    if path == "" then "."
    else
      var end := StripEnd(path, |path|);
      if end == 0 then [Separator] else Slice(path, ElementStart(path, end), end)
  }

  /** The last element holds no separator. */
  lemma {:induction false} ElementHasNoSeparator(path: string, i: nat)
    requires i <= |path|
    ensures forall k :: ElementStart(path, i) <= k < i ==> path[k] != Separator
    decreases i
  {
    if i > 0 && path[i - 1] != Separator {
      ElementHasNoSeparator(path, i - 1);
    }
  }

  /** The last element starts right after the last separator. */
  lemma {:induction false} ElementStartAt(path: string, i: nat, j: nat)
    requires j <= i <= |path|
    requires j == 0 || path[j - 1] == Separator
    requires forall k :: j <= k < i ==> path[k] != Separator
    ensures ElementStart(path, i) == j
    decreases i
  {
    if i > j {
      ElementStartAt(path, i - 1, j);
    }
  }

  /** Under a directory, the base name of a file name without separators is
      that file name. */
  lemma BaseOfJoin(dir: string, file: string)
    requires dir != "" && file != ""
    requires Separator !in file
    ensures Base(Join(dir, file)) == file
  {
    var path := Join(dir, file);
    var n := |path|;
    var start := |dir| + 1;
    assert path[n - 1] == file[|file| - 1];
    assert StripEnd(path, n) == n;
    forall k | start <= k < n
      ensures path[k] != Separator
    {
      assert path[k] == file[k - start];
    }
    ElementStartAt(path, n, start);
    SliceIsSubsequence(path, start, n);
    assert path[start..n] == file;
  }

  /** A path ending in ".jar" ends in a dot, 'j', 'a' and 'r'. */
  lemma JarSuffixChars(path: string)
    requires EndsWith(path, JarExtension)
    ensures var n := |path|;
            n >= 4 && path[n - 4] == '.' && path[n - 3] == 'j' && path[n - 2] == 'a' && path[n - 1] == 'r'
  {
    assert path[|path| - |JarExtension| + 0] == JarExtension[0];
    assert path[|path| - |JarExtension| + 1] == JarExtension[1];
    assert path[|path| - |JarExtension| + 2] == JarExtension[2];
    assert path[|path| - |JarExtension| + 3] == JarExtension[3];
  }

  /** The last element of `path[..i]` starts at `j` or earlier when
      `path[j..i]` holds no separator. */
  lemma {:induction false} ElementStartNoLaterThan(path: string, i: nat, j: nat)
    requires j <= i <= |path|
    requires forall k :: j <= k < i ==> path[k] != Separator
    ensures ElementStart(path, i) <= j
    decreases i
  {
    if i > j {
      ElementStartNoLaterThan(path, i - 1, j);
    }
  }

  /** A path that does not end in a separator has its last element, from
      just after the last separator, as its base name. */
  lemma BaseIsLastElement(path: string)
    requires path != "" && path[|path| - 1] != Separator
    ensures Base(path) == path[ElementStart(path, |path|)..]
  {
    var n := |path|;
    assert StripEnd(path, n) == n;
    var start := ElementStart(path, n);
    SliceIsSubsequence(path, start, n);
    assert path[start..n] == path[start..];
  }

  /** The base name of a jar path holds no separator and ends in ".jar". */
  lemma BaseOfJarShape(path: string)
    requires EndsWith(path, JarExtension)
    ensures EndsWith(Base(path), JarExtension) && Separator !in Base(path)
  {
    var n := |path|;
    JarSuffixChars(path);
    assert StripEnd(path, n) == n;
    var start := ElementStart(path, n);
    ElementStartNoLaterThan(path, n, n - 4);
    ElementHasNoSeparator(path, n);
    SliceIsSubsequence(path, start, n);
    var base := Base(path);
    assert base == path[start..n];
    forall k | 0 <= k < |JarExtension|
      ensures base[|base| - |JarExtension| + k] == JarExtension[k]
    {
      assert base[|base| - |JarExtension| + k] == path[n - |JarExtension| + k];
    }
    forall k | 0 <= k < |base|
      ensures base[k] != Separator
    {
      assert base[k] == path[start + k];
    }
  }

  /** The base name of a jar path is its last element, from just after the
      last separator: a name without separators that ends in ".jar". */
  lemma BaseOfJar(path: string)
    requires EndsWith(path, JarExtension)
    ensures Base(path) == path[ElementStart(path, |path|)..]
    ensures EndsWith(Base(path), JarExtension) && Separator !in Base(path)
  {
    BaseOfJarShape(path);
    JarSuffixChars(path);
    BaseIsLastElement(path);
  }
}
