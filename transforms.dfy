/**
 * The artifact path scheme of the transform store: every transform id names
 * three files in the transform directory (its source, its input fixture and
 * its output fixture), built with POSIX `os.path.join`.  Also the suffix test
 * that `importlib.util.spec_from_file_location` applies before it will load a
 * file as a module.
 */
module Transforms {

  const Sep: char := '/'

  /** The suffixes that follow the id in the three artifact file names. */
  const SourceSuffix: string := ".json"
  const InputSuffix: string := "_input.json"
  const OutputSuffix: string := "_output.json"

  predicate IsAbsolute(path: string) {
    |path| > 0 && path[0] == Sep
  }

  predicate StartsWith(s: string, prefix: string) {
    |prefix| <= |s| && s[..|prefix|] == prefix
  }

  predicate EndsWith(s: string, suffix: string) {
    |suffix| <= |s| && s[|s| - |suffix|..] == suffix
  }

  /** What `os.path.join` keeps in front of a relative name: `dir`, followed by
      a separator unless `dir` is empty or already ends in one. */
  function DirPrefix(dir: string): (d: string)
    ensures StartsWith(d, dir)
    ensures d == [] || d[|d| - 1] == Sep
    ensures |d| == |dir| || |d| == |dir| + 1
    ensures (dir == [] || dir[|dir| - 1] == Sep) ==> d == dir
  {
    if dir == [] || dir[|dir| - 1] == Sep then dir else dir + [Sep]
  }

  /** POSIX `os.path.join(dir, name)` for two components: an absolute `name`
      discards `dir`; otherwise `name` follows `dir` after one separator. */
  function Join(dir: string, name: string): (p: string)
    ensures EndsWith(p, name)
    ensures IsAbsolute(name) ==> p == name
    ensures !IsAbsolute(name) ==> StartsWith(p, dir)
  {
    if IsAbsolute(name) then name
    else
      var d := DirPrefix(dir);
      assert (d + name)[..|dir|] == d[..|dir|];
      assert (d + name)[|d + name| - |name|..] == name;
      d + name
  }

  /** Python's `os.path.basename`: everything after the last separator. */
  function BaseName(p: string): (b: string)
    ensures Sep !in b
    ensures EndsWith(p, b)
  {
    if p == [] || p[|p| - 1] == Sep then []
    else
      var b := BaseName(p[..|p| - 1]) + [p[|p| - 1]];
      assert p == p[..|p| - 1] + [p[|p| - 1]];
      b
  }

  /** The path of the file holding a transform's source code. */
  function SourcePath(dir: string, id: string): (p: string)
    ensures EndsWith(p, id + SourceSuffix)
    ensures !IsAbsolute(id) ==> StartsWith(p, dir)
    ensures IsAbsolute(id) ==> p == id + SourceSuffix
    ensures !IsAbsolute(id) ==> p == DirPrefix(dir) + id + SourceSuffix
  {
    ArtifactPathShape(dir, id, SourceSuffix);
    Join(dir, id + SourceSuffix)
  }

  /** The path of the file holding a transform's JSON input fixture. */
  function InputPath(dir: string, id: string): (p: string)
    ensures EndsWith(p, id + InputSuffix)
    ensures !IsAbsolute(id) ==> StartsWith(p, dir)
    ensures IsAbsolute(id) ==> p == id + InputSuffix
    ensures !IsAbsolute(id) ==> p == DirPrefix(dir) + id + InputSuffix
  {
    ArtifactPathShape(dir, id, InputSuffix);
    Join(dir, id + InputSuffix)
  }

  /** The path of the file holding a transform's JSON output fixture. */
  function OutputPath(dir: string, id: string): (p: string)
    ensures EndsWith(p, id + OutputSuffix)
    ensures !IsAbsolute(id) ==> StartsWith(p, dir)
    ensures IsAbsolute(id) ==> p == id + OutputSuffix
    ensures !IsAbsolute(id) ==> p == DirPrefix(dir) + id + OutputSuffix
  {
    ArtifactPathShape(dir, id, OutputSuffix);
    Join(dir, id + OutputSuffix)
  }

  /** Appending a suffix that does not start with a separator leaves an id
      exactly as absolute (or relative) as it was. */
  lemma SuffixKeepsAbsoluteness(id: string, suffix: string)
    requires suffix != [] && suffix[0] != Sep
    ensures IsAbsolute(id + suffix) <==> IsAbsolute(id)
  {
    if id == [] { assert id + suffix == suffix; }
  }

  /** The path of an artifact, for any suffix: the id and suffix, after the
      directory and a separator for a relative id, alone for an absolute one.
      The three path functions state its instances for their own suffixes. */
  lemma ArtifactPathShape(dir: string, id: string, suffix: string)
    requires suffix != [] && suffix[0] != Sep
    ensures !IsAbsolute(id) ==> Join(dir, id + suffix) == DirPrefix(dir) + id + suffix
    ensures IsAbsolute(id) ==> Join(dir, id + suffix) == id + suffix
  {
    SuffixKeepsAbsoluteness(id, suffix);
    assert DirPrefix(dir) + (id + suffix) == DirPrefix(dir) + id + suffix;
  }

  /** The base name of a name with no separator in it, placed after a
      separator (or at the start), is that name. */
  lemma {:induction false} BaseNameAfterSep(x: string, name: string)
    requires x == [] || x[|x| - 1] == Sep
    requires Sep !in name
    ensures BaseName(x + name) == name
  {
    if name == [] {
      assert x + name == x;
    } else {
      var init := name[..|name| - 1];
      assert (x + name)[..|x + name| - 1] == x + init;
      assert Sep !in init by {
        forall i | 0 <= i < |init| ensures init[i] != Sep { assert init[i] == name[i]; }
      }
      BaseNameAfterSep(x, init);
      assert name == init + [name[|name| - 1]];
    }
  }

  /** Joining a directory with a separator-free name gives a path whose base
      name is that name. */
  lemma BaseNameOfJoin(dir: string, name: string)
    requires Sep !in name
    ensures BaseName(Join(dir, name)) == name
  {
    if name != [] { assert name[0] in name; }
    BaseNameAfterSep(DirPrefix(dir), name);
  }

  /** For an id without a separator, each of the three artifacts lies in the
      transform directory (its path starts with `dir`) and is named by the id
      followed by its own suffix. */
  lemma ArtifactNames(dir: string, id: string)
    requires Sep !in id
    ensures StartsWith(SourcePath(dir, id), dir) && BaseName(SourcePath(dir, id)) == id + ".json"
    ensures StartsWith(InputPath(dir, id), dir) && BaseName(InputPath(dir, id)) == id + "_input.json"
    ensures StartsWith(OutputPath(dir, id), dir) && BaseName(OutputPath(dir, id)) == id + "_output.json"
  {
    assert Sep !in SourceSuffix && Sep !in InputSuffix && Sep !in OutputSuffix;
    BaseNameOfJoin(dir, id + SourceSuffix);
    BaseNameOfJoin(dir, id + InputSuffix);
    BaseNameOfJoin(dir, id + OutputSuffix);
    if id != [] { assert id[0] in id; }
    SuffixKeepsAbsoluteness(id, SourceSuffix);
    SuffixKeepsAbsoluteness(id, InputSuffix);
    SuffixKeepsAbsoluteness(id, OutputSuffix);
  }

  /** The length of an artifact path is a fixed offset for (dir, id) plus the
      length of the suffix. */
  function PathBase(dir: string, id: string): nat {
    if IsAbsolute(id) then |id| else |DirPrefix(dir)| + |id|
  }

  lemma ArtifactPathLength(dir: string, id: string, suffix: string)
    requires suffix != [] && suffix[0] != Sep
    ensures |Join(dir, id + suffix)| == PathBase(dir, id) + |suffix|
  {
    ArtifactPathShape(dir, id, suffix);
  }

  /** For one directory and one id the three artifact paths are pairwise
      different, whatever the id is. */
  lemma ArtifactPathsDistinct(dir: string, id: string)
    ensures SourcePath(dir, id) != InputPath(dir, id)
    ensures SourcePath(dir, id) != OutputPath(dir, id)
    ensures InputPath(dir, id) != OutputPath(dir, id)
  {
    ArtifactPathLength(dir, id, SourceSuffix);
    ArtifactPathLength(dir, id, InputSuffix);
    ArtifactPathLength(dir, id, OutputSuffix);
  }

  /** Two relative ids that give the same artifact path, for one directory
      and one suffix, are the same id. */
  lemma ArtifactPathInjective(dir: string, a: string, b: string, suffix: string)
    requires suffix != [] && suffix[0] != Sep
    requires !IsAbsolute(a) && !IsAbsolute(b)
    requires Join(dir, a + suffix) == Join(dir, b + suffix)
    ensures a == b
  {
    ArtifactPathShape(dir, a, suffix);
    ArtifactPathShape(dir, b, suffix);
    var d := DirPrefix(dir);
    var p := d + a + suffix;
    assert |a| == |b|;
    assert p[|d|..|d| + |a|] == a;
    assert (d + b + suffix)[|d|..|d| + |b|] == b;
  }

  /** Each path function is injective in the id over relative ids (in
      particular over ids with no separator at all). */
  lemma PathsInjective(dir: string, a: string, b: string)
    requires !IsAbsolute(a) && !IsAbsolute(b)
    ensures SourcePath(dir, a) == SourcePath(dir, b) ==> a == b
    ensures InputPath(dir, a) == InputPath(dir, b) ==> a == b
    ensures OutputPath(dir, a) == OutputPath(dir, b) ==> a == b
  {
    if SourcePath(dir, a) == SourcePath(dir, b) { ArtifactPathInjective(dir, a, b, SourceSuffix); }
    if InputPath(dir, a) == InputPath(dir, b) { ArtifactPathInjective(dir, a, b, InputSuffix); }
    if OutputPath(dir, a) == OutputPath(dir, b) { ArtifactPathInjective(dir, a, b, OutputSuffix); }
  }

  /** Injectivity needs relative ids: an absolute id discards the directory
      and can name the same file as a relative one. */
  lemma AbsoluteIdAliasesRelativeId()
    ensures SourcePath("/tmp", "/tmp/t") == SourcePath("/tmp", "t")
  {
    assert DirPrefix("/tmp") == "/tmp/";
  }

  /** Distinctness does not extend across ids: the source file of id
      `x + "_input"` is the input fixture of id `x`, and likewise for the
      output fixture. */
  lemma ArtifactPathsCollideAcrossIds(dir: string, x: string)
    ensures SourcePath(dir, x + "_input") == InputPath(dir, x)
    ensures SourcePath(dir, x + "_output") == OutputPath(dir, x)
  {
    assert x + "_input" + SourceSuffix == x + InputSuffix;
    assert x + "_output" + SourceSuffix == x + OutputSuffix;
  }

  /** The file suffixes for which `importlib.util.spec_from_file_location`
      picks a loader when none is given: source (`.py`, `.pyw`), bytecode
      (`.pyc`) and extension modules (whose platform suffixes end in `.so`,
      `.pyd`, or `.dll` on Cygwin). */
  predicate HasImportLoader(path: string) {
    EndsWith(path, ".py") || EndsWith(path, ".pyw") || EndsWith(path, ".pyc")
    || EndsWith(path, ".so") || EndsWith(path, ".pyd") || EndsWith(path, ".dll")
  }

  /** No transform source path has a suffix that `spec_from_file_location`
      knows, so the loader finds no module spec for it. */
  lemma NoImportLoaderForSourcePath(dir: string, id: string)
    ensures !HasImportLoader(SourcePath(dir, id))
  {
    var p := SourcePath(dir, id);
    assert EndsWith(p, id + SourceSuffix);
    assert p[|p| - 1] == 'n' by {
      assert p[|p| - |id + SourceSuffix|..] == id + SourceSuffix;
      assert (id + SourceSuffix)[|id + SourceSuffix| - 1] == 'n';
    }
  }
}
