/** The parts of `pathlib.Path` the workers rely on, over normalised POSIX paths. */
module PyPath {
  import opened Wrappers
  import opened PyStr

  /** `Path.name`: the final component of a normalised path. */
  function Name(path: string): string {
    AfterLast(path, '/')
  }

  /**
   * `Path.suffix`: the final component's text from its last dot, or "" when that
   * dot is the first or the last character of the component, or there is none.
   */
  function Suffix(path: string): (r: string)
    ensures r == "" || (|r| >= 2 && r[0] == '.' && '.' !in r[1..] && '/' !in r && EndsWith(Name(path), r) && |r| < |Name(path)|)
  {
    NameSuffix(Name(path))
  }

  /** The suffix of a single path component. */
  function NameSuffix(name: string): (r: string)
    ensures r == "" || (|r| >= 2 && r[0] == '.' && '.' !in r[1..] && EndsWith(name, r) && |r| < |name|)
  {
    match LastIndexOf(name, '.')
    case None => ""
    case Some(i) => if 0 < i < |name| - 1 then name[i..] else ""
  }

  /** A name `stem.ext` whose extension holds no dot has suffix `.ext`, whatever directory it is in. */
  lemma SuffixOfName(dir: string, stem: string, ext: string)
    requires dir == "" || dir[|dir| - 1] == '/'
    requires stem != "" && '/' !in stem
    requires ext != "" && '.' !in ext && '/' !in ext
    ensures Suffix(dir + stem + "." + ext) == "." + ext
  {
    var name := stem + "." + ext;
    assert dir + stem + "." + ext == dir + name;
    NameAfterDirectory(dir, name);
    NameSuffixOfStem(stem, ext);
  }

  lemma NameSuffixOfStem(stem: string, ext: string)
    requires stem != "" && ext != "" && '.' !in ext
    ensures NameSuffix(stem + "." + ext) == "." + ext
  {
    var name := stem + "." + ext;
    assert name == stem + ['.'] + ext;
    LastIndexAfter(stem, '.', ext);
    assert name[|stem|..] == "." + ext;
  }

  /** A dot-file such as `.bashrc` has no suffix. */
  lemma DotFileHasNoSuffix(dir: string, rest: string)
    requires dir == "" || dir[|dir| - 1] == '/'
    requires '.' !in rest && '/' !in rest
    ensures Suffix(dir + "." + rest) == ""
  {
    var name := "." + rest;
    assert dir + "." + rest == dir + name;
    NameAfterDirectory(dir, name);
    assert name == [] + ['.'] + rest;
    LastIndexAfter([], '.', rest);
    assert NameSuffix(name) == "";
  }

  /** The name of `dir + name` is `name` when `name` holds no slash and `dir` ends with one. */
  lemma NameAfterDirectory(dir: string, name: string)
    requires dir == "" || dir[|dir| - 1] == '/'
    requires '/' !in name
    ensures Name(dir + name) == name
  {
    if dir == "" {
      assert dir + name == name;
      LastIndexAbsent(name, '/');
    } else {
      var d := dir[..|dir| - 1];
      assert dir + name == d + ['/'] + name;
      LastIndexAfter(d, '/', name);
      assert (dir + name)[|d| + 1..] == name;
    }
  }

  /** What the filesystem says about a path: where it resolves to, whether it exists and is a file. */
  datatype FileProbe = FileProbe(resolved: string, found: bool, isFile: bool)
}
