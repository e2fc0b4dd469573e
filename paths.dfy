/**
  The `NSString` path operations the tool applies to context names and output
  folders: `lastPathComponent`, `pathExtension`, `deletingPathExtension` and
  `appendingPathComponent`.
*/
module Paths {
  import opened Basics

  /** Index of the last occurrence of `c` in `s`, if any. */
  function LastIndexOf(s: string, c: char): (r: Option<nat>)
    ensures r.Some? ==> r.value < |s| && s[r.value] == c
    ensures r.Some? ==> forall j :: r.value < j < |s| ==> s[j] != c
    ensures r.None? ==> c !in s
    decreases |s|
  {
    if |s| == 0 then None
    else if s[|s| - 1] == c then Some(|s| - 1)
    else
      var r := LastIndexOf(s[..|s| - 1], c);
      assert s == s[..|s| - 1] + [s[|s| - 1]];
      r
  }

  /** Trailing slashes are ignored, except that "/" stays "/". */
  function StripTrailingSlashes(path: string): (r: string)
    ensures |r| <= |path| && r == path[..|r|]
    ensures |r| > 1 ==> r[|r| - 1] != '/'
    decreases |path|
  {
    if |path| > 1 && path[|path| - 1] == '/' then StripTrailingSlashes(path[..|path| - 1]) else path
  }

  /** `(path as NSString).lastPathComponent` */
  function LastPathComponent(path: string): (r: string)
    ensures r == "/" || '/' !in r
  {
    var p := StripTrailingSlashes(path);
    if p == "/" then "/"
    else match LastIndexOf(p, '/')
      case None => p
      case Some(i) => p[i + 1..]
  }

  /** The index of the dot that starts the extension: the last dot, unless it is the first character. */
  function ExtensionDot(name: string): (r: Option<nat>)
    ensures r.Some? ==> 0 < r.value < |name| && name[r.value] == '.'
    ensures r.Some? ==> '.' !in name[r.value + 1..]
  {
    match LastIndexOf(name, '.')
    case Some(i) => if i > 0 then Some(i) else None
    case None => None
  }

  /** `(name as NSString).pathExtension` for a single path component. */
  function PathExtension(name: string): string {
    match ExtensionDot(name)
    case Some(i) => name[i + 1..]
    case None => ""
  }

  /** `(name as NSString).deletingPathExtension` for a single path component. */
  function DeletingPathExtension(name: string): string {
    match ExtensionDot(name)
    case Some(i) => name[..i]
    case None => name
  }

  /**
    The extension holds no dot and ends the name after a dot; deleting it leaves
    a proper prefix of the name, and leaves the name alone exactly when there is
    no extension dot.
  */
  lemma ExtensionParts(name: string)
    ensures '.' !in PathExtension(name)
    ensures PathExtension(name) != "" ==> EndsWith(name, "." + PathExtension(name))
    ensures var base := DeletingPathExtension(name);
      |base| <= |name| && base == name[..|base|] && (base == name <==> ExtensionDot(name).None?)
  {
    if ExtensionDot(name).Some? {
      var i := ExtensionDot(name).value;
      assert name[i..] == "." + name[i + 1..];
    }
  }

  /**
    A component whose extension is `ext` is its base name, a dot and `ext`:
    so `<base>.strings` names the very file the context names.
  */
  lemma BaseAndExtension(name: string, ext: string)
    requires ext != "" && PathExtension(name) == ext
    ensures DeletingPathExtension(name) + ("." + ext) == name
    ensures '.' !in ext
  {
    var i := ExtensionDot(name).value;
    assert name == name[..i] + ([name[i]] + name[i + 1..]);
  }

  /**
    `URL.appendingPathComponent` / `NSString.appendingPathComponent`: the
    directory, exactly one separator and the component, with nothing else added.
  */
  function AppendingPathComponent(dir: string, component: string): (r: string)
    ensures StartsWith(r, dir) && EndsWith(r, component)
    ensures |r| > |component| && r[|r| - |component| - 1] == '/'
    ensures |r| == |dir| + |component| + (if EndsWith(dir, "/") then 0 else 1)
  {
    if EndsWith(dir, "/") then dir + component else dir + "/" + component
  }

  /** The last component of a joined path is the component that was joined. */
  lemma JoinThenLast(dir: string, component: string)
    requires component != "" && '/' !in component
    ensures LastPathComponent(AppendingPathComponent(dir, component)) == component
  {
    var r := AppendingPathComponent(dir, component);
    var k := |r| - |component| - 1;
    assert r[k + 1..] == component;
    assert r[|r| - 1] == component[|component| - 1] != '/';
    assert StripTrailingSlashes(r) == r;
    assert r[k] in r;
  }
}
