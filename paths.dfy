/** The parts of Foundation's `URL` path handling that decide output names: the last
    path component, the path extension, and appending a component to a directory. A
    path is a plain `/`-separated string. */
module Paths {
  import opened Common

  /** `url.lastPathComponent`: what follows the last `/`, or the whole path when it
      has none. */
  function LastPathComponent(path: string): (name: string)
    ensures '/' !in name
    ensures |name| <= |path| && path[|path| - |name|..] == name
    ensures |name| < |path| ==> path[|path| - |name| - 1] == '/'
  {
    match LastIndexOf(path, '/')
    case None => path
    case Some(i) => path[i + 1..]
  }

  /** `name.deletingPathExtension()` for a single file name: the part before the last
      `.`, provided that dot is neither the first nor the last character. */
  function DeletingPathExtension(name: string): (stem: string)
    ensures |stem| <= |name| && name[..|stem|] == stem
    ensures stem != name ==>
              && 0 < |stem| && |stem| + 1 < |name|
              && name[|stem|] == '.' && '.' !in name[|stem| + 1..]
  {
    match LastIndexOf(name, '.')
    case None => name
    case Some(i) => if 0 < i < |name| - 1 then name[..i] else name
  }

  /** `url.deletingPathExtension().lastPathComponent`: the file name without its
      extension, the name every output artifact is derived from. */
  function FileStem(path: string): (stem: string)
    ensures '/' !in stem
  {
    DeletingPathExtension(LastPathComponent(path))
  }

  /** `URL(fileURLWithPath: directory).appendingPathComponent(component)`: the
      component inside the directory, with one `/` between them. */
  function AppendingPathComponent(directory: string, component: string): (path: string)
    ensures directory != [] && directory[|directory| - 1] == '/' ==> path == directory + component
    ensures (directory == [] || directory[|directory| - 1] != '/') ==> path == directory + "/" + component
    ensures '/' !in component ==> LastPathComponent(path) == component
  {
    var joined := if directory != [] && directory[|directory| - 1] == '/' then directory + component
                  else directory + "/" + component;
    if '/' in component then joined
    else
      LastPathNamed(joined, component);
      joined
  }

  /** A path that ends in `/` followed by `component` has `component` as its last
      path component. */
  lemma LastPathNamed(path: string, component: string)
    requires '/' !in component && |component| < |path|
    requires path[|path| - |component|..] == component
    requires path[|path| - |component| - 1] == '/'
    ensures LastPathComponent(path) == component
  {
    LastIndexAt(path, '/', |path| - |component| - 1);
  }

  /** The text file a transcript of `path` is written to inside `directory`:
      `<directory>/<stem>.txt`. */
  function TextFileURL(directory: string, path: string): (target: string)
    ensures directory != [] && directory[|directory| - 1] == '/' ==> target == directory + (FileStem(path) + ".txt")
    ensures (directory == [] || directory[|directory| - 1] != '/') ==>
              target == directory + "/" + (FileStem(path) + ".txt")
    ensures LastPathComponent(target) == FileStem(path) + ".txt"
  {
    var stem := FileStem(path);
    assert '/' !in stem + ".txt" by {
      assert forall i :: 0 <= i < |".txt"| ==> ".txt"[i] != '/';
    }
    AppendingPathComponent(directory, stem + ".txt")
  }

  /** Deleting the extension of `stem + extension`, where the extension is a dot
      followed by at least one character and no other dot, gives back `stem`. */
  lemma DeletingAddedExtension(stem: string, extension: string)
    requires stem != [] && |extension| >= 2
    requires extension[0] == '.' && '.' !in extension[1..]
    ensures DeletingPathExtension(stem + extension) == stem
  {
    var name := stem + extension;
    assert name[|stem| + 1..] == extension[1..];
    LastIndexAt(name, '.', |stem|);
    assert name[..|stem|] == stem;
  }

  /** The stem of the text file is the stem of the image it was made from, unless the
      image's name has no stem to keep (a name such as `.png`). */
  lemma TextFileKeepsStem(directory: string, path: string)
    requires FileStem(path) != ""
    ensures FileStem(TextFileURL(directory, path)) == FileStem(path)
  {
    var stem := FileStem(path);
    var target := TextFileURL(directory, path);
    DeletingAddedExtension(stem, ".txt");
    assert FileStem(target) == DeletingPathExtension(LastPathComponent(target));
  }
}
