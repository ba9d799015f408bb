/** `boost::filesystem::path` operations used by the resource lookups,
    on paths written as strings with '/' separators. */
module Paths {
  import opened Common

  /** `a / b`: appends a component; an empty left side is dropped. */
  function JoinPath(a: String, b: String): (r: String)
    ensures a == [] ==> r == b
    ensures a != [] ==> r == a + "/" + b
  {
    if a == [] then b else a + "/" + b
  }

  /** The index where the file name starts (after the last '/'). */
  function FileNameStart(p: String): (r: nat)
    ensures r <= |p|
    ensures r > 0 ==> p[r - 1] == '/'
  {
    match FindLastChar(p, '/')
    case None => 0
    case Some(i) => i + 1
  }

  /** The file name holds no '/'. */
  lemma FileNameHasNoSlash(p: String)
    ensures forall k :: FileNameStart(p) <= k < |p| ==> p[k] != '/'
  {
    FindLastCharIsLast(p, '/');
  }

  /** The index where the extension of the file name starts, if it has
      one: the last '.' of the file name, except for "." and "..". */
  function ExtensionStart(p: String): (r: Option<nat>)
    ensures r.Some? ==> FileNameStart(p) <= r.value < |p| && p[r.value] == '.'
  {
    var name := p[FileNameStart(p)..];
    if name == "." || name == ".." then None
    else match FindLastChar(name, '.')
      case None => None
      case Some(i) => Some(FileNameStart(p) + i)
  }

  /** The extension starts at the last '.' and lies within the file name. */
  lemma ExtensionIsLast(p: String)
    ensures ExtensionStart(p).Some? ==>
      forall k :: ExtensionStart(p).value < k < |p| ==> p[k] != '.' && p[k] != '/'
  {
    FileNameHasNoSlash(p);
    var n := FileNameStart(p);
    var name := p[n..];
    if !(name == "." || name == "..") {
      FindLastCharIsLast(name, '.');
      if FindLastChar(name, '.').Some? {
        var i := FindLastChar(name, '.').value;
        forall k | n + i < k < |p| ensures p[k] != '.' && p[k] != '/' {
          assert p[k] == name[k - n];
        }
      }
    }
  }

  /** `path::replace_extension(ext)` for an extension starting with '.':
      the old extension, if any, is cut and `ext` appended. */
  function ReplaceExtension(p: String, ext: String): (r: String)
    ensures |r| <= |p| + |ext|
    ensures |r| >= |ext|
  {
    match ExtensionStart(p)
    case None => p + ext
    case Some(i) => p[..i] + ext
  }

  /** The new path is a prefix of the old one followed by `ext`. */
  lemma ReplaceExtensionKeepsStem(p: String, ext: String)
    ensures exists k :: 0 <= k <= |p| && ReplaceExtension(p, ext) == p[..k] + ext
  {
    match ExtensionStart(p)
    case None => assert p[..|p|] == p;
    case Some(i) =>
  }

  /** The new path ends with the new extension. */
  lemma ReplaceExtensionEndsWith(p: String, ext: String)
    ensures EndsWith(ReplaceExtension(p, ext), ext)
  {
    var r := ReplaceExtension(p, ext);
    assert r[|r| - |ext|..] == ext;
  }

  /** `path::extension()`: from the last '.' of the file name on, or "". */
  function Extension(p: String): (r: String)
    ensures r == [] || r[0] == '.'
  {
    match ExtensionStart(p)
    case None => []
    case Some(i) => p[i..]
  }

  /** The extension is a suffix of the path. */
  lemma ExtensionIsSuffix(p: String)
    ensures EndsWith(p, Extension(p))
  {
    match ExtensionStart(p)
    case None => assert p[|p|..|p|] == [];
    case Some(i) => assert p[|p| - |p[i..]|..|p|] == p[i..];
  }

  /** `path::parent_path()` of a path without a trailing '/': everything
      before the last '/', "/" for a file directly under the root, "" for
      a bare file name. */
  function ParentPath(p: String): (r: String)
    ensures |r| <= |p|
    ensures FileNameStart(p) > 1 ==> p == r + "/" + p[FileNameStart(p)..]
  {
    var n := FileNameStart(p);
    if n == 0 then [] else if n == 1 then "/" else p[..n - 1]
  }

  /** A path has the extension `ext`, a '.' followed by characters that
      are neither '.' nor '/', exactly when it ends with `ext`. */
  lemma ExtensionTest(file: String, ext: String)
    requires |ext| >= 2 && ext[0] == '.'
    requires forall j :: 1 <= j < |ext| ==> ext[j] != '.' && ext[j] != '/'
    ensures Extension(file) == ext <==> EndsWith(file, ext)
  {
    ExtensionIsSuffix(file);
    if EndsWith(file, ext) {
      var k := |file| - |ext|;
      assert file[k..] == ext;
      forall j | k < j < |file| ensures file[j] != '/' && file[j] != '.' {
        assert file[j] == ext[j - k];
      }
      match FindLastChar(file, '/') {
        case None =>
        case Some(i) => assert i <= k;
      }
      var n := FileNameStart(file);
      var name := file[n..];
      assert name[k - n] == file[k];
      assert name[|name| - 1] == ext[|ext| - 1];
      FindLastCharAt(name, '.', k - n);
    }
  }
}
