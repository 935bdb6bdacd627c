/** The renderer's path helpers (`src/scene/util.rs`): splitting a path at its
    last `/` and replacing the text after its last `.`. A missing separator
    is a panic in the source and an `Err` here. Paths are taken one character
    per byte, so the byte offset `rfind` returns is also a character count. */
module SceneUtil {
  import opened Wrappers
  import opened Strings

  datatype PathError = NoSlash(path: string) | NoDot(path: string)

  /** `get_basename`: the text after the last `/`. */
  function Basename(path: string): (r: Result<string, PathError>)
    ensures r.Err? <==> '/' !in path
    ensures r.Err? ==> r.error == NoSlash(path)
    ensures r.Ok? ==> '/' !in r.value && |r.value| < |path| && r.value == path[|path| - |r.value|..]
                      && path[|path| - |r.value| - 1] == '/'
  {
    match FindLast(path, '/')
    case None => Err(NoSlash(path))
    case Some(pos) => Ok(path[pos + 1..])
  }

  /** `get_dirname`: the text before the last `/` (empty for `/x`). */
  function Dirname(path: string): (r: Result<string, PathError>)
    ensures r.Err? <==> '/' !in path
    ensures r.Err? ==> r.error == NoSlash(path)
    ensures r.Ok? ==> |r.value| < |path| && r.value == path[..|r.value|] && path[|r.value|] == '/'
                      && '/' !in path[|r.value| + 1..]
  {
    match FindLast(path, '/')
    case None => Err(NoSlash(path))
    case Some(pos) => Ok(path[..pos])
  }

  /** `get_extension`: the text after the last `.`. */
  function Extension(path: string): (r: Result<string, PathError>)
    ensures r.Err? <==> '.' !in path
    ensures r.Err? ==> r.error == NoDot(path)
    ensures r.Ok? ==> '.' !in r.value && |r.value| < |path| && r.value == path[|path| - |r.value|..]
                      && path[|path| - |r.value| - 1] == '.'
  {
    match FindLast(path, '.')
    case None => Err(NoDot(path))
    case Some(pos) => Ok(path[pos + 1..])
  }

  /** `change_extension`: the text before the last `.`, then `.`, then `extension`. */
  function ChangeExtension(path: string, extension: string): (r: Result<string, PathError>)
    ensures r.Err? <==> '.' !in path
    ensures r.Err? ==> r.error == NoDot(path)
    ensures r.Ok? ==> r.value == path[..|path| - |Extension(path).value|] + extension
  {
    match FindLast(path, '.')
    case None => Err(NoDot(path))
    case Some(pos) => Ok(path[..pos] + "." + extension)
  }

  /** Splitting at the last `/` loses nothing: the directory, a `/` and the
      base name spell the path again. */
  lemma DirnameBasename(path: string)
    requires '/' in path
    ensures Dirname(path).Ok? && Basename(path).Ok?
    ensures Dirname(path).value + "/" + Basename(path).value == path
  {
    var pos := FindLast(path, '/').value;
    assert path == path[..pos] + "/" + path[pos + 1..];
  }

  /** The new extension is what `get_extension` then reads back, provided it
      holds no `.` of its own. */
  lemma ExtensionOfChanged(path: string, extension: string)
    requires '.' in path && '.' !in extension
    ensures ChangeExtension(path, extension).Ok?
    ensures Extension(ChangeExtension(path, extension).value) == Ok(extension)
  {
    var changed := ChangeExtension(path, extension).value;
    var pos := FindLast(path, '.').value;
    assert changed == path[..pos] + "." + extension;
    var last := FindLast(changed, '.');
    assert changed[pos] == '.';
    assert forall k :: pos < k < |changed| ==> changed[k] == extension[k - pos - 1];
    assert last == Some(pos) by {
      assert '.' !in changed[pos + 1..] by {
        assert changed[pos + 1..] == extension;
      }
      LastAt(changed, '.', pos);
    }
    assert changed[pos + 1..] == extension;
  }

  /** Changing to the extension the path already has gives back the path. */
  lemma ChangeExtensionKeepsStem(path: string, extension: string)
    requires '.' in path
    ensures ChangeExtension(path, extension).Ok?
    ensures ChangeExtension(path, Extension(path).value) == Ok(path)
  {
    var pos := FindLast(path, '.').value;
    assert path == path[..pos] + "." + path[pos + 1..];
  }

  /** Changing the extension twice to the same one is the same as once. */
  lemma ChangeExtensionIdempotent(path: string, extension: string)
    requires '.' in path && '.' !in extension
    ensures ChangeExtension(path, extension).Ok?
    ensures ChangeExtension(ChangeExtension(path, extension).value, extension) == ChangeExtension(path, extension)
  {
    ExtensionOfChanged(path, extension);
    ChangeExtensionKeepsStem(ChangeExtension(path, extension).value, extension);
  }

  /** `c` last occurs at `i` exactly when `FindLast` says so. */
  lemma LastAt(s: string, c: char, i: nat)
    requires i < |s| && s[i] == c && c !in s[i + 1..]
    ensures FindLast(s, c) == Some(i)
  {
    forall k | i < k < |s|
      ensures s[k] != c
    {
      assert s[k] == s[i + 1..][k - i - 1];
    }
  }
}
