/** The checkpoint-path rule that `save_weights`, `load_weights`, `save` and
    `load` share (graphgallery/nn/models/torch_keras.py, lines 153-156,
    166-169, 175-178 and 189-192): the library's file extension is appended
    unless the path already ends with it.  The extension is whatever the
    library's `file_ext()` answers, taken here as a parameter. */
module Checkpoint {
  import opened Py

  /** Python's `s.endswith(suffix)`: the last `|suffix|` characters of `s`
      are those of `suffix`, one by one. */
  predicate EndsWith(s: string, suffix: string)
    ensures EndsWith(s, suffix) <==>
      |suffix| <= |s| && forall i :: 0 <= i < |suffix| ==> s[|s| - |suffix| + i] == suffix[i]
  {
    |suffix| <= |s| && s[|s| - |suffix|..] == suffix
  }

  /** `filepath if filepath.endswith(ext) else filepath + ext`. */
  function WithExtension(filepath: string, ext: string): (r: string)
    ensures EndsWith(r, ext)
    ensures |filepath| <= |r| && r[..|filepath|] == filepath
    ensures EndsWith(filepath, ext) ==> r == filepath
    ensures !EndsWith(filepath, ext) ==> r == filepath + ext
  {
    if EndsWith(filepath, ext) then filepath
    else
      assert (filepath + ext)[|filepath + ext| - |ext|..] == ext;
      filepath + ext
  }

  /** Applying the rule to its own result changes nothing. */
  lemma WithExtensionIdempotent(filepath: string, ext: string)
    ensures WithExtension(WithExtension(filepath, ext), ext) == WithExtension(filepath, ext)
  {
  }

  /** The file `save_weights` or `save` writes, or `None` when it returns
      without writing: with `overwrite=False` an existing file is only
      replaced when the user agrees.  `isFile` and `confirm` stand for the
      file-system test and the interactive prompt. */
  function SaveTarget(filepath: string, ext: string, overwrite: bool,
                      isFile: string -> bool, confirm: string -> bool): (r: Option<string>)
    ensures r.Some? ==> r.value == WithExtension(filepath, ext) && EndsWith(r.value, ext)
    ensures r.None? <==>
      !overwrite && isFile(WithExtension(filepath, ext)) && !confirm(WithExtension(filepath, ext))
    ensures overwrite ==> r == Some(WithExtension(filepath, ext))
  {
    var path := WithExtension(filepath, ext);
    if !overwrite && isFile(path) && !confirm(path) then None else Some(path)
  }
}
