/**
 * What both `get_input_files` share: the filesystem as the scripts observe it
 * and the non-recursive, case-insensitive, order-preserving scan of a folder.
 */
module Discovery {
  import opened Paths

  /** What `os.path.isdir` / `os.path.isfile` / `os.path.exists` report for a path, with the folder's listing. */
  datatype PathKind = Directory(entries: seq<string>) | RegularFile | OtherNode | Missing

  /** A snapshot of the filesystem taken when the path is typed; `os.listdir` order is the order of `entries`. */
  type FileSystem = string -> PathKind

  /** The folder used when the path prompt is left empty, relative to the working directory. */
  const DefaultInputFolder := "Source_Audio"

  /** What a call of `get_input_files` ends in: a queue, `sys.exit(code)`, or an exception it does not catch. */
  datatype Outcome = Found(files: seq<string>) | Exit(code: int) | Raised

  /** The outcome, and whether `os.makedirs` created the default folder on the way. */
  datatype Discovered = Discovered(outcome: Outcome, createdDefault: bool)

  /**
   * The paths a scan of `dir` queues: every listed name whose lower-cased form ends
   * with a supported extension, joined to `dir`, in listing order.
   */
  function SupportedIn(dir: string, entries: seq<string>): (files: seq<string>)
    ensures |files| <= |entries|
    ensures forall f :: f in files ==> HasSupportedExtension(f)
  {
    if entries == [] then []
    else
      var rest := SupportedIn(dir, entries[..|entries| - 1]);
      var name := entries[|entries| - 1];
      if HasSupportedExtension(name) then
        JoinKeepsExtension(dir, name);
        rest + [Join(dir, name)]
      else rest
  }

  lemma JoinKeepsExtension(dir: string, name: string)
    requires HasSupportedExtension(name)
    ensures HasSupportedExtension(Join(dir, name))
  {
    var joined := Join(dir, name);
    assert joined == joined[..|joined| - |name|] + name;
    SupportedSuffix(joined[..|joined| - |name|], name);
  }

  /** The positions, in increasing order, of the listed names with a supported extension. */
  function SupportedPositions(entries: seq<string>): (idx: seq<nat>)
    ensures forall k :: 0 <= k < |idx| ==> idx[k] < |entries| && HasSupportedExtension(entries[idx[k]])
    ensures forall k, l :: 0 <= k < l < |idx| ==> idx[k] < idx[l]
    ensures forall i :: 0 <= i < |entries| && HasSupportedExtension(entries[i]) ==> i in idx
  {
    if entries == [] then []
    else
      var init := entries[..|entries| - 1];
      var rest := SupportedPositions(init);
      if HasSupportedExtension(entries[|entries| - 1]) then rest + [|entries| - 1] else rest
  }

  /** `files[k]` is the `idx[k]`-th listed name joined to `dir`, for every k. */
  predicate Follows(files: seq<string>, dir: string, entries: seq<string>, idx: seq<nat>) {
    |files| == |idx| && forall k :: 0 <= k < |idx| ==> idx[k] < |entries| && files[k] == Join(dir, entries[idx[k]])
  }

  lemma FollowsSkip(files: seq<string>, dir: string, entries: seq<string>, idx: seq<nat>, name: string)
    requires Follows(files, dir, entries, idx)
    ensures Follows(files, dir, entries + [name], idx)
  {
    forall k | 0 <= k < |idx|
      ensures (entries + [name])[idx[k]] == entries[idx[k]]
    {
    }
  }

  lemma FollowsTake(files: seq<string>, dir: string, entries: seq<string>, idx: seq<nat>, name: string)
    requires Follows(files, dir, entries, idx)
    ensures Follows(files + [Join(dir, name)], dir, entries + [name], idx + [|entries|])
  {
    forall k | 0 <= k < |idx|
      ensures (entries + [name])[idx[k]] == entries[idx[k]]
    {
    }
  }

  /**
   * The scan queues exactly the supported names, in listing order, each joined
   * to the folder: the k-th queued path comes from the k-th supported position.
   */
  lemma {:induction false} ScanFollowsListing(dir: string, entries: seq<string>)
    ensures Follows(SupportedIn(dir, entries), dir, entries, SupportedPositions(entries))
  {
    if entries != [] {
      var n := |entries|;
      var init, name := entries[..n - 1], entries[n - 1];
      assert entries == init + [name];
      ScanFollowsListing(dir, init);
      if HasSupportedExtension(name) {
        FollowsTake(SupportedIn(dir, init), dir, init, SupportedPositions(init), name);
      } else {
        FollowsSkip(SupportedIn(dir, init), dir, init, SupportedPositions(init), name);
      }
    }
  }

  /** The `for f in os.listdir(dir)` loop that appends each supported name to `file_list`. */
  method CollectSupported(dir: string, entries: seq<string>) returns (fileList: seq<string>)
    ensures fileList == SupportedIn(dir, entries)
  {
    fileList := [];
    for i := 0 to |entries|
      invariant fileList == SupportedIn(dir, entries[..i])
    {
      assert entries[..i + 1][..i] == entries[..i];
      if HasSupportedExtension(entries[i]) {
        fileList := fileList + [Join(dir, entries[i])];
      }
    }
    assert entries[..|entries|] == entries;
  }
}
