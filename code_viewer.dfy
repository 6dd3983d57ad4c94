/** The code viewer (components/CodeViewer.tsx): a flat list of a repository's
    files, the selected file's content, and a copy button whose "Copied!"
    acknowledgment a timer turns off again. */
module CodeViewer {
  import opened Wrappers
  import opened CodeRepositoryEntity

  /** `useState(files[0] || null)`: the first file, or none for an empty list. */
  function InitialSelection(files: seq<CodeFile>): (r: Option<CodeFile>)
    ensures r.Some? <==> |files| > 0
    ensures r.Some? ==> r.value == files[0]
  {
    if |files| > 0 then Some(files[0]) else None
  }

  /** The "No code files available" placeholder is rendered instead of the viewer. */
  predicate ShowsEmptyState(files: seq<CodeFile>) {
    |files| == 0
  }

  /** `selectedFile?.fileName === file.fileName`: the entry for `file` is highlighted. */
  predicate IsActive(selected: Option<CodeFile>, file: CodeFile) {
    selected.Some? && selected.value.fileName == file.fileName
  }

  /** The label of the copy button. */
  function CopyLabel(copied: bool): string {
    if copied then "Copied!" else "Copy"
  }

  /** With no files the placeholder is shown and nothing is selected; otherwise the viewer
      opens on the first file. */
  lemma EmptyStateIffNoSelection(files: seq<CodeFile>)
    ensures ShowsEmptyState(files) <==> InitialSelection(files) == None
  {
  }

  /** Once entry `i` is selected, an entry is highlighted exactly when its `fileName`
      equals that of entry `i`; so entries sharing a name are highlighted together. */
  lemma {:induction false} SelectionHighlightsSameName(files: seq<CodeFile>, i: nat, j: nat)
    requires i < |files| && j < |files|
    ensures IsActive(Some(files[i]), files[i])
    ensures IsActive(Some(files[i]), files[j]) <==> files[j].fileName == files[i].fileName
  {
  }

  /** When no two files share a `fileName`, selecting entry `i` highlights entry `i` alone. */
  lemma {:induction false} DistinctNamesHighlightOne(files: seq<CodeFile>, i: nat)
    requires i < |files|
    requires forall a, b :: 0 <= a < b < |files| ==> files[a].fileName != files[b].fileName
    ensures forall j :: 0 <= j < |files| ==> (IsActive(Some(files[i]), files[j]) <==> j == i)
  {
    forall j | 0 <= j < |files| ensures IsActive(Some(files[i]), files[j]) <==> j == i {
      if j < i {
        assert files[j].fileName != files[i].fileName;
      } else if i < j {
        assert files[i].fileName != files[j].fileName;
      }
    }
  }

  /** The component's state: `selectedFile`, `copied`, and the number of reset timers
      started by `handleCopy` that have not fired yet. `files` is the prop. */
  class Viewer {
    const files: seq<CodeFile>
    var selectedFile: Option<CodeFile>
    var copied: bool
    var pendingResets: nat

    /** The selection is always one of the listed files. */
    ghost predicate Valid()
      reads this
    {
      selectedFile.Some? ==> selectedFile.value in files
    }

    /** The first render: the first file selected, nothing copied, no timer running. */
    constructor (files: seq<CodeFile>)
      ensures Valid() && this.files == files
      ensures selectedFile == InitialSelection(files)
      ensures !copied && pendingResets == 0
    {
      this.files := files;
      selectedFile := InitialSelection(files);
      copied := false;
      pendingResets := 0;
    }

    /** A click on the `i`-th entry of the file list: `setSelectedFile(file)`.
        `copied` is not touched, so a pending "Copied!" stays on the new file. */
    method Select(i: nat)
      requires Valid() && i < |files|
      modifies this`selectedFile
      ensures Valid()
      ensures selectedFile == Some(files[i])
      ensures copied == old(copied) && pendingResets == old(pendingResets)
    {
      selectedFile := Some(files[i]);
    }

    /** `handleCopy`. With no selection it does nothing. Otherwise the content is written to
        the clipboard; only when that write succeeds are `copied` set and the reset timer
        started, because both follow the awaited write. */
    method HandleCopy(writeSucceeds: bool) returns (wrote: bool)
      requires Valid()
      modifies this`copied, this`pendingResets
      ensures Valid()
      ensures wrote <==> selectedFile.Some?
      ensures wrote && writeSucceeds ==> copied && pendingResets == old(pendingResets) + 1
      ensures !(wrote && writeSucceeds) ==> copied == old(copied) && pendingResets == old(pendingResets)
    {
      wrote := selectedFile.Some?;
      if wrote && writeSucceeds {
        copied := true;
        pendingResets := pendingResets + 1;
      }
    }

    /** One reset timer fires, 2000 ms after its copy: `setCopied(false)`. */
    method TimerFired()
      requires Valid() && pendingResets > 0
      modifies this`copied, this`pendingResets
      ensures Valid()
      ensures !copied && pendingResets == old(pendingResets) - 1
    {
      copied := false;
      pendingResets := pendingResets - 1;
    }
  }

  /** Copying file `a` and then selecting file `b` still shows "Copied!" on `b`: the flag
      belongs to the viewer, not to a file. */
  method CopyThenSwitch(a: CodeFile, b: CodeFile) returns (shown: Option<CodeFile>, caption: string)
    ensures shown == Some(b)
    ensures caption == "Copied!"
  {
    var viewer := new Viewer([a, b]);
    var wrote := viewer.HandleCopy(true);
    viewer.Select(1);
    shown := viewer.selectedFile;
    caption := CopyLabel(viewer.copied);
  }
}
