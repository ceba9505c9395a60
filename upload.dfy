/**
 * The `Upload` component (packages/components/src/components/upload/Upload.tsx):
 * the size filter applied to a new selection, removal of one listed file, and
 * the guards of the drop, drag and input handlers.
 */
module Upload {
  import opened Wrappers
  import opened Seqs

  /** The part of a DOM `File` the component uses: its name and its size in bytes. */
  datatype File = File(name: string, size: nat)

  /** `maxSize` in a boolean position: absent and `0` disable the limit. */
  predicate HasLimit(maxSize: Option<int>) {
    maxSize.Some? && maxSize.value != 0
  }

  /** The files `handleFiles` keeps from a selection. */
  function KeptFiles(selected: seq<File>, maxSize: Option<int>): (kept: seq<File>)
    ensures |kept| <= |selected|
    ensures HasLimit(maxSize) ==> forall i :: 0 <= i < |kept| ==> kept[i] in selected && kept[i].size <= maxSize.value
    ensures !HasLimit(maxSize) ==> kept == selected
  {
    if HasLimit(maxSize) then Filter(selected, (f: File) => f.size <= maxSize.value) else selected
  }

  /**
   * With a limit, a file is kept exactly when it was selected and is no larger
   * than the limit; without one, the whole selection is kept.
   */
  lemma KeptFilesMembers(selected: seq<File>, maxSize: Option<int>, f: File)
    ensures HasLimit(maxSize) ==> (f in KeptFiles(selected, maxSize) <==> f in selected && f.size <= maxSize.value)
    ensures !HasLimit(maxSize) ==> KeptFiles(selected, maxSize) == selected
  {
    if HasLimit(maxSize) {
      FilterMembers(selected, (g: File) => g.size <= maxSize.value, f);
    }
  }

  /** The kept files are in the order they were selected in. */
  lemma KeptFilesKeepOrder(a: seq<File>, b: seq<File>, maxSize: Option<int>)
    ensures KeptFiles(a + b, maxSize) == KeptFiles(a, maxSize) + KeptFiles(b, maxSize)
  {
    if HasLimit(maxSize) {
      FilterAppend(a, b, (f: File) => f.size <= maxSize.value);
    }
  }

  /** `files.filter((_, i) => i !== index)`, with `from` the index of `s[0]` in the list. */
  function WithoutIndexFrom(s: seq<File>, index: int, from: int): (r: seq<File>)
    ensures |r| == if from <= index < from + |s| then |s| - 1 else |s|
    ensures forall i :: 0 <= i < |r| ==> r[i] in s
    decreases |s|
  {
    if s == [] then []
    else (if from != index then [s[0]] else []) + WithoutIndexFrom(s[1..], index, from + 1)
  }

  /** The list `removeFile(index)` computes. */
  function RemoveAt(files: seq<File>, index: int): (r: seq<File>)
    ensures |r| == if 0 <= index < |files| then |files| - 1 else |files|
    ensures forall i :: 0 <= i < |r| ==> r[i] in files
  {
    WithoutIndexFrom(files, index, 0)
  }

  lemma {:induction false} WithoutIndexFromSplices(s: seq<File>, index: int, from: int)
    ensures WithoutIndexFrom(s, index, from) ==
      if from <= index < from + |s| then s[..index - from] + s[index - from + 1..] else s
    decreases |s|
  {
    if s != [] {
      var tail := WithoutIndexFrom(s[1..], index, from + 1);
      WithoutIndexFromSplices(s[1..], index, from + 1);
      if from == index {
        assert WithoutIndexFrom(s, index, from) == tail;
        assert tail == s[1..];
        assert s[..0] + s[1..] == s[1..];
      } else if from < index < from + |s| {
        var k := index - from;
        assert WithoutIndexFrom(s, index, from) == [s[0]] + tail;
        assert tail == s[1..][..k - 1] + s[1..][k..];
        assert s[1..][..k - 1] == s[1..k];
        assert s[1..][k..] == s[k + 1..];
        assert [s[0]] + (s[1..k] + s[k + 1..]) == s[..k] + s[k + 1..];
      } else {
        assert WithoutIndexFrom(s, index, from) == [s[0]] + tail;
        assert tail == s[1..];
        assert [s[0]] + s[1..] == s;
      }
    }
  }

  /**
   * `removeFile(index)` drops exactly the file at `index` and keeps the rest in
   * order; an index outside the list leaves it as it is.
   */
  lemma RemoveAtSplices(files: seq<File>, index: int)
    ensures RemoveAt(files, index) == if 0 <= index < |files| then files[..index] + files[index + 1..] else files
  {
    WithoutIndexFromSplices(files, index, 0);
  }

  /** The component state (`files`, `dragOver`) and the lists passed to `onFileSelect`. */
  class UploadState {
    const maxSize: Option<int>
    const disabled: bool
    var files: seq<File>
    var dragOver: bool
    /** The arguments of the `onFileSelect` calls, in order. */
    var selections: seq<seq<File>>

    constructor (maxSize: Option<int>, disabled: bool)
      ensures this.maxSize == maxSize && this.disabled == disabled
      ensures files == [] && !dragOver && selections == []
    {
      this.maxSize := maxSize;
      this.disabled := disabled;
      files := [];
      dragOver := false;
      selections := [];
    }

    /** `handleFiles`: the kept files replace the list, and the same list goes to `onFileSelect`. */
    method HandleFiles(fileList: seq<File>)
      modifies this`files, this`selections
      ensures files == KeptFiles(fileList, maxSize)
      ensures selections == old(selections) + [files]
    {
      if HasLimit(maxSize) {
        var validFiles := Filter(fileList, (f: File) => f.size <= maxSize.value);
        files := validFiles;
        selections := selections + [validFiles];
      } else {
        files := fileList;
        selections := selections + [fileList];
      }
    }

    /** `handleDrop`: always ends the drag-over state; takes the files only when enabled and some were dropped. */
    method HandleDrop(dropped: seq<File>)
      modifies this
      ensures !dragOver
      ensures !disabled && |dropped| > 0 ==> files == KeptFiles(dropped, maxSize) && selections == old(selections) + [files]
      ensures disabled || |dropped| == 0 ==> files == old(files) && selections == old(selections)
    {
      dragOver := false;
      if !disabled && |dropped| > 0 {
        HandleFiles(dropped);
      }
    }

    /** `handleDragOver`: enters the drag-over state only when enabled. */
    method HandleDragOver()
      modifies this`dragOver
      ensures dragOver == (if disabled then old(dragOver) else true)
    {
      if !disabled {
        dragOver := true;
      }
    }

    /** `handleDragLeave`: always leaves the drag-over state. */
    method HandleDragLeave()
      modifies this`dragOver
      ensures !dragOver
    {
      dragOver := false;
    }

    /** `handleInputChange`: a missing or empty file list is ignored. */
    method HandleInputChange(fileList: Option<seq<File>>)
      modifies this`files, this`selections
      ensures fileList.Some? && |fileList.value| > 0 ==>
        files == KeptFiles(fileList.value, maxSize) && selections == old(selections) + [files]
      ensures fileList.None? || |fileList.value| == 0 ==> files == old(files) && selections == old(selections)
    {
      if fileList.Some? && |fileList.value| > 0 {
        HandleFiles(fileList.value);
      }
    }

    /** `removeFile(index)`: the list without that index replaces the files and goes to `onFileSelect`. */
    method RemoveFile(index: int)
      modifies this`files, this`selections
      ensures files == RemoveAt(old(files), index)
      ensures selections == old(selections) + [files]
    {
      var newFiles := RemoveAt(files, index);
      files := newFiles;
      selections := selections + [newFiles];
    }
  }
}
