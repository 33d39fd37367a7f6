/**
 * The file-selection list of the upload widget. The drop zone itself decides
 * which files it accepts and rejects; the component keeps the selected files,
 * one error line per rejected file, and reports every new selection to its
 * `onFilesSelected` callback (recorded here as the list of calls made).
 */
module FileUploader {
  import opened Strings

  const DefaultMaxFiles := 10
  const DefaultMaxSize := 50 * 1024 * 1024

  /** A browser `File`: its name and size in bytes. */
  datatype File = File(name: string, size: nat)

  /** A file the drop zone refused, with the codes of the reasons. */
  datatype FileRejection = FileRejection(file: File, errorCodes: seq<string>)

  function Min(a: int, b: int): int { if a <= b then a else b }
  function Max(a: int, b: int): int { if a <= b then b else a }

  /** `s.slice(0, end)`: a negative `end` counts back from the end of `s`. */
  function Slice<T>(s: seq<T>, end: int): (r: seq<T>)
    ensures r <= s
    ensures 0 <= end ==> |r| == Min(end, |s|)
    ensures end < 0 ==> |r| == Max(|s| + end, 0)
  {
    if 0 <= end then s[..Min(end, |s|)] else s[..Max(|s| + end, 0)]
  }

  /** The selection after a drop: the old selection, then the accepted files, cut to `maxFiles`. */
  function MergeSelection(files: seq<File>, accepted: seq<File>, maxFiles: int): (r: seq<File>)
    ensures r <= files + accepted
    ensures 0 <= maxFiles ==> |r| == Min(maxFiles, |files| + |accepted|)
    ensures |files| <= maxFiles ==> files <= r
    ensures |files| + |accepted| <= maxFiles ==> r == files + accepted
  {
    Slice(files + accepted, maxFiles)
  }

  /** `files.filter((_, i) => i !== index)`. */
  function DropIndex<T>(s: seq<T>, index: int): (r: seq<T>)
    ensures 0 <= index < |s| ==> r == s[..index] + s[index + 1..]
    ensures !(0 <= index < |s|) ==> r == s
    decreases |s|
  {
    if s == [] then []
    else (if index == 0 then [] else [s[0]]) + DropIndex(s[1..], index - 1)
  }

  /** `codes.join(", ")`. */
  function JoinCodes(codes: seq<string>): (s: string)
    ensures codes == [] ==> s == ""
  {
    if codes == [] then ""
    else if |codes| == 1 then codes[0]
    else codes[0] + ", " + JoinCodes(codes[1..])
  }

  /** Splits at each comma and drops the character after it: the inverse of `JoinCodes`. */
  function SplitCodes(s: string): (codes: seq<string>)
    ensures codes != []
    decreases |s|
  {
    var k := IndexOf(s, ',');
    if k == |s| then [s]
    else [s[..k]] + SplitCodes(s[Min(k + 2, |s|)..])
  }

  /** Codes without commas can be read back from the joined text. */
  lemma {:induction false} SplitJoinCodes(codes: seq<string>)
    requires codes != []
    requires forall i :: 0 <= i < |codes| ==> ',' !in codes[i]
    ensures SplitCodes(JoinCodes(codes)) == codes
  {
    if |codes| == 1 {
      assert JoinCodes(codes) == codes[0];
    } else {
      var head, rest := codes[0], JoinCodes(codes[1..]);
      var s := head + ", " + rest;
      assert JoinCodes(codes) == s;
      var k := |head|;
      assert s[k] == ',';
      forall j | 0 <= j < k ensures s[j] != ',' {
        assert s[j] == head[j];
      }
      IndexOfUnique(s, ',', k);
      assert s[..k] == head;
      assert s[k + 2..] == rest;
      SplitJoinCodes(codes[1..]);
      assert codes == [head] + codes[1..];
    }
  }

  /** The error line shown for one rejected file. */
  function ErrorLine(rejection: FileRejection): (line: string)
    ensures line == rejection.file.name + ": " + JoinCodes(rejection.errorCodes)
  {
    rejection.file.name + ": " + JoinCodes(rejection.errorCodes)
  }

  /** The codes of a rejection are read back from its error line, after the name and ": ". */
  lemma ErrorLineCodesReadBack(rejection: FileRejection)
    requires rejection.errorCodes != []
    requires forall i :: 0 <= i < |rejection.errorCodes| ==> ',' !in rejection.errorCodes[i]
    ensures SplitCodes(ErrorLine(rejection)[|rejection.file.name| + 2..]) == rejection.errorCodes
  {
    assert ErrorLine(rejection)[|rejection.file.name| + 2..] == JoinCodes(rejection.errorCodes);
    SplitJoinCodes(rejection.errorCodes);
  }

  /** One error line per rejected file, in rejection order. */
  function ErrorLines(rejected: seq<FileRejection>): (lines: seq<string>)
    ensures |lines| == |rejected|
    ensures forall i :: 0 <= i < |rejected| ==> lines[i] == ErrorLine(rejected[i])
  {
    seq(|rejected|, i requires 0 <= i < |rejected| => ErrorLine(rejected[i]))
  }

  /** The component's state. */
  class Uploader {
    const maxFiles: int
    const maxSize: int
    var files: seq<File>
    var errors: seq<string>
    /** The arguments of the calls made to `onFilesSelected`, oldest first. */
    var notified: seq<seq<File>>

    /** With a non-negative `maxFiles`, the selection never holds more than `maxFiles` files. */
    ghost predicate Valid()
      reads this
    {
      0 <= maxFiles ==> |files| <= maxFiles
    }

    constructor (maxFiles: int := DefaultMaxFiles, maxSize: int := DefaultMaxSize)
      ensures Valid()
      ensures this.maxFiles == maxFiles && this.maxSize == maxSize
      ensures files == [] && errors == [] && notified == []
    {
      this.maxFiles := maxFiles;
      this.maxSize := maxSize;
      files := [];
      errors := [];
      notified := [];
    }

    /** `onDrop`: merge the accepted files, report the new selection, and replace the error lines. */
    method OnDrop(accepted: seq<File>, rejected: seq<FileRejection>)
      requires Valid()
      modifies this
      ensures Valid()
      ensures files == MergeSelection(old(files), accepted, maxFiles)
      ensures notified == old(notified) + [files]
      ensures errors == if |rejected| > 0 then ErrorLines(rejected) else []
    {
      var newFiles := MergeSelection(files, accepted, maxFiles);
      files := newFiles;
      notified := notified + [newFiles];
      if |rejected| > 0 {
        errors := ErrorLines(rejected);
      } else {
        errors := [];
      }
    }

    /** `removeFile`: drop the file at `index` (nothing, when out of range) and report the new selection. */
    method RemoveFile(index: int)
      requires Valid()
      modifies this
      ensures Valid()
      ensures 0 <= index < |old(files)| ==> files == old(files)[..index] + old(files)[index + 1..]
      ensures !(0 <= index < |old(files)|) ==> files == old(files)
      ensures notified == old(notified) + [files]
      ensures errors == old(errors)
    {
      var newFiles := DropIndex(files, index);
      files := newFiles;
      notified := notified + [newFiles];
    }
  }
}
