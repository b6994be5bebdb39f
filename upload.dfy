/**
 * The upload page (src/app/upload/page.tsx): the list of chosen model
 * files, the per-file progress map, and the state `handleUpload` and the
 * upload-task callbacks change.  Storage and database calls are external:
 * their outcomes enter as parameters.
 */
module Upload {
  import opened Wrappers

  /** A browser `File`; only its name takes part in the page's logic. */
  datatype FileEntry = FileEntry(name: string)

  predicate EndsWith(s: string, suffix: string) {
    |suffix| <= |s| && s[|s| - |suffix|..] == suffix
  }

  /** `String.prototype.includes`. */
  predicate Contains(s: string, part: string)
    decreases |s|
  {
    |part| <= |s| && (s[..|part|] == part || Contains(s[1..], part))
  }

  /** The extension test of `handleFileChange` (case-sensitive, as written). */
  predicate IsModelFile(f: FileEntry) {
    EndsWith(f.name, ".glb") || EndsWith(f.name, ".gltf")
  }

  /** The chosen files that pass the extension test, in their original order. */
  function Accepted(fs: seq<FileEntry>): (r: seq<FileEntry>)
    ensures |r| <= |fs|
    ensures forall i :: 0 <= i < |r| ==> IsModelFile(r[i]) && r[i] in fs
    ensures forall i :: 0 <= i < |fs| && IsModelFile(fs[i]) ==> fs[i] in r
  {
    if fs == [] then []
    else (if IsModelFile(fs[0]) then [fs[0]] else []) + Accepted(fs[1..])
  }

  /** Filtering commutes with concatenation, so the relative order of accepted files is kept. */
  lemma {:induction false} AcceptedOfConcat(a: seq<FileEntry>, b: seq<FileEntry>)
    ensures Accepted(a + b) == Accepted(a) + Accepted(b)
  {
    if a == [] {
      assert a + b == b;
    } else {
      assert (a + b)[0] == a[0] && (a + b)[1..] == a[1..] + b;
      AcceptedOfConcat(a[1..], b);
    }
  }

  /** The "Only GLB and GLTF files are supported." alert fires iff some chosen file is rejected. */
  lemma {:induction false} AlertIffSomeRejected(fs: seq<FileEntry>)
    ensures |Accepted(fs)| != |fs| <==> exists i :: 0 <= i < |fs| && !IsModelFile(fs[i])
    ensures |Accepted(fs)| == |fs| ==> Accepted(fs) == fs
  {
    if fs != [] {
      AlertIffSomeRejected(fs[1..]);
      if !IsModelFile(fs[0]) {
        assert |Accepted(fs)| <= |fs[1..]|;
      } else {
        assert forall i :: 1 <= i < |fs| ==> fs[1..][i - 1] == fs[i];
      }
    }
  }

  /**
   * `prev.filter((_, i) => i !== index)`: keeps every element whose
   * position differs from `index`.
   */
  function WithoutIndex<T>(s: seq<T>, index: int): seq<T>
    decreases |s|
  {
    if s == [] then [] else (if index == 0 then [] else [s[0]]) + WithoutIndex(s[1..], index - 1)
  }

  /**
   * Removing by index deletes exactly that position and keeps the others in
   * order; an index outside the list leaves it unchanged.
   */
  lemma {:induction false} WithoutIndexIsSplice<T>(s: seq<T>, index: int)
    ensures WithoutIndex(s, index) == if 0 <= index < |s| then s[..index] + s[index + 1..] else s
    decreases |s|
  {
    if s != [] {
      WithoutIndexIsSplice(s[1..], index - 1);
      if 0 < index < |s| {
        assert [s[0]] + (s[1..][..index - 1] + s[1..][index..]) == s[..index] + s[index + 1..];
      } else if index != 0 {
        assert [s[0]] + s[1..] == s;
      }
    }
  }

  /** `!key || key.includes("your-")` on `NEXT_PUBLIC_FIREBASE_API_KEY`. */
  predicate ConfigMissing(apiKey: Option<string>) {
    apiKey.None? || apiKey.value == "" || Contains(apiKey.value, "your-")
  }

  const ConfigErrorMessage: string :=
    "Upload error: Firebase is not properly configured. Please check your environment variables."

  function ProcessingError(name: string, message: string): string {
    "Error processing " + name + ": " + message
  }

  function UploadingError(name: string, message: string): string {
    "Error uploading " + name + ": " + message
  }

  /** A progress value: `(bytesTransferred / totalBytes) * 100` is NaN or infinite when `totalBytes` is 0. */
  datatype Percent = Finite(value: real) | NotFinite

  function PercentOf(transferred: nat, total: nat): Percent {
    if total == 0 then NotFinite else Finite((transferred as real / total as real) * 100.0)
  }

  /** A progress value equals 100 exactly when every byte of a non-empty file is sent. */
  lemma PercentIsHundredIffDone(transferred: nat, total: nat)
    ensures PercentOf(transferred, total) == Finite(100.0) <==> total > 0 && transferred == total
  {
    if total > 0 {
      var q := transferred as real / total as real;
      assert q * total as real == transferred as real;
      if q * 100.0 == 100.0 {
        assert q == 1.0;
      }
    }
  }

  /**
   * The reset condition of the completion callback: one key per file and
   * every value equal to 100.
   */
  predicate AllComplete(progress: map<string, Percent>, fileCount: nat) {
    |progress.Keys| == fileCount && forall k :: k in progress ==> progress[k] == Finite(100.0)
  }

  function Names(fs: seq<FileEntry>): set<string> {
    set f | f in fs :: f.name
  }

  predicate DistinctNames(fs: seq<FileEntry>) {
    forall i, j :: 0 <= i < j < |fs| ==> fs[i].name != fs[j].name
  }

  /** There are at most as many names as files, and as many exactly when the names are distinct. */
  lemma {:induction false} NamesCardinality(fs: seq<FileEntry>)
    ensures |Names(fs)| <= |fs|
    ensures |Names(fs)| == |fs| <==> DistinctNames(fs)
  {
    if fs != [] {
      var rest := fs[1..];
      NamesCardinality(rest);
      assert Names(fs) == {fs[0].name} + Names(rest) by {
        assert forall f :: f in fs <==> f == fs[0] || f in rest;
      }
      if fs[0].name in Names(rest) {
        assert Names(fs) == Names(rest);
        var f :| f in rest && f.name == fs[0].name;
        var j :| 0 <= j < |rest| && rest[j] == f;
        assert fs[j + 1] == f;
        assert !DistinctNames(fs);
      } else {
        assert |Names(fs)| == 1 + |Names(rest)|;
        if DistinctNames(rest) {
          forall i, j | 0 <= i < j < |fs| ensures fs[i].name != fs[j].name {
            if i == 0 {
              assert fs[j] in rest;
            } else {
              assert fs[i] == rest[i - 1] && fs[j] == rest[j - 1];
            }
          }
        } else {
          var i, j :| 0 <= i < j < |rest| && rest[i].name == rest[j].name;
          assert fs[i + 1] == rest[i] && fs[j + 1] == rest[j];
        }
      }
    }
  }

  /**
   * Progress is keyed by file name, so the reset can only happen when the
   * listed files have distinct names: two files with one name share one key
   * and the key count never reaches the file count.
   */
  lemma ResetNeedsDistinctNames(progress: map<string, Percent>, fs: seq<FileEntry>)
    requires progress.Keys <= Names(fs)
    requires AllComplete(progress, |fs|)
    ensures DistinctNames(fs)
  {
    NamesCardinality(fs);
    assert |progress.Keys| <= |Names(fs)| by {
      SubsetCardinality(progress.Keys, Names(fs));
    }
  }

  lemma SubsetCardinality(a: set<string>, b: set<string>)
    requires a <= b
    ensures |a| <= |b|
  {
    assert b == a + (b - a);
  }

  /** Conversely, files with distinct names that all reached 100 trigger the reset. */
  lemma FinishedDistinctFilesReset(fs: seq<FileEntry>)
    requires DistinctNames(fs)
    ensures AllComplete(map n | n in Names(fs) :: Finite(100.0), |fs|)
  {
    var m := map n | n in Names(fs) :: Finite(100.0);
    assert m.Keys == Names(fs);
    NamesCardinality(fs);
  }

  /** The names of the files whose upload task was set up without a synchronous error. */
  function Started(fs: seq<FileEntry>, fault: string -> Option<string>): (r: seq<string>)
    decreases |fs|
  {
    if fs == [] then []
    else
      var last := fs[|fs| - 1];
      Started(fs[..|fs| - 1], fault) + (if fault(last.name).None? then [last.name] else [])
  }

  /** The message of the last file whose set-up failed; each failure overwrites the previous one. */
  function LastSetupError(fs: seq<FileEntry>, fault: string -> Option<string>): (e: Option<string>)
    ensures e.None? <==> forall i :: 0 <= i < |fs| ==> fault(fs[i].name).None?
    decreases |fs|
  {
    if fs == [] then None
    else
      var last := fs[|fs| - 1];
      if fault(last.name).Some? then Some(ProcessingError(last.name, fault(last.name).value))
      else LastSetupError(fs[..|fs| - 1], fault)
  }

  /** Every started name is that of a listed file whose set-up did not fail. */
  lemma {:induction false} StartedSkipsFaults(fs: seq<FileEntry>, fault: string -> Option<string>)
    ensures |Started(fs, fault)| <= |fs|
    ensures forall n :: n in Started(fs, fault) ==> n in Names(fs) && fault(n).None?
    decreases |fs|
  {
    if fs != [] {
      var init := fs[..|fs| - 1];
      StartedSkipsFaults(init, fault);
      assert forall f :: f in init ==> f in fs;
      assert fs[|fs| - 1] in fs;
    }
  }

  /** Every file whose set-up did not throw is started, whatever the other files did. */
  lemma {:induction false} StartedComplete(fs: seq<FileEntry>, fault: string -> Option<string>, i: nat)
    requires i < |fs|
    requires fault(fs[i].name).None?
    ensures fs[i].name in Started(fs, fault)
    decreases |fs|
  {
    var init := fs[..|fs| - 1];
    if i < |fs| - 1 {
      assert init[i] == fs[i];
      StartedComplete(init, fault, i);
    }
  }

  /**
   * When some set-up threw, the error is the message of the last file whose
   * set-up threw: no later file failed.
   */
  lemma {:induction false} LastSetupErrorIsLastFailure(fs: seq<FileEntry>, fault: string -> Option<string>)
    ensures var e := LastSetupError(fs, fault);
      e.Some? ==>
        exists i :: 0 <= i < |fs| && fault(fs[i].name).Some? &&
          e == Some(ProcessingError(fs[i].name, fault(fs[i].name).value)) &&
          (forall j :: i < j < |fs| ==> fault(fs[j].name).None?)
    decreases |fs|
  {
    if fs != [] {
      var n := |fs| - 1;
      if fault(fs[n].name).None? {
        var init := fs[..n];
        LastSetupErrorIsLastFailure(init, fault);
        if LastSetupError(init, fault).Some? {
          var i :| 0 <= i < |init| && fault(init[i].name).Some? &&
            LastSetupError(init, fault) == Some(ProcessingError(init[i].name, fault(init[i].name).value)) &&
            (forall j :: i < j < |init| ==> fault(init[j].name).None?);
          assert fs[i] == init[i];
          assert forall j :: i < j < |fs| ==> fault(fs[j].name).None? by {
            forall j | i < j < |fs| ensures fault(fs[j].name).None? {
              if j < n { assert fs[j] == init[j]; }
            }
          }
        }
      }
    }
  }

  /** When no set-up fails, every file's upload is started, in list order. */
  lemma {:induction false} AllStartedWithoutFaults(fs: seq<FileEntry>, fault: string -> Option<string>)
    requires forall i :: 0 <= i < |fs| ==> fault(fs[i].name).None?
    ensures Started(fs, fault) == seq(|fs|, i requires 0 <= i < |fs| => fs[i].name)
    decreases |fs|
  {
    if fs != [] {
      AllStartedWithoutFaults(fs[..|fs| - 1], fault);
    }
  }

  /** An entry of the "Uploaded Models" list. */
  datatype UploadedModel = UploadedModel(id: string, name: string, url: string)

  /** What storage and the database return for a finished upload: the document id and download url. */
  datatype Stored = Stored(docId: string, url: string)

  /** The page component's `useState` cells. */
  class UploadPage {
    var files: seq<FileEntry>
    var uploading: bool
    var progress: map<string, Percent>
    var uploaded: seq<UploadedModel>
    var error: Option<string>

    constructor ()
      ensures files == [] && !uploading && progress == map[] && uploaded == [] && error == None
    {
      files := [];
      uploading := false;
      progress := map[];
      uploaded := [];
      error := None;
    }

    /**
     * `handleFileChange`: `chosen` is `e.target.files`, `None` for a null
     * list.  Returns whether the unsupported-format alert was shown.
     */
    method ChooseFiles(chosen: Option<seq<FileEntry>>) returns (alerted: bool)
      modifies this
      ensures chosen.None? ==> !alerted && files == old(files) && error == old(error)
      ensures chosen.Some? ==> files == old(files) + Accepted(chosen.value) && error == None
      ensures chosen.Some? ==> (alerted <==> exists i :: 0 <= i < |chosen.value| && !IsModelFile(chosen.value[i]))
      ensures files[..|old(files)|] == old(files)
      ensures uploading == old(uploading) && progress == old(progress) && uploaded == old(uploaded)
    {
      alerted := false;
      if chosen.Some? {
        var newFiles := Accepted(chosen.value);
        AlertIffSomeRejected(chosen.value);
        if |newFiles| != |chosen.value| {
          alerted := true;
        }
        files := files + newFiles;
        error := None;
      }
    }

    /** `removeFile(index)`. */
    method RemoveFile(index: int)
      modifies this
      ensures files == WithoutIndex(old(files), index)
      ensures 0 <= index < |old(files)| ==> files == old(files)[..index] + old(files)[index + 1..]
      ensures !(0 <= index < |old(files)|) ==> files == old(files)
      ensures uploading == old(uploading) && progress == old(progress)
      ensures uploaded == old(uploaded) && error == old(error)
    {
      WithoutIndexIsSplice(files, index);
      files := WithoutIndex(files, index);
    }

    /**
     * `handleUpload` up to the point where every upload task is registered.
     * `fault(name)` is the synchronous error, if any, that setting up the
     * task for that file throws.  Returns the names whose task was started.
     */
    method Upload(apiKey: Option<string>, fault: string -> Option<string>) returns (started: seq<string>)
      modifies this
      ensures |old(files)| == 0 ==> started == [] && uploading == old(uploading) && error == old(error)
      ensures |old(files)| > 0 && ConfigMissing(apiKey) ==>
        started == [] && !uploading && error == Some(ConfigErrorMessage)
      ensures |old(files)| > 0 && !ConfigMissing(apiKey) ==>
        started == Started(files, fault) &&
        error == LastSetupError(files, fault) &&
        uploading == error.None?
      ensures files == old(files) && progress == old(progress) && uploaded == old(uploaded)
    {
      started := [];
      if |files| == 0 {
        return;
      }
      uploading := true;
      error := None;
      if ConfigMissing(apiKey) {
        error := Some(ConfigErrorMessage);
        uploading := false;
        return;
      }
      var i := 0;
      while i < |files|
        invariant 0 <= i <= |files|
        invariant files == old(files) && progress == old(progress) && uploaded == old(uploaded)
        invariant started == Started(files[..i], fault)
        invariant error == LastSetupError(files[..i], fault)
        invariant uploading == error.None?
      {
        var file := files[i];
        assert files[..i + 1][..i] == files[..i];
        var thrown := fault(file.name);
        if thrown.Some? {
          error := Some(ProcessingError(file.name, thrown.value));
          uploading := false;
        } else {
          started := started + [file.name];
        }
        i := i + 1;
      }
      assert files[..i] == files;
    }

    /** The task's `state_changed` observer for one file. */
    method OnProgress(name: string, transferred: nat, total: nat)
      modifies this
      ensures progress == old(progress)[name := PercentOf(transferred, total)]
      ensures progress.Keys == old(progress).Keys + {name}
      ensures forall k :: k in old(progress) && k != name ==> progress[k] == old(progress)[k]
      ensures files == old(files) && uploading == old(uploading)
      ensures uploaded == old(uploaded) && error == old(error)
    {
      progress := progress[name := PercentOf(transferred, total)];
    }

    /** The task's error observer. */
    method OnUploadError(name: string, message: string)
      modifies this
      ensures error == Some(UploadingError(name, message)) && !uploading
      ensures files == old(files) && progress == old(progress) && uploaded == old(uploaded)
    {
      error := Some(UploadingError(name, message));
      uploading := false;
    }

    /**
     * The task's completion observer.  `stored` is the outcome of fetching
     * the download url and adding the database document.  Returns whether
     * the catalog refresh is requested.
     */
    method OnUploadComplete(name: string, stored: Result<Stored>) returns (refresh: bool)
      modifies this
      ensures stored.Err? ==>
        !refresh && error == Some(ProcessingError(name, stored.message)) && !uploading &&
        files == old(files) && progress == old(progress) && uploaded == old(uploaded)
      ensures stored.Ok? ==>
        uploaded == old(uploaded) + [UploadedModel(stored.value.docId, name, stored.value.url)] &&
        error == old(error) &&
        refresh == AllComplete(old(progress), |old(files)|)
      ensures stored.Ok? && refresh ==> files == [] && !uploading && progress == map[]
      ensures stored.Ok? && !refresh ==>
        files == old(files) && uploading == old(uploading) && progress == old(progress)
    {
      refresh := false;
      match stored
      case Err(message) =>
        error := Some(ProcessingError(name, message));
        uploading := false;
      case Ok(s) =>
        uploaded := uploaded + [UploadedModel(s.docId, name, s.url)];
        if AllComplete(progress, |files|) {
          files := [];
          uploading := false;
          progress := map[];
          refresh := true;
        }
    }
  }
}
