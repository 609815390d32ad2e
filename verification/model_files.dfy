/** The model directory and the seven files that the server, the loading
    debugger, the quick check and the initialisation monitor all require.
    Each of those scripts carries its own copy of the list; the copies are
    identical, so the model defines the list once.
    The file system is a set of path strings: a path exists exactly when
    it is in the set. */
module ModelFiles {
  import opened Outcomes

  /** The default model directory. */
  const ModelDir: string := "models/IndexTTS-2"

  /** The required files, in the order every script checks them. */
  const RequiredFiles: seq<string> :=
    ["config.yaml", "gpt.pth", "s2mel.pth", "bpe.model",
     "wav2vec2bert_stats.pt", "feat1.pt", "feat2.pt"]

  /** A name that os.path.join appends to the directory rather than
      returning on its own. */
  predicate Relative(name: string) {
    name == [] || name[0] != '/'
  }

  /** os.path.join(dir, name) on POSIX: an absolute name replaces the
      directory; otherwise a '/' is inserted unless the directory is empty
      or already ends with one. */
  function Join(dir: string, name: string): string
  {
    if !Relative(name) then name
    else if dir == [] || dir[|dir| - 1] == '/' then dir + name
    else dir + "/" + name
  }

  /** The separator Join puts between dir and a relative name. */
  function Separator(dir: string): string {
    if dir == [] || dir[|dir| - 1] == '/' then "" else "/"
  }

  /** The name always ends the joined path, and a relative name goes under
      the directory: the directory is a prefix of the path. */
  lemma JoinShape(dir: string, name: string)
    ensures |name| <= |Join(dir, name)| && Join(dir, name)[|Join(dir, name)| - |name|..] == name
    ensures Relative(name) ==> |dir| <= |Join(dir, name)| && Join(dir, name)[..|dir|] == dir
  {
    var pre := if Relative(name) then dir + Separator(dir) else [];
    assert Join(dir, name) == pre + name;
  }

  /** Within one directory, different relative names give different paths. */
  lemma JoinInjective(dir: string, a: string, b: string)
    requires Relative(a) && Relative(b)
    requires Join(dir, a) == Join(dir, b)
    ensures a == b
  {
    var pre := dir + Separator(dir);
    assert Join(dir, a) == pre + a;
    assert Join(dir, b) == pre + b;
    assert a == (pre + a)[|pre|..];
    assert b == (pre + b)[|pre|..];
  }

  /** The configuration file inside the model directory. */
  const ConfigPath: string := Join(ModelDir, "config.yaml")

  /** Index of the first file of `files` whose path under `dir` does not
      exist, or None when all of them exist. */
  function FirstMissing(dir: string, files: seq<string>, fs: set<string>): (k: Option<nat>)
    ensures k.Some? ==> k.value < |files| && Join(dir, files[k.value]) !in fs
    decreases |files|
  {
    if files == [] then None
    else if Join(dir, files[0]) !in fs then Some(0)
    else match FirstMissing(dir, files[1..], fs)
      case None => None
      case Some(k) => Some(k + 1)
  }

  /** Every file of the list exists under the directory. */
  predicate AllPresent(dir: string, files: seq<string>, fs: set<string>) {
    forall i :: 0 <= i < |files| ==> Join(dir, files[i]) in fs
  }

  /** FirstMissing finds the first missing file in list order: every file
      before it exists, and None means that none is missing. */
  lemma {:induction false} FirstMissingIsFirst(dir: string, files: seq<string>, fs: set<string>)
    ensures FirstMissing(dir, files, fs).None? <==> AllPresent(dir, files, fs)
    ensures FirstMissing(dir, files, fs).Some? ==>
      var k := FirstMissing(dir, files, fs).value;
      k < |files| && Join(dir, files[k]) !in fs &&
      forall i :: 0 <= i < k ==> Join(dir, files[i]) in fs
    decreases |files|
  {
    if files != [] && Join(dir, files[0]) in fs {
      var tail := files[1..];
      FirstMissingIsFirst(dir, tail, fs);
      assert forall i :: 1 <= i < |files| ==> files[i] == tail[i - 1];
      if AllPresent(dir, tail, fs) {
        forall i | 0 <= i < |files| ensures Join(dir, files[i]) in fs {
          if i > 0 { assert files[i] == tail[i - 1]; }
        }
      }
      if !AllPresent(dir, tail, fs) {
        var k := FirstMissing(dir, tail, fs).value;
        assert Join(dir, files[k + 1]) !in fs;
      }
    }
  }

  /** The loop that initialize_model, test_model_files and
      test_model_initialization each run over the required files: it stops
      at the first path that does not exist. */
  method FindFirstMissing(dir: string, files: seq<string>, fs: set<string>) returns (missing: Option<nat>)
    ensures missing == FirstMissing(dir, files, fs)
    ensures missing.None? <==> AllPresent(dir, files, fs)
    ensures missing.Some? ==> missing.value < |files| && Join(dir, files[missing.value]) !in fs
    ensures missing.Some? ==> forall i :: 0 <= i < missing.value ==> Join(dir, files[i]) in fs
  {
    FirstMissingIsFirst(dir, files, fs);
    var i := 0;
    while i < |files|
      invariant 0 <= i <= |files|
      invariant forall j :: 0 <= j < i ==> Join(dir, files[j]) in fs
    {
      if Join(dir, files[i]) !in fs {
        return Some(i);
      }
      i := i + 1;
    }
    return None;
  }

  /** The files of the list whose path does not exist, in list order. */
  function MissingIn(dir: string, files: seq<string>, fs: set<string>): (missing: seq<string>)
    ensures |missing| <= |files|
    decreases |files|
  {
    if files == [] then []
    else
      var last := files[|files| - 1];
      MissingIn(dir, files[..|files| - 1], fs) + (if Join(dir, last) in fs then [] else [last])
  }

  /** A name is reported missing exactly when it is in the list and its
      path does not exist; no more names are reported than listed. */
  lemma {:induction false} MissingInMembers(dir: string, files: seq<string>, fs: set<string>)
    ensures |MissingIn(dir, files, fs)| <= |files|
    ensures forall f :: f in MissingIn(dir, files, fs) <==> f in files && Join(dir, f) !in fs
    decreases |files|
  {
    if files != [] {
      var init := files[..|files| - 1];
      MissingInMembers(dir, init, fs);
      assert files == init + [files[|files| - 1]];
    }
  }

  /** The list of missing files is empty exactly when every file exists,
      and otherwise it starts with the file at which FirstMissing stops:
      the quick check and the loading gate name the same first file. */
  lemma {:induction false} MissingInAgreesWithFirstMissing(dir: string, files: seq<string>, fs: set<string>)
    ensures MissingIn(dir, files, fs) == [] <==> AllPresent(dir, files, fs)
    ensures MissingIn(dir, files, fs) != [] ==>
      FirstMissing(dir, files, fs).Some? && FirstMissing(dir, files, fs).value < |files| &&
      MissingIn(dir, files, fs)[0] == files[FirstMissing(dir, files, fs).value]
    decreases |files|
  {
    FirstMissingIsFirst(dir, files, fs);
    if files != [] {
      var n := |files| - 1;
      var init := files[..n];
      MissingInAgreesWithFirstMissing(dir, init, fs);
      FirstMissingIsFirst(dir, init, fs);
      assert forall i :: 0 <= i < n ==> init[i] == files[i];
      if MissingIn(dir, init, fs) == [] {
        if Join(dir, files[n]) in fs {
          assert AllPresent(dir, files, fs) by {
            forall i | 0 <= i < |files| ensures Join(dir, files[i]) in fs {
              if i < n { assert init[i] == files[i]; }
            }
          }
        } else {
          assert !AllPresent(dir, files, fs);
          var k := FirstMissing(dir, files, fs).value;
          assert k == n;
        }
      } else {
        var k := FirstMissing(dir, init, fs).value;
        assert Join(dir, files[k]) !in fs;
        assert !AllPresent(dir, files, fs);
        var k' := FirstMissing(dir, files, fs).value;
        assert k' == k;
      }
    }
  }
}
