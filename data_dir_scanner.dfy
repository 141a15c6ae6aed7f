/**
 * The entry point that scans files kept under `data/`: read one
 * white-space-free token as the file name, build "data/" + name in a
 * 512-character buffer, and run the shared scan sequence on that path.
 * Standard input is given as the text still unread.
 */
module DataDirScanner {
  import opened Wrappers
  import opened CStrings
  import opened Workflow
  import VirusTotal

  const MAX_FILENAME_LEN: nat := 256
  const MAX_PATH_LEN: nat := 512
  const DATA_DIR: string := "data"

  /** The characters the %s conversion treats as white space. */
  const Space: set<char> := {' ', '\t', '\n', '\U{0B}', '\U{0C}', '\r'}

  /** The first index at or after k holding white space, or |s| when there is none. */
  function TokenEnd(s: string, k: nat): (m: nat)
    requires k <= |s|
    ensures k <= m <= |s|
    ensures m == |s| || s[m] in Space
    ensures forall i :: k <= i < m ==> s[i] !in Space
    decreases |s| - k
  {
    if k == |s| || s[k] in Space then k else TokenEnd(s, k + 1)
  }

  /**
   * scanf("%255s", filename): leading white space is skipped; the conversion
   * fails when nothing else is left; otherwise it takes the following
   * characters up to the next white space, at most 255 of them.
   */
  function ScanToken(input: string): (token: Option<string>)
    ensures token.None? <==> forall i :: 0 <= i < |input| ==> input[i] in Space
    ensures token.Some? ==> 1 <= |token.value| < MAX_FILENAME_LEN
    ensures token.Some? ==> forall i :: 0 <= i < |token.value| ==> token.value[i] !in Space
    ensures token.Some? ==> var st := SkipFrom(input, Space, 0);
      && st + |token.value| <= |input| && token.value == input[st..st + |token.value|]
      && (st + |token.value| == |input| || input[st + |token.value|] in Space || |token.value| == MAX_FILENAME_LEN - 1)
  {
    var start := SkipFrom(input, Space, 0);
    if start == |input| then None
    else Some(input[start..Min(TokenEnd(input, start), start + MAX_FILENAME_LEN - 1)])
  }

  /** A name surrounded by white space is read back exactly. */
  lemma {:induction false} ScanTokenReadsName(pre: string, name: string, post: string)
    requires forall i :: 0 <= i < |pre| ==> pre[i] in Space
    requires name != [] && |name| < MAX_FILENAME_LEN
    requires forall i :: 0 <= i < |name| ==> name[i] !in Space
    requires post == [] || post[0] in Space
    ensures ScanToken(pre + name + post) == Some(name)
  {
    var input := pre + name + post;
    assert forall i :: 0 <= i < |pre| ==> input[i] == pre[i];
    assert forall i :: 0 <= i < |name| ==> input[|pre| + i] == name[i];
    assert SkipFrom(input, Space, 0) == |pre| by {
      assert input[|pre|] == name[0];
    }
    assert TokenEnd(input, |pre|) == |pre| + |name| by {
      if post != [] {
        assert input[|pre| + |name|] == post[0];
      }
    }
    assert input[|pre|..|pre| + |name|] == name;
  }

  /** A token of 255 or more characters is cut to its first 255, the width of the conversion. */
  lemma LongTokenCut(name: string, post: string)
    requires |name| >= MAX_FILENAME_LEN - 1
    requires forall i :: 0 <= i < |name| ==> name[i] !in Space
    ensures ScanToken(name + post) == Some(name[..MAX_FILENAME_LEN - 1])
  {
    var input := name + post;
    assert input[0] == name[0];
    assert SkipFrom(input, Space, 0) == 0;
    assert forall i :: 0 <= i < |name| ==> input[i] == name[i];
    assert TokenEnd(input, 0) >= |name|;
    assert input[..MAX_FILENAME_LEN - 1] == name[..MAX_FILENAME_LEN - 1];
  }

  /** The "%s/%s" format with the data directory: the path construct_file_path would write with room to spare. */
  function DataPath(filename: string): string
  {
    DATA_DIR + "/" + filename
  }

  /** A file named without a '/' is uploaded under that same name. */
  lemma DataPathUploadName(filename: string)
    requires '/' !in filename
    ensures VirusTotal.UploadName(DataPath(filename)) == filename
  {
  }

  /**
   * construct_file_path: snprintf(fullPath, size, "%s/%s", "data", filename).
   * A buffer of size 0 is left alone; otherwise it holds the path cut to
   * size - 1 characters and a NUL after it, and nothing after that NUL changes.
   */
  method ConstructFilePath(fullPath: array<char>, filename: string)
    requires NUL !in filename
    modifies fullPath
    ensures fullPath.Length > 0 ==> CString(fullPath[..]) == Snprintf(DataPath(filename), fullPath.Length)
    ensures fullPath.Length > 0 ==> var n := |Snprintf(DataPath(filename), fullPath.Length)|;
      forall i :: n < i < fullPath.Length ==> fullPath[i] == old(fullPath[i])
  {
    if fullPath.Length == 0 {
      return;
    }
    var text := Snprintf(DataPath(filename), fullPath.Length);
    forall i | 0 <= i < |text| {
      fullPath[i] := text[i];
    }
    fullPath[|text|] := NUL;
    assert NUL !in text by {
      assert forall i :: 0 <= i < |text| ==> text[i] == DataPath(filename)[i];
    }
    assert fullPath[..] == text + [NUL] + fullPath[|text| + 1..];
    CStringOfTerminated(text, fullPath[|text| + 1..]);
  }

  /** The file name read from the input, as the `filename` buffer holds it, or None when scanf fails. */
  function ScannedName(input: string): (name: Option<string>)
    ensures name.Some? ==> NUL !in name.value && |name.value| < MAX_FILENAME_LEN
  {
    match ScanToken(input)
    case None => None
    case Some(token) => Some(CString(token))
  }

  /**
   * The buffer work of main before the existence check: the token goes into
   * the 256-character `filename` with a NUL after it, and construct_file_path
   * fills the 512-character `filepath`, which is long enough for the whole
   * path to come through uncut.
   */
  method ReadPath(input: string) returns (path: Option<string>)
    ensures ScannedName(input).None? ==> path.None?
    ensures ScannedName(input).Some? ==> path == Some(DataPath(ScannedName(input).value))
  {
    var token := ScanToken(input);
    if token.None? {
      return None;
    }
    var t := token.value;
    var filename := new char[MAX_FILENAME_LEN];
    forall i | 0 <= i < |t| {
      filename[i] := t[i];
    }
    filename[|t|] := NUL;
    assert filename[..] == t + [NUL] + filename[|t| + 1..];
    CStringCut(t, filename[|t| + 1..]);
    var name := CString(filename[..]);
    var filepath := new char[MAX_PATH_LEN];
    ConstructFilePath(filepath, name);
    path := Some(CString(filepath[..]));
  }

  /**
   * main of main.c: 1 when scanf reads no name, before anything else is
   * called; otherwise the scan sequence on "data/" + name, so 0 exactly when
   * that file exists, the upload returns an id and the analysis succeeds.
   */
  method ScanFromDataDir(input: string, fileExists: string -> bool, upload: string -> Option<string>, analysis: string -> int)
    returns (code: int, calls: seq<Call>)
    ensures code == 0 || code == 1
    ensures ScannedName(input).None? ==> code == 1 && calls == []
    ensures ScannedName(input).Some? ==>
      var path := DataPath(ScannedName(input).value);
      calls != [] && calls[0] == CheckExists(path) &&
      (code == 0 <==> Succeeds(path, fileExists, upload, analysis))
  {
    var path := ReadPath(input);
    if path.None? {
      return 1, [];
    }
    code, calls := Scan(path.value, fileExists, upload, analysis);
  }
}
