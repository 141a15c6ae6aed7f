/**
 * The interactive entry point: read one line into `filename`, drop its
 * newline, fall back to the default name when nothing was typed, copy the
 * name into `filepath`, and run the shared scan sequence on it. Standard
 * input is given as the text still unread.
 */
module PromptScanner {
  import opened Wrappers
  import opened CStrings
  import opened Workflow

  const MAX_FILENAME_LEN: nat := 256
  const MAX_PATH_LEN: nat := 512
  const DEFAULT_FILENAME: string := "sample_input.txt"

  /**
   * fgets(filename, 256, stdin): nothing at end of input; otherwise the input
   * up to and including its first '\n', cut to 255 characters.
   */
  function Fgets(input: string): (line: Option<string>)
    ensures line.None? <==> input == []
    ensures line.Some? ==> line.value != [] && |line.value| < MAX_FILENAME_LEN && line.value <= input
    ensures line.Some? ==> forall i :: 0 <= i < |line.value| - 1 ==> line.value[i] != '\n'
    ensures line.Some? ==>
      |line.value| == MAX_FILENAME_LEN - 1 || line.value == input || line.value[|line.value| - 1] == '\n'
  {
    if input == [] then None
    else
      var cut := match FirstIndex(input, '\n') case Some(i) => i + 1 case None => |input|;
      Some(input[..Min(cut, MAX_FILENAME_LEN - 1)])
  }

  /**
   * The name left in `filename` after the line is read: its C string without
   * a final '\n', or the default name when that leaves nothing. Only a final
   * newline is removed, and only one.
   */
  function PromptedName(line: string): (name: string)
    ensures name != [] && NUL !in name && |name| <= Max(|line|, |DEFAULT_FILENAME|)
    ensures var s := CString(line);
      if s == [] || s == "\n" then name == DEFAULT_FILENAME
      else if s[|s| - 1] == '\n' then name + "\n" == s
      else name == s
  {
    var s := CString(line);
    var typed := StripNewline(s);
    if typed == [] then
      assert s == [] || s == "\n" by {
        if s != [] { assert |s| == 1 && s[0] == '\n'; }
      }
      DEFAULT_FILENAME
    else
      assert s == typed || s == typed + "\n" by {
        if s != typed { assert s == s[..|s| - 1] + [s[|s| - 1]]; }
      }
      typed
  }

  /** The file name main settles on for the given input, or None when fgets fails. */
  function PromptedFilename(input: string): (name: Option<string>)
    ensures name.None? <==> input == []
    ensures name.Some? ==> name.value != [] && NUL !in name.value && |name.value| < MAX_FILENAME_LEN
  {
    match Fgets(input)
    case None => None
    case Some(line) => Some(PromptedName(line))
  }

  /** A name typed and followed by Enter is taken exactly as typed. */
  lemma {:induction false} TypedNameKept(name: string, rest: string)
    requires name != [] && NUL !in name && '\n' !in name && |name| < MAX_FILENAME_LEN - 1
    ensures PromptedFilename(name + "\n" + rest) == Some(name)
  {
    var input := name + "\n" + rest;
    assert input[|name|] == '\n';
    assert input[..|name|] == name;
    assert FirstIndex(input, '\n') == Some(|name|);
    var line := name + "\n";
    assert Fgets(input) == Some(line) by {
      assert input[..|name| + 1] == line;
    }
    CStringOfTerminated(line, []);
    assert line + [NUL] + [] == line + [NUL];
    assert CString(line) == line by {
      assert forall i :: 0 <= i < |line| ==> line[i] != NUL;
    }
    assert line[..|line| - 1] == name;
  }

  /** Pressing Enter alone selects the default file. */
  lemma EnterSelectsDefault(rest: string)
    ensures PromptedFilename("\n" + rest) == Some(DEFAULT_FILENAME)
  {
  }

  /** A line of 255 or more characters before any newline is cut to its first 255; the rest stays unread. */
  lemma {:induction false} LongLineCut(input: string)
    requires |input| >= MAX_FILENAME_LEN - 1
    requires forall i :: 0 <= i < MAX_FILENAME_LEN - 1 ==> input[i] != '\n' && input[i] != NUL
    ensures PromptedFilename(input) == Some(input[..MAX_FILENAME_LEN - 1])
  {
    var line := input[..MAX_FILENAME_LEN - 1];
    assert Fgets(input) == Some(line);
    assert CString(line) == line by {
      assert forall i :: 0 <= i < |line| ==> line[i] != NUL;
    }
  }

  /**
   * The buffer work of main before the existence check: fgets into the
   * 256-character `filename`, the newline overwritten with a NUL, the default
   * copied in when the name is empty, and strncpy of at most 511 characters
   * into the 512-character `filepath`, whose last character is then set to
   * NUL. The path read back from `filepath` is the file name, uncut.
   */
  method ReadPath(input: string) returns (filename: Option<string>, path: Option<string>)
    ensures filename == PromptedFilename(input)
    ensures path == filename
  {
    var line := Fgets(input);
    if line.None? {
      return None, None;
    }
    var name := SettleName(line.value);
    var copied := CopyPath(name);
    filename, path := Some(name), Some(copied);
  }

  /** The edits to the `filename` buffer once fgets has filled it with `text`. */
  method SettleName(text: string) returns (name: string)
    requires |text| < MAX_FILENAME_LEN
    ensures name == PromptedName(text)
  {
    var nameBuf := new char[MAX_FILENAME_LEN];
    forall i | 0 <= i < |text| {
      nameBuf[i] := text[i];
    }
    nameBuf[|text|] := NUL;
    assert nameBuf[..] == text + [NUL] + nameBuf[|text| + 1..];
    CStringCut(text, nameBuf[|text| + 1..]);
    var len := DropNewline(nameBuf);
    if len == 0 {
      CopyDefault(nameBuf);
    }
    name := CString(nameBuf[..]);
  }

  /** Overwrites a final '\n' of the C string in `buf` with a NUL and returns the string's new length. */
  method DropNewline(buf: array<char>) returns (len: nat)
    modifies buf
    ensures CString(buf[..]) == StripNewline(old(CString(buf[..])))
    ensures len == |CString(buf[..])|
  {
    var typed := CString(buf[..]);
    len := |typed|;
    if len > 0 && buf[len - 1] == '\n' {
      buf[len - 1] := NUL;
      len := len - 1;
      assert buf[..] == typed[..len] + [NUL] + buf[len + 1..];
      CStringOfTerminated(typed[..len], buf[len + 1..]);
    }
  }

  /** strcpy(filename, "sample_input.txt"). */
  method CopyDefault(buf: array<char>)
    requires buf.Length > |DEFAULT_FILENAME|
    modifies buf
    ensures CString(buf[..]) == DEFAULT_FILENAME
  {
    forall i | 0 <= i < |DEFAULT_FILENAME| {
      buf[i] := DEFAULT_FILENAME[i];
    }
    buf[|DEFAULT_FILENAME|] := NUL;
    assert buf[..] == DEFAULT_FILENAME + [NUL] + buf[|DEFAULT_FILENAME| + 1..];
    CStringOfTerminated(DEFAULT_FILENAME, buf[|DEFAULT_FILENAME| + 1..]);
  }

  /** strncpy of at most 511 characters of `name` into `filepath`, then a NUL in its last place: a name this short comes through whole. */
  method CopyPath(name: string) returns (path: string)
    requires NUL !in name && |name| < MAX_FILENAME_LEN
    ensures path == name
  {
    var pathBuf := new char[MAX_PATH_LEN];
    forall i | 0 <= i < MAX_PATH_LEN - 1 {
      pathBuf[i] := if i < |name| then name[i] else NUL;
    }
    pathBuf[MAX_PATH_LEN - 1] := NUL;
    assert pathBuf[..] == name + [NUL] + pathBuf[|name| + 1..];
    CStringOfTerminated(name, pathBuf[|name| + 1..]);
    path := CString(pathBuf[..]);
  }

  /**
   * main of src/main.c: 1 when no line can be read, before anything else is
   * called; otherwise the scan sequence on the prompted file name, so 0
   * exactly when the file exists, the upload returns an id and the analysis
   * succeeds.
   */
  method ScanFromPrompt(input: string, fileExists: string -> bool, upload: string -> Option<string>, analysis: string -> int)
    returns (code: int, calls: seq<Call>)
    ensures code == 0 || code == 1
    ensures PromptedFilename(input).None? ==> code == 1 && calls == []
    ensures PromptedFilename(input).Some? ==>
      var path := PromptedFilename(input).value;
      calls != [] && calls[0] == CheckExists(path) &&
      (code == 0 <==> Succeeds(path, fileExists, upload, analysis))
  {
    var filename, path := ReadPath(input);
    if path.None? {
      return 1, [];
    }
    code, calls := Scan(path.value, fileExists, upload, analysis);
  }
}
