/**
 * The part both entry points share once the file path is known: check that
 * the file exists, upload it, fetch the analysis, and return 1 at the first
 * step that fails. The three steps are given as functions of their argument:
 * whether the file opens, the id the upload returns, and get_analysis's result.
 */
module Workflow {
  import opened Wrappers

  /** A call `main` makes into the rest of the program. */
  datatype Call = CheckExists(path: string) | UploadFile(path: string) | FetchAnalysis(id: string)

  /** Every step succeeds: the file exists, the upload returns an id, and get_analysis reports success for it. */
  predicate Succeeds(path: string, fileExists: string -> bool, upload: string -> Option<string>, analysis: string -> int)
  {
    fileExists(path) && upload(path).Some? && analysis(upload(path).value) != 0
  }

  /**
   * The early-return sequence of `main` from the existence check on. The exit
   * code is 0 exactly when every step succeeds. The existence check always
   * comes first; the upload is attempted only for a file that exists, and the
   * analysis is fetched only for an id the upload returned.
   */
  method Scan(path: string, fileExists: string -> bool, upload: string -> Option<string>, analysis: string -> int)
    returns (code: int, calls: seq<Call>)
    ensures code == 0 || code == 1
    ensures code == 0 <==> Succeeds(path, fileExists, upload, analysis)
    ensures 1 <= |calls| <= 3 && calls[0] == CheckExists(path)
    ensures |calls| >= 2 <==> fileExists(path)
    ensures |calls| >= 2 ==> calls[1] == UploadFile(path)
    ensures |calls| == 3 <==> fileExists(path) && upload(path).Some?
    ensures |calls| == 3 ==> calls[2] == FetchAnalysis(upload(path).value)
  {
    calls := [CheckExists(path)];
    if !fileExists(path) {
      return 1, calls;
    }
    calls := calls + [UploadFile(path)];
    var fileId := upload(path);
    if fileId.None? {
      return 1, calls;
    }
    calls := calls + [FetchAnalysis(fileId.value)];
    if analysis(fileId.value) == 0 {
      return 1, calls;
    }
    code := 0;
  }
}
