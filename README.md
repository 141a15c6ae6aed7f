# VirusTotal uploader: a Dafny model of its decision logic

The program asks for a file name, checks that the file exists, and uploads it
to VirusTotal. It then polls the analysis endpoint until the scan is
"completed" and prints the harmless and malicious counts. Most of the code is
glue over libcurl and cJSON. This model covers the logic that sits between
those calls:

- **`EnvFile`** models the `.env` reader of `read_env_file_value` and the
  API-key precedence of `get_api_key`. It has:
  - a pure specification, `ParseLine` and `Lookup`;
  - the C loops as methods proved against that specification
    (`ReadEnvFileValue`, `MatchLine`, `LineKey`, `CleanFileValue`,
    `TrimEndLength`, `SkipLeading`).
- **`ResponseBuffer`** models `struct ResponseData` as a class over a
  `char` array. Its `Write` method is `write_callback`: realloc, memcpy,
  re-terminate.
- **`VirusTotal`** models the rest of `upload_to_virustotal` and
  `get_analysis`:
  - the upload filename (basename after `/`, else `\`);
  - the `x-apikey` header and the analysis URL, with `snprintf` truncation;
  - the id taken from an upload reply;
  - the per-reply poll decision `PollStep`;
  - the poll loop as a fold `Poll` over a finite sequence of replies, with
    `GetAnalysis` as the loop itself.
- **`Workflow`** models the early-return sequence that both `main`s share:
  existence check, upload, analysis, exit code.
- **`PromptScanner`** models `src/main.c`: fgets into `filename[256]`, the
  newline overwrite, the default name, and the strncpy into `filepath[512]`.
- **`DataDirScanner`** models `main.c`: `scanf("%255s")`,
  `construct_file_path` into `filepath[512]`, then the shared sequence.
- **`CStrings`** gives the libc routines the program calls as functions over
  sequences: strlen, strchr, strrchr, and snprintf of one `%s`.

Everything outside the process is a parameter:
- a `.env` file is the sequence of lines fgets returned;
- the environment variable is an optional string;
- an HTTP exchange is a `Reply` (transfer ok, status code, parsed body reduced
  to the members the code looks up);
- the existence check, the upload and the analysis are functions of their
  argument;
- standard input is the text not yet read.

## Model

| member | source | states |
|---|---|---|
| CStrings.CString | src/main.c:43 | The C string of a buffer is its longest NUL-free prefix. It is followed by a NUL whenever it is shorter than the buffer. |
| CStrings.CStringCut | src/main.c:37 | Writing a NUL after a string leaves that string's C string, whatever follows the NUL. |
| CStrings.FirstIndex | src/virustotal_utils.c:98 | strchr finds the first occurrence of the character, or reports that the character does not occur. |
| CStrings.LastIndex | src/virustotal_utils.c:217-221 | strrchr finds the last occurrence of the character: none after it, or none at all. |
| CStrings.KeptLength | src/virustotal_utils.c:111-113 | The trimmed length never goes below the lower bound, keeps no trailing `drop` character above it, and cuts only `drop` characters. |
| CStrings.SkipFrom | src/virustotal_utils.c:118-120 | The pointer stops at the first character that is not in `drop` and skips only `drop` characters. |
| CStrings.Snprintf | src/virustotal_utils.c:303 | snprintf of one `%s` gives a prefix of the text, shorter than the buffer. It is the whole text when it fits, otherwise exactly size - 1 characters. |
| EnvFile.Unquote | src/virustotal_utils.c:129-134 | Exactly one pair of matching surrounding quotes is removed, and only from a value of length 2 or more. Any other value is unchanged. |
| EnvFile.EqualsAt | src/virustotal_utils.c:98-101 | The key/value split is at the first `=` of the line, after the fgets newline is dropped. |
| EnvFile.ParseLine | src/virustotal_utils.c:89-134 | Once the newline is dropped, an empty line, a `#` line or a line without `=` gives no entry. Any other line splits at its first `=`. The key is a prefix of the line no longer than the cut at 63 characters, with no trailing blank and only blanks between it and the cut. The value is the slice of the text after `=` with only blanks before it and only blanks and CRs after it, whose ends could not be cut further, less one quote pair. |
| EnvFile.KeyRuleHolds | src/virustotal_utils.c:103-113 | The cap at 63 characters followed by the trailing-blank cut satisfies the key rule. |
| EnvFile.ValueRuleHolds | src/virustotal_utils.c:116-134 | Skipping leading blanks, cutting trailing blanks and CRs, and dropping one quote pair gives the value rule. Only blanks lie before the slice and only blanks and CRs after it. Neither end of the slice could be cut further. The value is the slice less one quote pair when it is quoted. |
| EnvFile.MatchesParsed | src/virustotal_utils.c:103-115 | A line matches a key exactly when it parses to an entry with that key. |
| EnvFile.Lookup | src/virustotal_utils.c:115-143 | A found value is non-empty, and some line parses to an entry with the requested key and that value. When no line's key matches, nothing is found. |
| EnvFile.UnmatchableKeys | src/virustotal_utils.c:103-115 | A requested key of 64 or more characters, or one ending in a blank, is never found, whatever the file holds: no line can have such a key. |
| EnvFile.FirstMatchWins | src/virustotal_utils.c:115-142 | The first matching line decides. If its value is empty the result is "not found", even when a later line has a value for the same key. |
| EnvFile.IgnoredLineIrrelevant | src/virustotal_utils.c:94-101 | Inserting an empty line, a comment or a line without `=` anywhere in the file never changes a lookup. |
| EnvFile.TrimEndLength | src/virustotal_utils.c:111-113 | The decrementing loop on key_len and value_len stops at KeptLength. |
| EnvFile.SkipLeading | src/virustotal_utils.c:118-120 | The advancing loop on file_value stops at SkipFrom: the first character after the `=` that is not a blank. |
| EnvFile.LineKey | src/virustotal_utils.c:103-113 | The cap of key_len at 63 followed by the trim loop yields the key ParseLine gives. |
| EnvFile.CleanFileValue | src/virustotal_utils.c:116-134 | The value steps on the line itself (advance past blanks, cut blanks and CRs, drop one quote pair) yield CleanValue of the text after `=`. |
| EnvFile.MatchLine | src/virustotal_utils.c:89-134 | One pass of the loop body reports a match exactly when ParseLine gives an entry with the requested key, together with that entry's value. |
| EnvFile.ReadEnvFileValue | src/virustotal_utils.c:88-147 | The read loop returns exactly Lookup of the file's lines. |
| EnvFile.ResolveApiKey | src/virustotal_utils.c:151-182 | A non-empty file value wins. Otherwise a non-empty environment value is used. Otherwise there is no key. A key that is returned is never empty. |
| EnvFile.ApiKey | src/virustotal_utils.c:151-183 | The `VIRUSTOTAL_API_KEY` entry of the `.env` file when found, else the environment variable when non-empty, else nothing. |
| EnvFile.ValueLenAsWritten | src/virustotal_utils.c:129-133 | value_len after the quote step as written, in size_t arithmetic, always within size_t range. |
| EnvFile.TextAsWritten | src/virustotal_utils.c:129-134 | The text strcpy copies after the quote step as written is never longer than the value. |
| EnvFile.LoneQuoteUnderflows | src/virustotal_utils.c:129-141 | For a value that is a lone quote, value_len wraps to 2^64 - 1 and the value counts as present. malloc is then asked for 0 bytes while strcpy writes 1. |
| EnvFile.AsWrittenAgreesWithUnquote | src/virustotal_utils.c:129-134 | On every value except a single character, the code as written and the corrected Unquote agree. |
| EnvFile.LoneQuoteKept | src/virustotal_utils.c:129-142 | With the corrected guard, a lone quote is an ordinary one-character value and is found. |
| ResponseBuffer.ResponseData.constructor | src/virustotal_utils.c:237-239 | `malloc(1)`, `size = 0`: an empty body whose single character is left unwritten. |
| ResponseBuffer.ResponseData.Zeroed | src/virustotal_utils.c:323-325 | The corrected start-up: an empty body that is already NUL-terminated and reads as the empty text. |
| ResponseBuffer.ResponseData.Write | src/virustotal_utils.c:39-54 | On success: the body becomes the old body followed by the chunk, the buffer stays terminated and the whole chunk is reported. When neither the old body nor the chunk holds a NUL, the text read back is the body. On a failed realloc: 0 is reported and nothing changes. |
| ResponseBuffer.EmptyReplyText | src/virustotal_utils.c:323-356 | If write_callback is never called, the allocation handed on is the single byte malloc returned. Unless that byte happens to be NUL, the block holds no terminator, so a C-string read of it runs past the end of the allocation. |
| ResponseBuffer.EmptyReplyTextZeroed | src/virustotal_utils.c:323-356 | With the corrected start-up, an empty reply always reads as the empty text. |
| VirusTotal.AuthHeader | src/virustotal_utils.c:202-203 | The header is `x-apikey: ` followed by the key when it fits in 256 bytes, otherwise cut to 255 characters. |
| VirusTotal.AnalysisUrl | src/virustotal_utils.c:302-303 | The URL is the analyses prefix followed by the id when it fits in 512 bytes, otherwise cut to 511 characters. |
| VirusTotal.AnalysisUrlKeepsId | src/virustotal_utils.c:302-303 | For an id of at most 468 characters, the URL is the prefix and the id can be read back whole after it. |
| VirusTotal.UploadName | src/virustotal_utils.c:217-227 | The form filename is a suffix of the path that never contains `/`. It follows the last `/` if there is one, else the last `\`, else it is the whole path. |
| VirusTotal.UploadNameOfJoin | src/virustotal_utils.c:217-227 | `dir/name`, with no `/` in name, is uploaded under `name`, whatever `dir` is. |
| VirusTotal.CountOf | src/virustotal_utils.c:408-416 | A count is the valueint of a numeric member and 0 for a missing or non-numeric one. |
| VirusTotal.UploadId | src/virustotal_utils.c:250-277 | There is no id without an API key. There is an id exactly when the transfer worked, the code is 200, the body parses and `data.id` is a string, and then it is that string. |
| VirusTotal.PollStep | src/virustotal_utils.c:335-438 | Fail exactly on a failed transfer, a non-200 code, an unparsable body, or a missing `data`, `attributes` or string `status`. Done exactly on status "completed", with counts iff `stats` is present. Otherwise poll again. |
| VirusTotal.DecidingFrom | src/virustotal_utils.c:307-438 | The first reply from k on that does not say "poll again", with only "poll again" replies before it. |
| VirusTotal.Poll | src/virustotal_utils.c:307-439 | The loop is still waiting exactly when every reply said "poll again". |
| VirusTotal.PollDecidedAt | src/virustotal_utils.c:307-439 | The first deciding reply fixes the loop's outcome. |
| VirusTotal.PollAppend | src/virustotal_utils.c:307-439 | Replies after the deciding one are never read. After replies that all said "poll again", the loop continues with the next replies as if from scratch. |
| VirusTotal.RequestCount | src/virustotal_utils.c:307-439 | The loop sends one request per reply up to and including the deciding one, and that last reply decides the outcome. |
| VirusTotal.GetAnalysis | src/virustotal_utils.c:290-443 | get_analysis fails at once without a key or an id. Otherwise its loop ends where Poll says. It sends one request per reply read, each with the same URL and header. |
| VirusTotal.AnalysisResult | src/virustotal_utils.c:402-429 | get_analysis returns 1 exactly for a completed scan and 0 for a failure. |
| Workflow.Scan | src/main.c:58-93 | Exit code 0 exactly when the file exists, the upload returns an id and the analysis succeeds, and 1 otherwise. The upload is attempted only for an existing file, and the analysis only for a returned id. main.c:52-87 has the same sequence. |
| PromptScanner.Fgets | src/main.c:37-40 | fgets fails only at end of input. Otherwise it reads a non-empty prefix of at most 255 characters, ending at the first newline, at the end of input, or at 255 characters. |
| PromptScanner.PromptedName | src/main.c:42-52 | Only one final newline is removed. A line that is empty, or only a newline, becomes `sample_input.txt`. The name is never empty and holds no NUL. |
| PromptScanner.PromptedFilename | src/main.c:37-52 | There is no name only at end of input. Otherwise the name is non-empty and shorter than 256 characters. |
| PromptScanner.TypedNameKept | src/main.c:43-47 | A name typed and followed by Enter is taken exactly as typed. |
| PromptScanner.EnterSelectsDefault | src/main.c:49-52 | Pressing Enter alone selects `sample_input.txt`. |
| PromptScanner.LongLineCut | src/main.c:37 | A line with 255 or more characters before any newline is cut to its first 255. |
| PromptScanner.ReadPath | src/main.c:37-56 | The buffer edits yield the specified file name, and the path copied into `filepath` equals it uncut. |
| PromptScanner.SettleName | src/main.c:42-52 | The newline overwrite and the default copy leave PromptedName in `filename`. |
| PromptScanner.DropNewline | src/main.c:43-47 | Overwriting a final newline with NUL leaves the C string without its newline. |
| PromptScanner.CopyDefault | src/main.c:50-52 | strcpy of the default leaves exactly `sample_input.txt` in the buffer. |
| PromptScanner.CopyPath | src/main.c:55-56 | strncpy of at most 511 characters, then a NUL in the last place, gives back a name shorter than 256 unchanged. |
| PromptScanner.ScanFromPrompt | src/main.c:26-94 | A failed read returns 1 before anything else is called. Otherwise the existence check comes first, on the prompted name, and the result is 0 exactly when every step succeeds. |
| DataDirScanner.ScanToken | main.c:44-47 | scanf fails exactly when the input is all white space. Otherwise the token has 1 to 255 characters and no white space. It is the input's text from the first non-white-space character on. It ends at white space, at the end of the input, or after 255 characters. |
| DataDirScanner.LongTokenCut | main.c:44 | A token of 255 or more characters is cut to its first 255, whatever follows it. |
| DataDirScanner.ScanTokenReadsName | main.c:44 | A name with white space around it is read back exactly. |
| DataDirScanner.DataPathUploadName | main.c:26-28 | A file named without a `/` is uploaded under its own name. |
| DataDirScanner.ConstructFilePath | main.c:26-28 | The buffer holds `data/` followed by the name, cut to size - 1 characters, with a NUL after it. Nothing after the NUL changes, and a zero-size buffer is left alone. |
| DataDirScanner.ScannedName | main.c:34-47 | The name held in `filename` has no NUL and is shorter than 256 characters. |
| DataDirScanner.ReadPath | main.c:44-50 | The path built in `filepath[512]` is exactly `data/` followed by the scanned name, never cut. |
| DataDirScanner.ScanFromDataDir | main.c:33-88 | A failed scanf returns 1 before anything else is called. Otherwise the existence check comes first, on `data/<name>`, and the result is 0 exactly when every step succeeds. |

## Left out

- libcurl is not modelled. Handle creation, headers, MIME parts, perform and getinfo are foreign network I/O. Each exchange is a `Reply`. A failed `curl_easy_init` or `curl_mime_init` has the same outcome as a failed transfer (NULL or 0), so it is folded into `performed == false`.
- cJSON parsing is not modelled. A parsed body is reduced to the members the code reads: `data`, `id`, `attributes`, `status`, `stats`, `harmless`, `malicious`. Member lookup (case-insensitive, first match) and the double-to-int conversion behind `valueint` are cJSON's own.
- Finding the `.env` file is not modelled: fopen of `.env`, `./.env`, `../.env` and `../../.env` in turn, and fgets's 511-character chunking of longer lines. The model takes the lines of the first file that opens.
- `getenv` is not modelled. Its result is an optional string.
- `file_exists` (fopen of the path) is not modelled. It is a function of the path.
- `sleep(5)` between polls is not modelled.
- The unbounded `while(1)` poll is not modelled as such. It becomes a fold over a finite sequence of replies, and `Pending` stands for a loop that has not yet returned.
- printf and fprintf messages are not modelled.
- malloc and strdup failures when copying the found value, the environment key or the id are not modelled; the model always has the copy.
- The `curl_global_initialized` flag is not modelled.
- ResponseBuffer.ResponseData.Write: does not model size_t overflow of `size * nmemb` or `size + realsize + 1`. A chunk is a sequence of any length.
- EnvFile.Lookup: lines are taken as fgets delivers them, up to the newline. An embedded NUL inside a `.env` line is not cut at.
- `config/virustotal_utils.h` is included by `main.c:5`. It is not part of this model; `main.c` is taken to use the same `upload_to_virustotal` and `get_analysis` as `include/virustotal_utils.h` declares.

## Findings

| source | as written | input that shows it | evidently intended | confidence | as-written member | corrected member |
|---|---|---|---|---|---|---|
| src/virustotal_utils.c:129-133 | The quote test checks `value_len > 0`, then does `value_len -= 2`. | The line `VIRUSTOTAL_API_KEY="`. value_len wraps to SIZE_MAX, and malloc(0) receives a 1-byte strcpy. | Strip a quote pair only from a value of length 2 or more. | not executed; follows from size_t arithmetic | EnvFile.LoneQuoteUnderflows | EnvFile.LoneQuoteKept |
| src/virustotal_utils.c:323-356 | `response.data = malloc(1)` is only written by write_callback, yet cJSON_Parse and the `%s` conversions read it as a C string. The same block is read at lines 255, 258 and 270 of `upload_to_virustotal`. | A 200 reply with an empty body, if libcurl makes no call to write_callback. The parser then reads an uninitialised byte and, unless it is NUL, past the end of the allocation. | Start the buffer as an empty, NUL-terminated string. | not executed; needs a server reply with an empty body | ResponseBuffer.EmptyReplyText | ResponseBuffer.EmptyReplyTextZeroed |
