/**
 * The decisions of upload_to_virustotal and get_analysis. Each HTTP exchange
 * is given as a Reply: whether the transfer completed, the status code, and
 * the parsed JSON body reduced to the members the program looks up. Building
 * requests, running libcurl and parsing JSON are not part of this model.
 */
module VirusTotal {
  import opened Wrappers
  import opened CStrings

  const UPLOAD_URL: string := "https://www.virustotal.com/api/v3/files"
  const ANALYSIS_URL_PREFIX: string := "https://www.virustotal.com/api/v3/analyses/"
  /** The sizes of the `url` and `auth_header` buffers. */
  const URL_SIZE: nat := 512
  const AUTH_HEADER_SIZE: nat := 256
  const AUTH_HEADER_PREFIX: string := "x-apikey: "
  const COMPLETED: string := "completed"

  /**
   * A JSON member as the program tests it, found the way cJSON_GetObjectItem
   * finds it: absent, a string (its valuestring), a number (its valueint), or
   * a value of another type.
   */
  datatype Field = Absent | Str(text: string) | Num(valueint: int) | OtherValue

  /** The members of `stats`; a `stats` value that is not an object has neither. */
  datatype Stats = Stats(harmless: Field, malicious: Field)

  /** The members of `data.attributes`; an `attributes` value that is not an object has none. */
  datatype Attributes = Attributes(status: Field, stats: Option<Stats>)

  /** The members of `data`; a `data` value that is not an object has none. */
  datatype Data = Data(id: Field, attributes: Option<Attributes>)

  /** A parsed reply body: its `data` member, if there is one. */
  datatype Document = Document(data: Option<Data>)

  /**
   * One HTTP exchange: `performed` is curl_easy_perform returning CURLE_OK,
   * `httpCode` the response code, `body` the outcome of cJSON_Parse (None when
   * the body is not JSON).
   */
  datatype Reply = Reply(performed: bool, httpCode: int, body: Option<Document>)

  datatype Counts = Counts(harmless: int, malicious: int)

  /** What one poll decides: poll again, the scan is complete (with its counts when `stats` is present), or give up. */
  datatype Step = Continue | Done(counts: Option<Counts>) | Fail

  /** Where the poll loop stops: a completed scan, a failure, or still waiting when the replies run out. */
  datatype Analysis = Completed(counts: Option<Counts>) | Failed | Pending

  /** The header both requests carry: "x-apikey: " and the key, cut to fit the 256-byte buffer. */
  function AuthHeader(apiKey: string): (h: string)
    ensures h <= AUTH_HEADER_PREFIX + apiKey && |h| < AUTH_HEADER_SIZE
    ensures |AUTH_HEADER_PREFIX| + |apiKey| < AUTH_HEADER_SIZE ==> h == AUTH_HEADER_PREFIX + apiKey
    ensures |AUTH_HEADER_PREFIX| + |apiKey| >= AUTH_HEADER_SIZE ==> |h| == AUTH_HEADER_SIZE - 1
  {
    Snprintf(AUTH_HEADER_PREFIX + apiKey, AUTH_HEADER_SIZE)
  }

  /** The analysis URL: the prefix and the id, cut to fit the 512-byte buffer. */
  function AnalysisUrl(id: string): (url: string)
    ensures url <= ANALYSIS_URL_PREFIX + id && |url| < URL_SIZE
    ensures |ANALYSIS_URL_PREFIX| + |id| < URL_SIZE ==> url == ANALYSIS_URL_PREFIX + id
    ensures |ANALYSIS_URL_PREFIX| + |id| >= URL_SIZE ==> |url| == URL_SIZE - 1
  {
    Snprintf(ANALYSIS_URL_PREFIX + id, URL_SIZE)
  }

  /** An id short enough to fit is carried whole: it can be read back from the URL after the prefix. */
  lemma AnalysisUrlKeepsId(id: string)
    requires |id| < URL_SIZE - |ANALYSIS_URL_PREFIX|
    ensures |AnalysisUrl(id)| == |ANALYSIS_URL_PREFIX| + |id|
    ensures AnalysisUrl(id)[..|ANALYSIS_URL_PREFIX|] == ANALYSIS_URL_PREFIX
    ensures AnalysisUrl(id)[|ANALYSIS_URL_PREFIX|..] == id
  {
  }

  /** Where the upload filename starts: after the last '/', else after the last '\', else at 0. */
  function UploadNameStart(path: string): (k: nat)
    ensures k <= |path|
  {
    match LastIndex(path, '/')
    case Some(i) => i + 1
    case None =>
      match LastIndex(path, '\\')
      case Some(j) => j + 1
      case None => 0
  }

  /**
   * The filename given to the upload's form part: a suffix of the path with no
   * '/', which follows the last '/' when there is one, otherwise the last '\',
   * and is the whole path when there is neither.
   */
  function UploadName(path: string): (name: string)
    ensures |name| <= |path| && name == path[|path| - |name|..]
    ensures '/' !in name
    ensures '/' in path ==> |name| < |path| && path[|path| - |name| - 1] == '/'
    ensures '/' !in path && '\\' in path ==>
      '\\' !in name && |name| < |path| && path[|path| - |name| - 1] == '\\'
    ensures '/' !in path && '\\' !in path ==> name == path
  {
    path[UploadNameStart(path)..]
  }

  /** A file named inside a directory is uploaded under its own name, whatever the directory. */
  lemma {:induction false} UploadNameOfJoin(dir: string, name: string)
    requires '/' !in name
    ensures UploadName(dir + "/" + name) == name
  {
    var path := dir + "/" + name;
    assert path[|dir|] == '/';
    assert path[|dir| + 1..] == name;
    assert LastIndex(path, '/') == Some(|dir|);
  }

  /** The valuestring of a string field. */
  function StringOf(f: Field): Option<string>
  {
    if f.Str? then Some(f.text) else None
  }

  /** A count as printed: the valueint of a number, 0 for anything else. */
  function CountOf(f: Field): (n: int)
    ensures f.Num? ==> n == f.valueint
    ensures !f.Num? ==> n == 0
  {
    if f.Num? then f.valueint else 0
  }

  /** The `data` member of a successful, parsable reply. */
  function ReplyData(r: Reply): Option<Data>
  {
    if r.performed && r.httpCode == 200 && r.body.Some? then r.body.value.data else None
  }

  /**
   * The id upload_to_virustotal returns: none without an API key; otherwise
   * the string `data.id` of a successful, parsable reply, and none when the
   * transfer failed, the code is not 200, the body does not parse, or
   * `data.id` is missing or not a string.
   */
  function UploadId(apiKey: Option<string>, reply: Reply): (id: Option<string>)
    ensures apiKey.None? ==> id.None?
    ensures id.Some? <==>
      apiKey.Some? && reply.performed && reply.httpCode == 200 && reply.body.Some? &&
      reply.body.value.data.Some? && reply.body.value.data.value.id.Str?
    ensures id.Some? ==> id.value == reply.body.value.data.value.id.text
  {
    if apiKey.None? then None
    else match ReplyData(reply)
      case None => None
      case Some(data) => StringOf(data.id)
  }

  /**
   * The decision get_analysis takes on one reply. It gives up on a failed
   * transfer, a code other than 200, a body that does not parse, or a missing
   * `data`, `attributes` or string `status`; it is done when the status is
   * "completed", with the numeric `harmless` and `malicious` counts (0 when
   * missing or not numbers) if `stats` is present; any other status means
   * polling again.
   */
  function PollStep(r: Reply): (s: Step)
    ensures s.Fail? <==>
      !r.performed || r.httpCode != 200 || r.body.None? || r.body.value.data.None? ||
      r.body.value.data.value.attributes.None? || !r.body.value.data.value.attributes.value.status.Str?
    ensures s.Done? <==>
      ReplyData(r).Some? && ReplyData(r).value.attributes.Some? &&
      ReplyData(r).value.attributes.value.status == Str(COMPLETED)
    ensures s.Done? ==> var attributes := ReplyData(r).value.attributes.value;
      (s.counts.Some? <==> attributes.stats.Some?) &&
      (s.counts.Some? ==>
        s.counts.value.harmless == CountOf(attributes.stats.value.harmless) &&
        s.counts.value.malicious == CountOf(attributes.stats.value.malicious))
  {
    match ReplyData(r)
    case None => Fail
    case Some(data) =>
      match data.attributes
      case None => Fail
      case Some(attributes) =>
        match StringOf(attributes.status)
        case None => Fail
        case Some(status) =>
          if status == COMPLETED then
            match attributes.stats
            case None => Done(None)
            case Some(stats) => Done(Some(Counts(CountOf(stats.harmless), CountOf(stats.malicious))))
          else Continue
  }

  /** The index of the first reply at or after k that ends the poll loop. */
  function DecidingFrom(rs: seq<Reply>, k: nat): (r: Option<nat>)
    requires k <= |rs|
    ensures r.Some? ==> k <= r.value < |rs| && !PollStep(rs[r.value]).Continue?
    ensures r.Some? ==> forall i :: k <= i < r.value ==> PollStep(rs[i]).Continue?
    ensures r.None? ==> forall i :: k <= i < |rs| ==> PollStep(rs[i]).Continue?
    decreases |rs| - k
  {
    if k == |rs| then None
    else if !PollStep(rs[k]).Continue? then Some(k)
    else DecidingFrom(rs, k + 1)
  }

  /** The outcome of the step that ended the loop. */
  function Decided(s: Step): Analysis
  {
    if s.Done? then Completed(s.counts) else Failed
  }

  /** The poll loop over the replies it receives, in order: the first reply that does not say "poll again" decides. */
  function Poll(rs: seq<Reply>): (a: Analysis)
    ensures a.Pending? <==> forall i :: 0 <= i < |rs| ==> PollStep(rs[i]).Continue?
  {
    match DecidingFrom(rs, 0)
    case None => Pending
    case Some(i) => Decided(PollStep(rs[i]))
  }

  /** A reply that decides after only "poll again" replies fixes the outcome. */
  lemma PollDecidedAt(rs: seq<Reply>, i: nat)
    requires i < |rs| && !PollStep(rs[i]).Continue?
    requires forall j :: 0 <= j < i ==> PollStep(rs[j]).Continue?
    ensures Poll(rs) == Decided(PollStep(rs[i]))
    ensures DecidingFrom(rs, 0) == Some(i)
  {
  }

  /**
   * Replies after the deciding one are never looked at, and replies that all
   * say "poll again" change nothing: the loop picks up with whatever follows.
   */
  lemma {:induction false} PollAppend(rs: seq<Reply>, more: seq<Reply>)
    ensures !Poll(rs).Pending? ==> Poll(rs + more) == Poll(rs)
    ensures Poll(rs).Pending? ==> Poll(rs + more) == Poll(more)
  {
    var all := rs + more;
    assert forall j :: 0 <= j < |rs| ==> all[j] == rs[j];
    assert forall j :: 0 <= j < |more| ==> all[|rs| + j] == more[j];
    match DecidingFrom(rs, 0)
    case Some(i) =>
      PollDecidedAt(all, i);
    case None =>
      match DecidingFrom(more, 0)
      case Some(i) =>
        PollDecidedAt(all, |rs| + i);
      case None =>
        assert forall j :: 0 <= j < |all| ==> PollStep(all[j]).Continue? by {
          forall j | 0 <= j < |all|
            ensures PollStep(all[j]).Continue?
          {
            if j >= |rs| {
              assert all[j] == more[j - |rs|];
            }
          }
        }
  }

  /** get_analysis as a whole: no key or no id fails at once, otherwise the poll loop decides. */
  function Analyze(apiKey: Option<string>, fileId: Option<string>, rs: seq<Reply>): Analysis
  {
    if apiKey.None? || fileId.None? then Failed else Poll(rs)
  }

  /** How many requests the loop sends before it stops, or all of them when it is still waiting. */
  function RequestCount(rs: seq<Reply>): (n: nat)
    ensures n <= |rs|
    ensures Poll(rs).Pending? ==> n == |rs|
    ensures !Poll(rs).Pending? ==> n >= 1 && Poll(rs) == Decided(PollStep(rs[n - 1]))
  {
    match DecidingFrom(rs, 0)
    case None => |rs|
    case Some(i) => i + 1
  }

  /** One poll request: the URL and the API-key header it carries. */
  datatype Request = Request(url: string, header: string)

  /**
   * The loop of get_analysis run against the replies `rs`, one per request
   * (the sleep between requests is not modelled). It returns where the loop
   * stopped and the requests it sent: each carries the same URL and header,
   * and there is one per reply read.
   */
  method GetAnalysis(apiKey: Option<string>, fileId: Option<string>, rs: seq<Reply>)
    returns (outcome: Analysis, sent: seq<Request>)
    ensures outcome == Analyze(apiKey, fileId, rs)
    ensures apiKey.None? || fileId.None? ==> sent == []
    ensures apiKey.Some? && fileId.Some? ==> |sent| == RequestCount(rs)
    ensures forall i :: 0 <= i < |sent| ==>
      apiKey.Some? && fileId.Some? &&
      sent[i] == Request(AnalysisUrl(fileId.value), AuthHeader(apiKey.value))
  {
    sent := [];
    if apiKey.None? {
      return Failed, sent;
    }
    if fileId.None? {
      return Failed, sent;
    }
    var url := AnalysisUrl(fileId.value);
    var i := 0;
    while i < |rs|
      invariant i <= |rs| && |sent| == i
      invariant forall j :: 0 <= j < i ==> PollStep(rs[j]).Continue?
      invariant forall j :: 0 <= j < i ==> sent[j] == Request(url, AuthHeader(apiKey.value))
    {
      var header := AuthHeader(apiKey.value);
      sent := sent + [Request(url, header)];
      var step := PollStep(rs[i]);
      if !step.Continue? {
        PollDecidedAt(rs, i);
        outcome := if step.Done? then Completed(step.counts) else Failed;
        return;
      }
      i := i + 1;
    }
    outcome := Pending;
  }

  /** get_analysis's return value once the loop has stopped: 1 for a completed scan, 0 otherwise. */
  function AnalysisResult(a: Analysis): (code: int)
    requires !a.Pending?
    ensures code == 0 || code == 1
    ensures code == 1 <==> a.Completed?
  {
    if a.Completed? then 1 else 0
  }
}
