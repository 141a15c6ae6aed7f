/**
 * The `.env` reader of read_env_file_value and the API-key precedence of
 * get_api_key. The file is given as the lines fgets returned (each possibly
 * ending in '\n'); opening it and reading it are not part of this model.
 */
module EnvFile {
  import opened Wrappers
  import opened CStrings

  const MAX_KEY_LEN: nat := 64
  const API_KEY_NAME: string := "VIRUSTOTAL_API_KEY"
  /** Cut from the end of a key and from the start of a value. */
  const Blanks: set<char> := {' ', '\t'}
  /** Cut from the end of a value. */
  const ValueTail: set<char> := {' ', '\t', '\r'}

  /** A `key=value` line once cleaned. */
  datatype Entry = Entry(key: string, value: string)

  predicate IsQuote(c: char) { c == '"' || c == '\'' }

  /** v is wrapped in one pair of matching quotes; only a value of two or more characters can be. */
  predicate Quoted(v: string) { |v| >= 2 && IsQuote(v[0]) && v[|v| - 1] == v[0] }

  /** Removes exactly one pair of surrounding quotes, and only from a quoted value. */
  function Unquote(v: string): (r: string)
    ensures if Quoted(v) then v == [v[0]] + r + [v[0]] else r == v
  {
    if Quoted(v) then v[1..|v| - 1] else v
  }

  /**
   * The value held in `line` from index `from` on: leading blanks and trailing
   * blanks and CRs cut, then one quote pair removed.
   */
  function CleanValue(line: string, from: nat): string
    requires from <= |line|
  {
    var a := SkipFrom(line, Blanks, from);
    Unquote(line[a..KeptLength(line, ValueTail, a, |line|)])
  }

  /** A line the loop does not skip: after the fgets newline is dropped it is non-empty, not a comment, and has an '='. */
  predicate IsEntry(raw: string)
  {
    var line := StripNewline(raw);
    line != [] && line[0] != '#' && '=' in line
  }

  /** Where the first '=' of an entry line is (strchr). */
  function EqualsAt(raw: string): (eq: nat)
    requires IsEntry(raw)
    ensures var line := StripNewline(raw); eq < |line| && line[eq] == '=' && '=' !in line[..eq]
  {
    FirstIndex(StripNewline(raw), '=').value
  }

  /** The key of an entry line: the text before its first '=', cut to MAX_KEY_LEN - 1 characters, trailing blanks removed. */
  function KeyOf(raw: string): string
    requires IsEntry(raw)
  {
    var line := StripNewline(raw);
    line[..KeptLength(line, Blanks, 0, Min(EqualsAt(raw), MAX_KEY_LEN - 1))]
  }

  /** The value of an entry line: the cleaned text after its first '='. */
  function ValueOf(raw: string): string
    requires IsEntry(raw)
  {
    CleanValue(StripNewline(raw), EqualsAt(raw) + 1)
  }

  /**
   * The key rule for a line whose first '=' is at index eq: `key` is a prefix
   * of the line no longer than the cut point (eq, capped at MAX_KEY_LEN - 1),
   * so it holds no '='; it has no trailing blank, and only blanks lie between
   * it and the cut point, so leading blanks and CRs stay part of it.
   */
  predicate KeyRule(line: string, eq: nat, key: string)
    requires eq <= |line|
  {
    var cut := Min(eq, MAX_KEY_LEN - 1);
    && |key| <= cut && key == line[..|key|]
    && (key == [] || line[|key| - 1] !in Blanks)
    && AllIn(line[|key|..cut], Blanks)
  }

  /**
   * The value rule for a line whose first '=' is at index eq: `value` is the
   * slice from a to b of the line, where only blanks lie between the '=' and a
   * and only blanks and CRs follow b, and neither end of the slice could be cut
   * further; one quote pair is then removed from that slice.
   */
  predicate ValueRule(line: string, eq: nat, value: string)
    requires eq < |line|
  {
    var a := SkipFrom(line, Blanks, eq + 1);
    var b := KeptLength(line, ValueTail, a, |line|);
    && AllIn(line[eq + 1..a], Blanks) && (a == |line| || line[a] !in Blanks)
    && AllIn(line[b..|line|], ValueTail) && (b == a || line[b - 1] !in ValueTail)
    && value == if Quoted(line[a..b]) then line[a + 1..b - 1] else line[a..b]
  }

  /**
   * One line of the file. Once its newline is dropped, an empty line, a
   * comment or a line without '=' gives nothing. Any other line splits at its
   * first '=', and its key and value follow the key and value rules.
   */
  function ParseLine(raw: string): (e: Option<Entry>)
    ensures var line := StripNewline(raw);
      e.None? <==> line == [] || line[0] == '#' || '=' !in line
    ensures e.Some? ==> IsEntry(raw) && KeyRule(StripNewline(raw), EqualsAt(raw), e.value.key)
    ensures e.Some? ==> IsEntry(raw) && ValueRule(StripNewline(raw), EqualsAt(raw), e.value.value)
  {
    if !IsEntry(raw) then None
    else
      KeyRuleHolds(StripNewline(raw), EqualsAt(raw));
      ValueRuleHolds(StripNewline(raw), EqualsAt(raw));
      Some(Entry(KeyOf(raw), ValueOf(raw)))
  }

  /** The cut the loop body makes satisfies the key rule. */
  lemma KeyRuleHolds(line: string, eq: nat)
    requires eq <= |line|
    ensures KeyRule(line, eq, line[..KeptLength(line, Blanks, 0, Min(eq, MAX_KEY_LEN - 1))])
  {
    var cut := Min(eq, MAX_KEY_LEN - 1);
    var k := KeptLength(line, Blanks, 0, cut);
    AllInSlice(line, Blanks, k, cut);
  }

  /** CleanValue satisfies the value rule. */
  lemma ValueRuleHolds(line: string, eq: nat)
    requires eq < |line|
    ensures ValueRule(line, eq, CleanValue(line, eq + 1))
  {
    var a := SkipFrom(line, Blanks, eq + 1);
    var b := KeptLength(line, ValueTail, a, |line|);
    assert AllIn(line[eq + 1..a], Blanks) by {
      AllInSlice(line, Blanks, eq + 1, a);
    }
    assert AllIn(line[b..|line|], ValueTail) by {
      AllInSlice(line, ValueTail, b, |line|);
    }
    if Quoted(line[a..b]) {
      SliceOfSlice(line, a, b, 1, b - a - 1);
    }
  }

  /** The line is an entry whose key is exactly the requested one. */
  predicate Matches(raw: string, key: string)
  {
    IsEntry(raw) && KeyOf(raw) == key
  }

  /** A line matches a key exactly when it parses to an entry with that key. */
  lemma MatchesParsed(raw: string, key: string)
    ensures Matches(raw, key) <==> ParseLine(raw).Some? && ParseLine(raw).value.key == key
  {
  }

  /** The index of the first line at or after `k` whose key is `key`. */
  function FirstMatchFrom(lines: seq<string>, key: string, k: nat): (r: Option<nat>)
    requires k <= |lines|
    ensures r.Some? ==> k <= r.value < |lines| && Matches(lines[r.value], key)
    ensures r.Some? ==> forall j :: k <= j < r.value ==> !Matches(lines[j], key)
    ensures r.None? ==> forall j :: k <= j < |lines| ==> !Matches(lines[j], key)
    decreases |lines| - k
  {
    if k == |lines| then None
    else if Matches(lines[k], key) then Some(k)
    else FirstMatchFrom(lines, key, k + 1)
  }

  /** The index of the first line whose key is `key`. */
  function FirstMatch(lines: seq<string>, key: string): Option<nat>
  {
    FirstMatchFrom(lines, key, 0)
  }

  /** A matching line with no match before it is the first match. */
  lemma FirstMatchIs(lines: seq<string>, i: nat, key: string)
    requires i < |lines| && Matches(lines[i], key)
    requires forall j :: 0 <= j < i ==> !Matches(lines[j], key)
    ensures FirstMatch(lines, key) == Some(i)
  {
  }

  /** The value of the first line whose key matches; an empty value there means "not found". */
  function Lookup(lines: seq<string>, key: string): (r: Option<string>)
    ensures r.Some? ==> r.value != []
    ensures r.Some? ==> exists i :: 0 <= i < |lines| && ParseLine(lines[i]) == Some(Entry(key, r.value))
    ensures (forall i :: 0 <= i < |lines| ==> !Matches(lines[i], key)) ==> r.None?
  {
    match FirstMatch(lines, key)
    case None => None
    case Some(i) =>
      var v := ParseLine(lines[i]).value.value;
      if v == [] then None else Some(v)
  }

  /** No key longer than MAX_KEY_LEN - 1 characters, or ending in a blank, is ever found. */
  lemma UnmatchableKeys(lines: seq<string>, key: string)
    requires |key| >= MAX_KEY_LEN || (key != [] && key[|key| - 1] in Blanks)
    ensures Lookup(lines, key).None?
  {
  }

  /**
   * The first line whose key matches decides the lookup, whatever the lines
   * after it hold: its value when non-empty, otherwise "not found".
   */
  lemma FirstMatchWins(lines: seq<string>, i: nat, key: string)
    requires i < |lines| && Matches(lines[i], key)
    requires forall j :: 0 <= j < i ==> !Matches(lines[j], key)
    ensures var v := ParseLine(lines[i]).value.value; Lookup(lines, key) == if v == [] then None else Some(v)
  {
    FirstMatchIs(lines, i, key);
  }

  /** A blank line, a comment or a line without '=' never affects a lookup. */
  lemma IgnoredLineIrrelevant(pre: seq<string>, line: string, post: seq<string>, key: string)
    requires !IsEntry(line)
    ensures Lookup(pre + [line] + post, key) == Lookup(pre + post, key)
  {
    var with, without := pre + [line] + post, pre + post;
    match FirstMatch(without, key)
    case None =>
      NoMatchAround(pre, line, post, key, |without|);
    case Some(i) =>
      var i' := if i < |pre| then i else i + 1;
      assert with[i'] == without[i];
      NoMatchAround(pre, line, post, key, i);
      FirstMatchIs(with, i', key);
  }

  /**
   * When none of the first n lines of pre + post matches, none of the lines
   * before the corresponding position of pre + [line] + post does either.
   */
  lemma NoMatchAround(pre: seq<string>, line: string, post: seq<string>, key: string, n: nat)
    requires !IsEntry(line) && n <= |pre| + |post|
    requires forall j :: 0 <= j < n ==> !Matches((pre + post)[j], key)
    ensures forall j :: 0 <= j < (if n < |pre| then n else n + 1) ==> !Matches((pre + [line] + post)[j], key)
  {
    var with, without := pre + [line] + post, pre + post;
    forall j | 0 <= j < (if n < |pre| then n else n + 1)
      ensures !Matches(with[j], key)
    {
      if j > |pre| {
        assert with[j] == without[j - 1];
      } else if j < |pre| {
        assert with[j] == without[j];
      }
    }
  }

  /**
   * The trimming loops on key_len and value_len: starting from n, the length
   * drops while the character before it is in `drop`, but never below lo.
   */
  method TrimEndLength(s: string, drop: set<char>, lo: nat, n: nat) returns (m: nat)
    requires lo <= n <= |s|
    ensures m == KeptLength(s, drop, lo, n)
  {
    m := n;
    while m > lo && s[m - 1] in drop
      invariant lo <= m <= n
      invariant KeptLength(s, drop, lo, m) == KeptLength(s, drop, lo, n)
    {
      m := m - 1;
    }
  }

  /** The pointer-advancing loop on file_value: the index of the first character at or after `from` not in `drop`. */
  method SkipLeading(s: string, drop: set<char>, from: nat) returns (k: nat)
    requires from <= |s|
    ensures k == SkipFrom(s, drop, from)
  {
    k := from;
    while k < |s| && s[k] in drop
      invariant from <= k <= |s|
      invariant SkipFrom(s, drop, k) == SkipFrom(s, drop, from)
    {
      k := k + 1;
    }
  }

  /**
   * The body of the read loop for one line: whether its key is the requested
   * one and, when it is, its cleaned value (before the emptiness test).
   */
  method MatchLine(raw: string, key: string) returns (isMatch: bool, value: string)
    ensures isMatch <==> ParseLine(raw).Some? && ParseLine(raw).value.key == key
    ensures isMatch ==> value == ParseLine(raw).value.value
  {
    value := [];
    var line := StripNewline(raw);
    if line == [] || line[0] == '#' {
      return false, value;
    }
    var equals := FirstIndex(line, '=');
    if equals.None? {
      return false, value;
    }
    assert IsEntry(raw) && EqualsAt(raw) == equals.value;
    assert ParseLine(raw) == Some(Entry(KeyOf(raw), ValueOf(raw)));
    var fileKey := LineKey(line, equals.value);
    isMatch := fileKey == key;
    if isMatch {
      value := CleanFileValue(line, equals.value + 1);
    }
  }

  /** The key half of the loop body: key_len capped at MAX_KEY_LEN - 1, then trailing blanks cut. */
  method LineKey(line: string, eq: nat) returns (fileKey: string)
    requires eq <= |line|
    ensures fileKey == line[..KeptLength(line, Blanks, 0, Min(eq, MAX_KEY_LEN - 1))]
  {
    var keyLen := eq;
    if keyLen >= MAX_KEY_LEN {
      keyLen := MAX_KEY_LEN - 1;
    }
    keyLen := TrimEndLength(line, Blanks, 0, keyLen);
    fileKey := line[..keyLen];
  }

  /**
   * The value half of the loop body, on the text of `line` from index `from`
   * on: skip leading blanks, cut trailing blanks and CRs, drop one quote pair.
   */
  method CleanFileValue(line: string, from: nat) returns (value: string)
    requires from <= |line|
    ensures value == CleanValue(line, from)
  {
    var start := SkipLeading(line, Blanks, from);
    var end := TrimEndLength(line, ValueTail, start, |line|);
    var valueLen := end - start;
    if valueLen >= 2 && IsQuote(line[start]) && line[end - 1] == line[start] {
      SliceOfSlice(line, start, end, 1, valueLen - 1);
      start, valueLen := start + 1, valueLen - 2;
    }
    value := line[start..start + valueLen];
  }

  /** The read loop of read_env_file_value over the lines of the file that was found. */
  method ReadEnvFileValue(lines: seq<string>, key: string) returns (value: Option<string>)
    ensures value == Lookup(lines, key)
  {
    var i := 0;
    while i < |lines|
      invariant 0 <= i <= |lines|
      invariant forall j :: 0 <= j < i ==> !Matches(lines[j], key)
    {
      var isMatch, fileValue := MatchLine(lines[i], key);
      if isMatch {
        value := if fileValue != [] then Some(fileValue) else None;
        FirstMatchWins(lines, i, key);
        return;
      }
      i := i + 1;
    }
    value := None;
  }

  /** get_api_key's precedence: a non-empty file value, else a non-empty environment value, else nothing. */
  function ResolveApiKey(fileValue: Option<string>, environ: Option<string>): (r: Option<string>)
    ensures r.Some? ==> r.value != []
    ensures r.Some? <==> (fileValue.Some? && fileValue.value != []) || (environ.Some? && environ.value != [])
    ensures fileValue.Some? && fileValue.value != [] ==> r == fileValue
    ensures (fileValue.None? || fileValue.value == []) && r.Some? ==> r == environ
  {
    if fileValue.Some? && fileValue.value != [] then fileValue
    else if environ.Some? && environ.value != [] then environ
    else None
  }

  /**
   * The API key both requests use: `envFile` is the lines of the first `.env`
   * found (None when none opens), `environ` the VIRUSTOTAL_API_KEY variable.
   */
  function ApiKey(envFile: Option<seq<string>>, environ: Option<string>): (r: Option<string>)
    ensures r.Some? ==> r.value != []
    ensures envFile.Some? && Lookup(envFile.value, API_KEY_NAME).Some? ==> r == Lookup(envFile.value, API_KEY_NAME)
    ensures (envFile.None? || Lookup(envFile.value, API_KEY_NAME).None?) ==>
      r == (if environ.Some? && environ.value != [] then environ else None)
  {
    var fileValue := match envFile case None => None case Some(lines) => Lookup(lines, API_KEY_NAME);
    ResolveApiKey(fileValue, environ)
  }

  // The quote removal of lines 129-134 as written tests only value_len > 0, so
  // a value that is a lone quote passes and value_len (a size_t) wraps.

  const SIZE_T_MODULUS: int := 0x1_0000_0000_0000_0000

  /** The quote test as written: a non-empty value whose first and last characters are the same quote. */
  predicate QuoteGuardAsWritten(v: string) { |v| > 0 && IsQuote(v[0]) && v[|v| - 1] == v[0] }

  /** value_len after the quote step as written, in size_t arithmetic. */
  function ValueLenAsWritten(v: string): (n: int)
    requires |v| < SIZE_T_MODULUS
    ensures 0 <= n < SIZE_T_MODULUS
  {
    if QuoteGuardAsWritten(v) then (|v| - 2) % SIZE_T_MODULUS else |v|
  }

  /** The text strcpy copies after the quote step as written. */
  function TextAsWritten(v: string): (r: string)
    ensures |r| <= |v|
  {
    if QuoteGuardAsWritten(v) then (if |v| >= 2 then v[1..|v| - 1] else []) else v
  }

  /**
   * A lone quote: value_len wraps to SIZE_MAX, the value is treated as present,
   * and malloc(value_len + 1) asks for 0 bytes while strcpy writes one.
   */
  lemma LoneQuoteUnderflows(q: char)
    requires IsQuote(q)
    ensures ValueLenAsWritten([q]) == SIZE_T_MODULUS - 1
    ensures ValueLenAsWritten([q]) > 0 && TextAsWritten([q]) == []
    ensures (ValueLenAsWritten([q]) + 1) % SIZE_T_MODULUS == 0 < |TextAsWritten([q])| + 1
  {
  }

  /** Except on a lone quote, the code as written and Unquote agree on the text and on its length. */
  lemma AsWrittenAgreesWithUnquote(v: string)
    requires |v| != 1 && |v| < SIZE_T_MODULUS
    ensures TextAsWritten(v) == Unquote(v) && ValueLenAsWritten(v) == |Unquote(v)|
  {
  }

  /** With the guard corrected, a lone quote is an ordinary one-character value and is found. */
  lemma LoneQuoteKept(q: char)
    requires IsQuote(q)
    ensures Unquote([q]) == [q]
    ensures Lookup([API_KEY_NAME + "=" + [q]], API_KEY_NAME) == Some([q])
  {
    var line := API_KEY_NAME + "=" + [q];
    assert StripNewline(line) == line;
    assert line[|API_KEY_NAME|] == '=';
    assert '=' !in line[..|API_KEY_NAME|];
    assert FirstIndex(line, '=') == Some(|API_KEY_NAME|);
    var n := |API_KEY_NAME|;
    assert line[n - 1] == 'Y' && line[n + 1] == q;
    assert KeptLength(line, Blanks, 0, n) == n;
    assert line[..n] == API_KEY_NAME;
    assert SkipFrom(line, Blanks, n + 1) == n + 1;
    assert KeptLength(line, ValueTail, n + 1, n + 2) == n + 2;
    assert line[n + 1..n + 2] == [line[n + 1]];
    FirstMatchWins([line], 0, API_KEY_NAME);
  }
}
