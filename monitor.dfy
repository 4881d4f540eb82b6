/**
 * Safety monitor drivers: a matching rule that turns fetched text into a safe/unsafe
 * verdict, and three drivers — one with a fixed verdict, one reading a local file and
 * one fetching a URL — each caching its last verdict, raw text and refresh time.
 */
module Monitor {
  import opened Wrappers
  import opened GoStrings
  import opened Io

  /** The size of the buffer the file and HTTP drivers read into. */
  const ReadBufferSize: nat := 1024

  /**
   * A compiled case-insensitive regular expression. Go's regexp engine is not modelled:
   * a user pattern is represented by the matcher its compilation yields. The fallback
   * expression `(?i)true|1` is modelled exactly.
   */
  datatype Regex = FallbackRegex | CompiledRegex(matches: string -> bool)

  datatype SafetyMatchingRule = SafetyMatchingRule(invert: bool, pattern: string, regex: Regex)

  /** `(?i)true|1`: the content contains "true" in any letter case, or the digit "1". */
  function FallbackMatch(content: string): (r: bool)
    ensures r <==> (exists i :: FoldOccursAt(content, "true", i)) || (exists i :: OccursAt(content, "1", i))
  {
    ContainsFold(content, "true") || Contains(content, "1")
  }

  function MatchString(re: Regex, content: string): bool
  {
    match re
    case FallbackRegex => FallbackMatch(content)
    case CompiledRegex(matches) => matches(content)
  }

  /** `isSafe` of a rule: whether the expression matches, negated for an inverted rule. */
  function RuleIsSafe(rule: SafetyMatchingRule, content: string): bool
  {
    if rule.invert then !MatchString(rule.regex, content) else MatchString(rule.regex, content)
  }

  /**
   * `NewSafetyMatchingRule`. `compiled` is the outcome of compiling "(?i)" + pattern:
   * the matcher, or None for a syntax error. An empty pattern or a compile error falls
   * back to `(?i)true|1`. The invert flag is accepted but never stored, so no rule built
   * here is inverted.
   */
  function NewSafetyMatchingRule(invert: bool, pattern: string, compiled: Option<string -> bool>)
    : (rule: SafetyMatchingRule)
    ensures !rule.invert && rule.pattern == pattern
    ensures forall content :: RuleIsSafe(rule, content) ==
                              if pattern == "" || compiled.None? then FallbackMatch(content)
                              else compiled.value(content)
  {
    var regex := if compiled.None? || pattern == "" then FallbackRegex else CompiledRegex(compiled.value);
    SafetyMatchingRule(false, pattern, regex)
  }

  /** Asking for an inverted rule gives the same verdicts as asking for a plain one. */
  lemma InvertIsIgnored(pattern: string, compiled: Option<string -> bool>, content: string)
    ensures RuleIsSafe(NewSafetyMatchingRule(true, pattern, compiled), content) ==
            RuleIsSafe(NewSafetyMatchingRule(false, pattern, compiled), content)
  {
  }

  /** "true" in any letter case, anywhere, satisfies the fallback expression. */
  lemma FallbackAcceptsTrue()
    ensures FallbackMatch("TrUe") && FallbackMatch("roof: TRUE")
  {
    assert "TrUe"[0..][..4] == "TrUe";
    assert FoldOccursAt("TrUe", "true", 0);
    assert "roof: TRUE"[6..][..4] == "TRUE";
    assert FoldOccursAt("roof: TRUE", "true", 6);
  }

  /** So does the digit "1". */
  lemma FallbackAcceptsOne()
    ensures FallbackMatch("1")
  {
    assert OccursAt("1", "1", 0);
  }

  /** Text with neither is unsafe under the fallback expression. */
  lemma FallbackRejects()
    ensures !FallbackMatch("0") && !FallbackMatch("abc") && !FallbackMatch("")
  {
    NoOccurrence("0");
    NoOccurrence("abc");
    NoOccurrence("");
  }

  lemma NoOccurrence(s: string)
    requires forall i :: 0 <= i < |s| ==> s[i] != '1' && LowerChar(s[i]) != 't'
    ensures !FallbackMatch(s)
  {
    if i :| FoldOccursAt(s, "true", i) {
      assert false;
    }
    if i :| OccursAt(s, "1", i) {
      OccurrenceStartsWith(s, "1", i);
      assert false;
    }
  }

  lemma OccurrenceStartsWith(s: string, sub: string, i: int)
    requires OccursAt(s, sub, i) && sub != []
    ensures i < |s| && s[i] == sub[0]
  {
    assert s[i..][0] == s[i];
  }

  /** Where a driver takes its verdict from. */
  datatype MonitorSource =
    | DummySource
    | FileSource(path: string, rule: SafetyMatchingRule)
    | HttpSource(url: string, rule: SafetyMatchingRule)

  /** The mutable part of a driver. */
  datatype MonitorState = MonitorState(safe: bool, lastValue: string, lastRefreshTime: Time)

  /** Whether a fetch delivers content that the driver then judges. */
  predicate Accepted(source: MonitorSource, outcome: ReadOutcome)
  {
    match source
    case DummySource => false
    // A file read must succeed outright; an empty file yields io.EOF and is a failure.
    case FileSource(_, _) => outcome.Read? && outcome.err == NoError
    // io.EOF together with the bytes read counts as success for an HTTP body.
    case HttpSource(_, _) => outcome.Read? && outcome.err != OtherError
  }

  /**
   * The state after `Refresh`: the dummy never changes; a failed fetch makes the driver
   * unsafe with an empty raw value and keeps the old refresh time; accepted content is
   * stored, judged by the rule, and stamped with the current time.
   */
  function Refreshed(source: MonitorSource, st: MonitorState, outcome: ReadOutcome, now: Time): MonitorState
  {
    if source.DummySource? then st
    else if !Accepted(source, outcome) then st.(safe := false, lastValue := "")
    else MonitorState(RuleIsSafe(source.rule, outcome.data), outcome.data, now)
  }

  /** What one `os.OpenFile` and `Read` yield for a file with the given contents, or a missing file. */
  function ReadFile(contents: Option<string>): (r: ReadOutcome)
    ensures FitsBuffer(r, ReadBufferSize)
  {
    match contents
    case None => Unreachable
    case Some(text) =>
      if text == [] then Read([], EndOfFile)
      else if |text| <= ReadBufferSize then Read(text, NoError)
      else Read(text[..ReadBufferSize], NoError)
  }

  /** A missing or empty file makes a file monitor unsafe, whatever its rule. */
  lemma MissingOrEmptyFileIsUnsafe(path: string, rule: SafetyMatchingRule, st: MonitorState,
                                   contents: Option<string>, now: Time)
    requires contents == None || contents == Some([])
    ensures var r := Refreshed(FileSource(path, rule), st, ReadFile(contents), now);
      !r.safe && r.lastValue == "" && r.lastRefreshTime == st.lastRefreshTime
  {
  }

  /** A non-empty file is judged on its first 1024 bytes (characters of the byte string). */
  lemma FileContentIsJudged(path: string, rule: SafetyMatchingRule, st: MonitorState, text: string, now: Time)
    requires text != []
    ensures var r := Refreshed(FileSource(path, rule), st, ReadFile(Some(text)), now);
      var shown := if |text| <= ReadBufferSize then text else text[..ReadBufferSize];
      r == MonitorState(RuleIsSafe(rule, shown), shown, now)
  {
  }

  /** An HTTP body that ends at once is still judged: the empty text is matched against the rule. */
  lemma EmptyHttpBodyIsJudged(url: string, rule: SafetyMatchingRule, st: MonitorState, now: Time)
    ensures Refreshed(HttpSource(url, rule), st, Read([], EndOfFile), now) ==
      MonitorState(RuleIsSafe(rule, []), [], now)
  {
  }

  /** A failed fetch never leaves a driver safe. */
  lemma FailureIsUnsafe(source: MonitorSource, st: MonitorState, outcome: ReadOutcome, now: Time)
    requires !source.DummySource? && !Accepted(source, outcome)
    ensures !Refreshed(source, st, outcome, now).safe
  {
  }

  /** A safety monitor driver. */
  class SafetyMonitor {
    const id: string
    const name: string
    const description: string
    const source: MonitorSource
    var safe: bool
    var lastValue: string
    var lastRefreshTime: Time

    function State(): MonitorState
      reads this
    {
      MonitorState(safe, lastValue, lastRefreshTime)
    }

    /** `NewSafetyMonitorDummy`: a fixed verdict. */
    constructor Dummy(id: string, name: string, description: string, isSafe: bool)
      ensures this.id == id && this.name == name && this.description == description
      ensures source == DummySource && State() == MonitorState(isSafe, "", ZeroTime)
    {
      this.id := id;
      this.name := name;
      this.description := description;
      source := DummySource;
      safe := isSafe;
      lastValue := "";
      lastRefreshTime := ZeroTime;
    }

    /** A file or HTTP driver before its first refresh: unsafe, nothing read, never refreshed. */
    constructor Polled(id: string, name: string, description: string, source: MonitorSource)
      requires !source.DummySource?
      ensures this.id == id && this.name == name && this.description == description
      ensures this.source == source && State() == MonitorState(false, "", ZeroTime)
    {
      this.id := id;
      this.name := name;
      this.description := description;
      this.source := source;
      safe := false;
      lastValue := "";
      lastRefreshTime := ZeroTime;
    }

    function IsSafe(): bool
      reads this
    {
      safe
    }

    /** The text of the last accepted fetch; the dummy has none. */
    function GetRawValue(): (r: string)
      reads this
      ensures source.DummySource? ==> r == ""
    {
      if source.DummySource? then "" else lastValue
    }

    /** The time of the last accepted fetch; the dummy reports the zero time. */
    function GetTimeStamp(): (t: Time)
      reads this
      ensures source.DummySource? ==> t == ZeroTime
    {
      if source.DummySource? then ZeroTime else lastRefreshTime
    }

    /** `Refresh`, given the outcome of this poll's fetch and the current time. */
    method Refresh(outcome: ReadOutcome, now: Time)
      requires FitsBuffer(outcome, ReadBufferSize)
      modifies this
      ensures State() == Refreshed(source, old(State()), outcome, now)
    {
      match source {
        case DummySource =>
        case FileSource(_, rule) =>
          if outcome.Unreachable? || outcome.err != NoError {
            safe := false;
            lastValue := "";
            return;
          }
          lastValue := outcome.data;
          safe := RuleIsSafe(rule, outcome.data);
          lastRefreshTime := now;
        case HttpSource(_, rule) =>
          if outcome.Unreachable? {
            safe := false;
            lastValue := "";
            return;
          }
          if outcome.err != NoError && outcome.err != EndOfFile {
            safe := false;
            lastValue := "";
            return;
          }
          lastValue := outcome.data;
          safe := RuleIsSafe(rule, outcome.data);
          lastRefreshTime := now;
      }
    }
  }

  /** A configuration value; a missing key reads as the empty string, as a Go map lookup does. */
  function CfgValue(cfg: map<string, string>, key: string): string
  {
    if key in cfg then cfg[key] else ""
  }

  /** `NewSafetyMonitorDummyFromCfg`: safe exactly when "is_safe" is the string "true". */
  method NewSafetyMonitorDummyFromCfg(id: string, cfg: map<string, string>) returns (m: SafetyMonitor)
    ensures fresh(m) && m.source == DummySource && m.id == id
    ensures m.name == CfgValue(cfg, "name") && m.description == CfgValue(cfg, "description")
    ensures m.IsSafe() <==> "is_safe" in cfg && cfg["is_safe"] == "true"
  {
    var isSafe := CfgValue(cfg, "is_safe") == "true";
    m := new SafetyMonitor.Dummy(id, CfgValue(cfg, "name"), CfgValue(cfg, "description"), isSafe);
  }

  /** `NewSafetyMonitorHttp`: builds the driver and refreshes it once. */
  method NewSafetyMonitorHttp(id: string, name: string, description: string, url: string,
                              rule: SafetyMatchingRule, firstFetch: ReadOutcome, now: Time)
    returns (m: SafetyMonitor)
    requires FitsBuffer(firstFetch, ReadBufferSize)
    ensures fresh(m) && m.source == HttpSource(url, rule)
    ensures m.id == id && m.name == name && m.description == description
    ensures m.State() == Refreshed(m.source, MonitorState(false, "", ZeroTime), firstFetch, now)
  {
    m := new SafetyMonitor.Polled(id, name, description, HttpSource(url, rule));
    m.Refresh(firstFetch, now);
  }

  /** `NewSafetyMonitorFile`: builds the driver and refreshes it once. */
  method NewSafetyMonitorFile(id: string, name: string, description: string, path: string,
                              rule: SafetyMatchingRule, firstRead: ReadOutcome, now: Time)
    returns (m: SafetyMonitor)
    requires FitsBuffer(firstRead, ReadBufferSize)
    ensures fresh(m) && m.source == FileSource(path, rule)
    ensures m.id == id && m.name == name && m.description == description
    ensures m.State() == Refreshed(m.source, MonitorState(false, "", ZeroTime), firstRead, now)
  {
    m := new SafetyMonitor.Polled(id, name, description, FileSource(path, rule));
    m.Refresh(firstRead, now);
  }
}
