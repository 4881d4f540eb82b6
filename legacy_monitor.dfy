/**
 * The safety monitor drivers of the first, single-file version of the gateway. There is
 * no configurable matching rule: content is safe when it starts with "true" (in any
 * letter case) or with the digit "1". The drivers keep only the verdict and, for the
 * file and HTTP drivers, the time of the last successful refresh.
 */
module LegacyMonitor {
  import opened Wrappers
  import opened GoStrings
  import opened Io
  import Monitor

  /** The text starts with the four letters of "true", each in either letter case. */
  predicate StartsWithTrue(content: string)
  {
    |content| >= 4 && LowerChar(content[0]) == 't' && LowerChar(content[1]) == 'r' &&
    LowerChar(content[2]) == 'u' && LowerChar(content[3]) == 'e'
  }

  /** The text starts with the digit one. */
  predicate StartsWithOne(content: string)
  {
    |content| >= 1 && content[0] == '1'
  }

  /** `IsSafeString`: a prefix test on the lower-cased text, not a search through it. */
  function IsSafeString(content: string): (r: bool)
    ensures r <==> StartsWithTrue(content) || StartsWithOne(content)
  {
    var lower := ToLower(content);
    var r := HasPrefix(lower, "true") || HasPrefix(lower, "1");
    assert HasPrefix(lower, "true") <==> StartsWithTrue(content) by {
      if |content| >= 4 {
        assert lower[..4] == [lower[0], lower[1], lower[2], lower[3]];
      }
    }
    assert HasPrefix(lower, "1") <==> StartsWithOne(content) by {
      if |content| >= 1 {
        assert lower[..1] == [lower[0]];
      }
    }
    r
  }

  /** Examples: a leading "TRUE" or "1" is safe ... */
  lemma SafePrefixes()
    ensures IsSafeString("TRUE\n") && IsSafeString("1") && IsSafeString("10")
  {
    assert StartsWithTrue("TRUE\n");
  }

  /** ... while "true" later in the text, "0", nothing, or a cut-off "tru" is unsafe. */
  lemma PrefixNotSubstring()
    ensures !IsSafeString("roof: true") && !IsSafeString("0") && !IsSafeString("") && !IsSafeString("tru")
  {
    TrueLaterIsUnsafe();
    assert !StartsWithTrue("0") && !StartsWithTrue("") && !StartsWithTrue("tru");
    assert !StartsWithOne("0") && !StartsWithOne("") && !StartsWithOne("tru");
  }

  lemma TrueLaterIsUnsafe()
    ensures !IsSafeString("roof: true")
  {
    assert LowerChar("roof: true"[0]) == 'r';
  }

  /** Every text the prefix test accepts is also accepted by the later fallback expression `(?i)true|1`. */
  lemma {:induction false} PrefixImpliesFallback(content: string)
    ensures IsSafeString(content) ==> Monitor.FallbackMatch(content)
  {
    if StartsWithTrue(content) {
      assert content[0..][..4] == content[..4];
      EqualFoldIffLowerEqual(content[..4], "true");
      assert ToLower(content[..4]) == "true" by {
        assert |ToLower(content[..4])| == 4;
        forall i | 0 <= i < 4 ensures ToLower(content[..4])[i] == "true"[i] {
        }
      }
      assert FoldOccursAt(content, "true", 0);
    } else if StartsWithOne(content) {
      assert content[0..][..1] == [content[0]];
      assert OccursAt(content, "1", 0);
    }
  }

  /** ... but not the other way round: "roof: TRUE" is safe for the later rule only. */
  lemma FallbackIsWider()
    ensures Monitor.FallbackMatch("roof: TRUE") && !IsSafeString("roof: TRUE")
  {
    Monitor.FallbackAcceptsTrue();
  }

  /**
   * The drivers judge the whole 1024-byte buffer; the bytes a read leaves untouched are
   * zero and do not change the verdict on the bytes that were read.
   */
  lemma ZeroPaddingKeepsVerdict(data: string, size: nat)
    requires |data| <= size
    ensures IsSafeString(ZeroPadded(data, size)) == IsSafeString(data)
  {
    var buf := ZeroPadded(data, size);
    if |data| >= 4 {
      assert buf[0] == data[0] && buf[1] == data[1] && buf[2] == data[2] && buf[3] == data[3];
    } else if size >= 4 {
      assert buf[|data|] == '\0';
    }
    if |data| >= 1 {
      assert buf[0] == data[0];
    } else if size >= 1 {
      assert buf[0] == '\0';
    }
  }

  /** Where a driver takes its verdict from. */
  datatype LegacySource = DummySource | FileSource(path: string) | HttpSource(url: string)

  /** The mutable part of a driver: the verdict and the time of the last successful refresh. */
  datatype LegacyState = LegacyState(safe: bool, lastRefreshTime: Time)

  /**
   * Whether a fetch delivers bytes that are judged: a file read must succeed outright (an
   * empty file yields io.EOF), an HTTP body read may also end with io.EOF.
   */
  predicate Judged(source: LegacySource, outcome: ReadOutcome)
  {
    match source
    case DummySource => false
    case FileSource(_) => outcome.Read? && outcome.err == NoError
    case HttpSource(_) => outcome.Read? && outcome.err != OtherError
  }

  /**
   * The state after `Refresh`: the dummy never changes, a failed fetch only clears the
   * verdict, and judged content sets the verdict on the zero-padded buffer and the time.
   */
  function LegacyRefreshed(source: LegacySource, st: LegacyState, outcome: ReadOutcome, now: Time): LegacyState
    requires FitsBuffer(outcome, Monitor.ReadBufferSize)
  {
    if source.DummySource? then st
    else if !Judged(source, outcome) then st.(safe := false)
    else LegacyState(IsSafeString(ZeroPadded(outcome.data, Monitor.ReadBufferSize)), now)
  }

  /** A failed fetch leaves the driver unsafe and keeps the time of the last success. */
  lemma FailureKeepsRefreshTime(source: LegacySource, st: LegacyState, outcome: ReadOutcome, now: Time)
    requires FitsBuffer(outcome, Monitor.ReadBufferSize)
    requires !source.DummySource? && !Judged(source, outcome)
    ensures LegacyRefreshed(source, st, outcome, now) == LegacyState(false, st.lastRefreshTime)
  {
  }

  /** Judged content is safe exactly when the bytes read pass the prefix test, and the time moves to now. */
  lemma SuccessJudgesBytesRead(source: LegacySource, st: LegacyState, outcome: ReadOutcome, now: Time)
    requires FitsBuffer(outcome, Monitor.ReadBufferSize)
    requires Judged(source, outcome)
    ensures LegacyRefreshed(source, st, outcome, now).safe == IsSafeString(outcome.data)
    ensures LegacyRefreshed(source, st, outcome, now).lastRefreshTime == now
  {
    ZeroPaddingKeepsVerdict(outcome.data, Monitor.ReadBufferSize);
  }

  /** A missing or empty file makes a file driver unsafe; an empty HTTP body is judged, and is unsafe too. */
  lemma EmptyContentIsUnsafe(path: string, url: string, st: LegacyState, now: Time)
    ensures LegacyRefreshed(FileSource(path), st, Monitor.ReadFile(None), now) == LegacyState(false, st.lastRefreshTime)
    ensures LegacyRefreshed(FileSource(path), st, Monitor.ReadFile(Some([])), now) == LegacyState(false, st.lastRefreshTime)
    ensures LegacyRefreshed(HttpSource(url), st, Read([], EndOfFile), now) == LegacyState(false, now)
  {
    ZeroPaddingKeepsVerdict([], Monitor.ReadBufferSize);
  }

  /** A safety monitor driver of the first version. */
  class LegacySafetyMonitor {
    const id: string
    const name: string
    const description: string
    const source: LegacySource
    var safe: bool
    var lastRefreshTime: Time

    function State(): LegacyState
      reads this
    {
      LegacyState(safe, lastRefreshTime)
    }

    /** `NewSafetyMonitorDummy`: a fixed verdict. */
    constructor Dummy(id: string, name: string, description: string, isSafe: bool)
      ensures this.id == id && this.name == name && this.description == description
      ensures source == DummySource && State() == LegacyState(isSafe, ZeroTime)
    {
      this.id := id;
      this.name := name;
      this.description := description;
      source := DummySource;
      safe := isSafe;
      lastRefreshTime := ZeroTime;
    }

    /** A file or HTTP driver as its struct literal builds it: unsafe, never refreshed. */
    constructor Polled(id: string, name: string, description: string, source: LegacySource)
      requires !source.DummySource?
      ensures this.id == id && this.name == name && this.description == description
      ensures this.source == source && State() == LegacyState(false, ZeroTime)
    {
      this.id := id;
      this.name := name;
      this.description := description;
      this.source := source;
      safe := false;
      lastRefreshTime := ZeroTime;
    }

    function IsSafe(): bool
      reads this
    {
      safe
    }

    /** `Refresh`, given the outcome of this poll's fetch and the current time. */
    method Refresh(outcome: ReadOutcome, now: Time)
      requires FitsBuffer(outcome, Monitor.ReadBufferSize)
      modifies this
      ensures State() == LegacyRefreshed(source, old(State()), outcome, now)
    {
      match source {
        case DummySource =>
        case HttpSource(_) =>
          if outcome.Unreachable? {
            safe := false;
            return;
          }
          if outcome.err != NoError && outcome.err != EndOfFile {
            safe := false;
            return;
          }
          var buf := ZeroPadded(outcome.data, Monitor.ReadBufferSize);
          safe := IsSafeString(buf);
          lastRefreshTime := now;
        case FileSource(_) =>
          if outcome.Unreachable? {
            safe := false;
            return;
          }
          if outcome.err != NoError {
            safe := false;
            return;
          }
          var buf := ZeroPadded(outcome.data, Monitor.ReadBufferSize);
          safe := IsSafeString(buf);
          lastRefreshTime := now;
      }
    }
  }

  /** `NewSafetyMonitorHttp`: builds the driver and refreshes it once. */
  method NewSafetyMonitorHttp(id: string, name: string, description: string, url: string,
                              firstFetch: ReadOutcome, now: Time) returns (m: LegacySafetyMonitor)
    requires FitsBuffer(firstFetch, Monitor.ReadBufferSize)
    ensures fresh(m) && m.source == HttpSource(url)
    ensures m.id == id && m.name == name && m.description == description
    ensures m.State() == LegacyRefreshed(m.source, LegacyState(false, ZeroTime), firstFetch, now)
  {
    m := new LegacySafetyMonitor.Polled(id, name, description, HttpSource(url));
    m.Refresh(firstFetch, now);
  }

  /** `NewSafetyMonitorHttpFromCfg`: name, description and url from the configuration, then one refresh. */
  method NewSafetyMonitorHttpFromCfg(id: string, cfg: map<string, string>, firstFetch: ReadOutcome, now: Time)
    returns (m: LegacySafetyMonitor)
    requires FitsBuffer(firstFetch, Monitor.ReadBufferSize)
    ensures fresh(m) && m.source == HttpSource(Monitor.CfgValue(cfg, "url")) && m.id == id
    ensures m.name == Monitor.CfgValue(cfg, "name") && m.description == Monitor.CfgValue(cfg, "description")
    ensures m.State() == LegacyRefreshed(m.source, LegacyState(false, ZeroTime), firstFetch, now)
  {
    m := NewSafetyMonitorHttp(id, Monitor.CfgValue(cfg, "name"), Monitor.CfgValue(cfg, "description"),
                              Monitor.CfgValue(cfg, "url"), firstFetch, now);
  }

  /** `NewSafetyMonitorFile`: builds the driver and refreshes it once. */
  method NewSafetyMonitorFile(id: string, name: string, description: string, path: string,
                              firstRead: ReadOutcome, now: Time) returns (m: LegacySafetyMonitor)
    requires FitsBuffer(firstRead, Monitor.ReadBufferSize)
    ensures fresh(m) && m.source == FileSource(path)
    ensures m.id == id && m.name == name && m.description == description
    ensures m.State() == LegacyRefreshed(m.source, LegacyState(false, ZeroTime), firstRead, now)
  {
    m := new LegacySafetyMonitor.Polled(id, name, description, FileSource(path));
    m.Refresh(firstRead, now);
  }

  /** `NewSafetyMonitorFileFromCfg`: name, description and path from the configuration, then one refresh. */
  method NewSafetyMonitorFileFromCfg(id: string, cfg: map<string, string>, firstRead: ReadOutcome, now: Time)
    returns (m: LegacySafetyMonitor)
    requires FitsBuffer(firstRead, Monitor.ReadBufferSize)
    ensures fresh(m) && m.source == FileSource(Monitor.CfgValue(cfg, "path")) && m.id == id
    ensures m.name == Monitor.CfgValue(cfg, "name") && m.description == Monitor.CfgValue(cfg, "description")
    ensures m.State() == LegacyRefreshed(m.source, LegacyState(false, ZeroTime), firstRead, now)
  {
    m := NewSafetyMonitorFile(id, Monitor.CfgValue(cfg, "name"), Monitor.CfgValue(cfg, "description"),
                              Monitor.CfgValue(cfg, "path"), firstRead, now);
  }

  /** `NewSafetyMonitorDummyFromCfg`: safe exactly when "is_safe" is the string "true". */
  method NewSafetyMonitorDummyFromCfg(id: string, cfg: map<string, string>) returns (m: LegacySafetyMonitor)
    ensures fresh(m) && m.source == DummySource && m.id == id
    ensures m.name == Monitor.CfgValue(cfg, "name") && m.description == Monitor.CfgValue(cfg, "description")
    ensures m.IsSafe() <==> "is_safe" in cfg && cfg["is_safe"] == "true"
  {
    var isSafe := Monitor.CfgValue(cfg, "is_safe") == "true";
    m := new LegacySafetyMonitor.Dummy(id, Monitor.CfgValue(cfg, "name"), Monitor.CfgValue(cfg, "description"), isSafe);
  }

  /** A file driver on a missing path is unsafe as soon as it is built. */
  lemma MissingFileStartsUnsafe(path: string, now: Time)
    ensures !LegacyRefreshed(FileSource(path), LegacyState(false, ZeroTime), Monitor.ReadFile(None), now).safe
  {
  }
}
