/** The log viewer `LogDrawer` (src/presentation/components/common/LogDrawer.tsx):
    the level filter over the logger's entries, the per-level tab counts,
    the rules that disable its buttons, the empty-state text and the
    level-to-style switches. */
module LogDrawerModel {

  /** A logger entry as the drawer reads it. The logger's own type is not
      part of this model: `id` serves only as the React key, so it is an
      opaque number here, and `data` only feeds the copied text and the
      JSON block, which are left out. */
  datatype LogEntry = LogEntry(id: nat, timestamp: nat, level: string, message: string)

  /** `"all" | "info" | "warn" | "error" | "debug"`, the filter tabs. */
  datatype Filter = All | Info | Warn | Error | Debug

  /** The string each filter value stands for. */
  function FilterName(filter: Filter): string
  {
    match filter
    case All => "all"
    case Info => "info"
    case Warn => "warn"
    case Error => "error"
    case Debug => "debug"
  }

  /** The predicate handed to `logs.filter`: `filter === "all" || log.level === filter`. */
  predicate Shown(entry: LogEntry, filter: Filter)
  {
    filter == All || entry.level == FilterName(filter)
  }

  /** `filteredLogs`. */
  function FilteredLogs(logs: seq<LogEntry>, filter: Filter): (r: seq<LogEntry>)
    ensures |r| <= |logs|
  {
    if logs == [] then []
    else (if Shown(logs[0], filter) then [logs[0]] else []) + FilteredLogs(logs[1..], filter)
  }

  /** With the "all" tab selected every entry is shown, in order. */
  lemma {:induction false} FilterAllKeepsEverything(logs: seq<LogEntry>)
    ensures FilteredLogs(logs, All) == logs
  {
    if logs != [] {
      FilterAllKeepsEverything(logs[1..]);
      assert logs == [logs[0]] + logs[1..];
    }
  }

  /** Filtering keeps order: the entries shown for a log made of two parts
      are the entries shown for the first part followed by those shown for
      the second. */
  lemma {:induction false} FilteredLogsAppend(a: seq<LogEntry>, b: seq<LogEntry>, filter: Filter)
    ensures FilteredLogs(a + b, filter) == FilteredLogs(a, filter) + FilteredLogs(b, filter)
  {
    if a == [] {
      calc {
        FilteredLogs(a + b, filter);
        { assert a + b == b; }
        FilteredLogs(b, filter);
        { assert FilteredLogs(a, filter) == []; }
        FilteredLogs(a, filter) + FilteredLogs(b, filter);
      }
    } else {
      var head := if Shown(a[0], filter) then [a[0]] else [];
      calc {
        FilteredLogs(a + b, filter);
        { assert [a[0]] + (a[1..] + b) == a + b; }
        FilteredLogs([a[0]] + (a[1..] + b), filter);
        { FilteredLogsCons(a[0], a[1..] + b, filter); }
        head + FilteredLogs(a[1..] + b, filter);
        { FilteredLogsAppend(a[1..], b, filter); }
        head + (FilteredLogs(a[1..], filter) + FilteredLogs(b, filter));
        (head + FilteredLogs(a[1..], filter)) + FilteredLogs(b, filter);
        { FilteredLogsCons(a[0], a[1..], filter); assert [a[0]] + a[1..] == a; }
        FilteredLogs(a, filter) + FilteredLogs(b, filter);
      }
    }
  }

  /** One step of `FilteredLogs`: the first entry is kept when it is shown. */
  lemma FilteredLogsCons(e: LogEntry, rest: seq<LogEntry>, filter: Filter)
    ensures FilteredLogs([e] + rest, filter) == (if Shown(e, filter) then [e] else []) + FilteredLogs(rest, filter)
  {
    assert ([e] + rest)[0] == e;
    assert ([e] + rest)[1..] == rest;
  }

  /** An entry is shown exactly when it is in the log and passes the filter. */
  lemma {:induction false} FilteredLogsMembers(logs: seq<LogEntry>, filter: Filter, e: LogEntry)
    ensures e in FilteredLogs(logs, filter) <==> e in logs && Shown(e, filter)
  {
    if logs != [] {
      FilteredLogsMembers(logs[1..], filter, e);
      assert logs == [logs[0]] + logs[1..];
    }
  }

  /** `logs.filter((l) => l.level === level).length`, the count on a level tab. */
  function CountLevel(logs: seq<LogEntry>, level: string): (n: nat)
    ensures n <= |logs|
  {
    if logs == [] then 0
    else (if logs[0].level == level then 1 else 0) + CountLevel(logs[1..], level)
  }

  /** The number in parentheses on a tab: every entry on "all", the entries
      of that level on the others. */
  function TabCount(logs: seq<LogEntry>, tab: Filter): (n: nat)
    ensures n <= |logs|
    ensures tab == All ==> n == |logs|
  {
    if tab == All then |logs| else CountLevel(logs, FilterName(tab))
  }

  /** `${filteredLogs.length} log entries`: the subtitle counts what is shown. */
  function SubtitleCount(logs: seq<LogEntry>, filter: Filter): nat
  {
    |FilteredLogs(logs, filter)|
  }

  /** The subtitle always agrees with the count on the selected tab. */
  lemma {:induction false} SubtitleMatchesTab(logs: seq<LogEntry>, filter: Filter)
    ensures SubtitleCount(logs, filter) == TabCount(logs, filter)
  {
    if filter == All {
      FilterAllKeepsEverything(logs);
    } else {
      LevelFilterCount(logs, filter);
    }
  }

  /** For a level tab, the entries shown are as many as the entries of that level. */
  lemma {:induction false} LevelFilterCount(logs: seq<LogEntry>, filter: Filter)
    requires filter != All
    ensures |FilteredLogs(logs, filter)| == CountLevel(logs, FilterName(filter))
  {
    if logs != [] {
      LevelFilterCount(logs[1..], filter);
    }
  }

  /** The four level tabs never count more entries than the "all" tab, and
      they add up to it exactly when every entry has one of the four levels. */
  lemma {:induction false} LevelTabsAddUp(logs: seq<LogEntry>)
    ensures TabCount(logs, Info) + TabCount(logs, Warn) + TabCount(logs, Error) + TabCount(logs, Debug)
      <= TabCount(logs, All)
    ensures (forall k :: 0 <= k < |logs| ==> logs[k].level in {"info", "warn", "error", "debug"}) ==>
      TabCount(logs, Info) + TabCount(logs, Warn) + TabCount(logs, Error) + TabCount(logs, Debug)
      == TabCount(logs, All)
  {
    if logs != [] {
      LevelTabsAddUp(logs[1..]);
      if forall k :: 0 <= k < |logs| ==> logs[k].level in {"info", "warn", "error", "debug"} {
        assert logs[0].level in {"info", "warn", "error", "debug"};
        forall k | 0 <= k < |logs[1..]|
          ensures logs[1..][k].level in {"info", "warn", "error", "debug"}
        {
          assert logs[1..][k] == logs[k + 1];
        }
      }
    }
  }

  /** `disabled={filteredLogs.length === 0}` on Copy. */
  predicate CopyDisabled(logs: seq<LogEntry>, filter: Filter)
    ensures |logs| == 0 ==> CopyDisabled(logs, filter)
    ensures filter == All ==> (CopyDisabled(logs, filter) <==> |logs| == 0)
  {
    FilterAllKeepsEverything(logs);
    |FilteredLogs(logs, filter)| == 0
  }

  /** `disabled={logs.length === 0}` on Clear. */
  predicate ClearDisabled(logs: seq<LogEntry>)
    ensures ClearDisabled(logs) <==> FilteredLogs(logs, All) == []
  {
    FilterAllKeepsEverything(logs);
    |logs| == 0
  }

  /** Copy is disabled exactly when no entry passes the filter, so whenever
      Clear is disabled; on the "all" tab the two rules coincide. */
  lemma CopyDisabledRule(logs: seq<LogEntry>, filter: Filter)
    ensures CopyDisabled(logs, filter) <==> forall e :: e in logs ==> !Shown(e, filter)
    ensures ClearDisabled(logs) ==> CopyDisabled(logs, filter)
    ensures CopyDisabled(logs, All) <==> ClearDisabled(logs)
  {
    FilterAllKeepsEverything(logs);
    if !CopyDisabled(logs, filter) {
      var e := FilteredLogs(logs, filter)[0];
      FilteredLogsMembers(logs, filter, e);
    } else {
      forall e | e in logs ensures !Shown(e, filter) {
        FilteredLogsMembers(logs, filter, e);
      }
    }
  }

  /** The second line of the empty state. */
  function EmptyStateText(filter: Filter): (r: string)
    ensures |r| > 3 && r[..3] == "No "
    ensures r[3] == if filter == All then 'l' else FilterName(filter)[0]
  {
    if filter == All then "No logs available"
    else
      var name := FilterName(filter);
      assert ("No " + name + " logs found")[3] == name[0];
      "No " + name + " logs found"
  }

  /** Different tabs have different empty-state texts, so the text tells
      which tab is selected. */
  lemma EmptyStateTextIdentifiesTab(f: Filter, g: Filter)
    ensures EmptyStateText(f) == EmptyStateText(g) <==> f == g
  {
  }

  /** The colours of the level styles (`text-red-600 …`, `text-yellow-600 …`,
      `text-purple-600 …`, `text-blue-600 …`). */
  datatype Tone = Red | Yellow | Purple | Blue

  /** The icon shapes `getLogIcon` draws. */
  datatype Glyph = AlertCircle | Bug | InfoCircle

  /** The icon of a level: its shape and its colour. */
  datatype Icon = Icon(glyph: Glyph, tone: Tone)

  /** `getLogIcon`. */
  function LogIcon(level: string): (icon: Icon)
    ensures icon.glyph == AlertCircle <==> level == "error" || level == "warn"
    ensures icon.glyph == Bug <==> level == "debug"
    ensures icon == Icon(InfoCircle, Blue) <==> level != "error" && level != "warn" && level != "debug"
  {
    if level == "error" then Icon(AlertCircle, Red)
    else if level == "warn" then Icon(AlertCircle, Yellow)
    else if level == "debug" then Icon(Bug, Purple)
    else Icon(InfoCircle, Blue)
  }

  /** `getLogColor`, by the colour of the class string it returns. */
  function LogColor(level: string): (tone: Tone)
    ensures tone == Red <==> level == "error"
    ensures tone == Yellow <==> level == "warn"
    ensures tone == Purple <==> level == "debug"
  {
    if level == "error" then Red
    else if level == "warn" then Yellow
    else if level == "debug" then Purple
    else Blue
  }

  /** The two switches agree: an entry card has the colour of its icon. */
  lemma LogStyleAgrees(level: string)
    ensures LogColor(level) == LogIcon(level).tone
  {
  }

  /** "error", "warn" and "debug" each get an icon of their own; every other
      level, "info" and unknown ones alike, gets the blue Info icon. */
  lemma LogIconVariants(level: string)
    ensures level == "error" || level == "warn" || level == "debug" <==> LogIcon(level) != Icon(InfoCircle, Blue)
    ensures LogIcon("error") != LogIcon("warn") && LogIcon("warn") != LogIcon("debug") && LogIcon("error") != LogIcon("debug")
  {
  }

  /** The same split for the card colour: three colours of their own, and
      the colour of "info" for every other level. */
  lemma LogColorVariants(level: string)
    ensures level == "error" || level == "warn" || level == "debug" <==> LogColor(level) != LogColor("info")
    ensures LogColor("error") != LogColor("warn") && LogColor("warn") != LogColor("debug")
      && LogColor("error") != LogColor("debug")
  {
  }

  /** The drawer's own state: the entries it holds and the selected tab. */
  class LogDrawer {
    /** `const [logs, setLogs]` */
    var logs: seq<LogEntry>
    /** `const [filter, setFilter]` */
    var filter: Filter

    /** Mounted with no entries on the "all" tab. */
    constructor ()
      ensures logs == [] && filter == All
    {
      logs := [];
      filter := All;
    }

    /** `setLogs` from the logger's load or subscription. */
    method ReceiveLogs(newLogs: seq<LogEntry>)
      modifies this`logs
      ensures logs == newLogs
    {
      logs := newLogs;
    }

    /** A tab's `onClick`: select its filter; the entries stay. */
    method SelectFilter(tab: Filter)
      modifies this`filter
      ensures filter == tab
    {
      filter := tab;
    }

    /** `handleClearLogs`: the drawer holds no entries afterwards, so both
        Copy and Clear become disabled; the tab stays selected. */
    method HandleClearLogs()
      modifies this`logs
      ensures logs == []
      ensures ClearDisabled(logs) && CopyDisabled(logs, filter)
    {
      logs := [];
    }
  }
}
