/**
 * DialogProLogger: filters messages by severity against the configured
 * logging level, formats each entry as "[timestamp] LEVEL: message", and
 * routes it either to PHP's error log or to a log file that is rotated into
 * dated backups once it grows past 5 MB, keeping the five backups that sort
 * last.
 *
 * The filesystem is modelled by the log file's contents and the list of
 * backup file names in the sorted order glob() returns them; the clock and
 * json_encode are parameters.
 */
module Logging {
  import opened Php
  import opened PluginSettings

  /** LOG_LEVELS: the rank of each level name, most severe first. */
  const LogLevels: map<string, int> := map["error" := 1, "warning" := 2, "info" := 3, "debug" := 4]

  const LogFileName: string := "dialogpro-debug.log"

  /** MB_IN_BYTES, and the size the log file must exceed before it is rotated. */
  const MbInBytes: int := 1048576
  const RotateThreshold: int := 5 * MbInBytes

  /** How many dated backups rotation keeps. */
  const KeptBackups: int := 5

  /** The length of a timestamp in the 'Y-m-d H:i:s' format. */
  const TimestampLength: int := 19

  /** A context array as passed to log(); json_encode renders it. */
  type Context = map<string, Value>

  /** `self::LOG_LEVELS[$level]`: the rank, or null (with a warning) for an unknown key. */
  function LevelRank(level: string): (r: Option<int>)
    ensures r.Some? <==> level in LogLevels
    ensures r.Some? ==> 1 <= r.value <= 4
  {
    if level in LogLevels then Some(LogLevels[level]) else None
  }

  /**
   * The rank the constructor stores for a configured level. Only a string
   * that names a level is a key of LOG_LEVELS; anything else indexes nothing.
   */
  function ConfiguredRank(v: Value): (r: Option<int>)
    ensures r.Some? <==> v.Str? && v.s in LogLevels
  {
    if v.Str? then LevelRank(v.s) else None
  }

  /** (bool) of an int-or-null. */
  predicate Truthy(a: Option<int>)
  {
    a.Some? && a.value != 0
  }

  /**
   * PHP's `$a <= $b` on two int-or-null values: two ints compare as numbers;
   * when either side is null, both sides are converted to bool first.
   */
  predicate LooseAtMost(a: Option<int>, b: Option<int>)
  {
    if a.Some? && b.Some? then a.value <= b.value
    else !Truthy(a) || Truthy(b)
  }

  /** The backup names rotation keeps: the last five in listing order. */
  function PruneBackups(names: seq<string>): (kept: seq<string>)
    ensures |kept| <= KeptBackups
  {
    if |names| > KeptBackups then names[|names| - KeptBackups..] else names
  }

  /** The backup names rotation unlinks: `array_slice($backup_files, 0, -5)` when there are more than five. */
  function RemovedBackups(names: seq<string>): seq<string>
  {
    if |names| > KeptBackups then names[..|names| - KeptBackups] else []
  }

  /** Pruning splits the listing: the unlinked names followed by the kept ones, the kept ones being the newest. */
  lemma PruneSplitsListing(names: seq<string>)
    ensures RemovedBackups(names) + PruneBackups(names) == names
    ensures |PruneBackups(names)| == (if |names| < KeptBackups then |names| else KeptBackups)
    ensures forall k :: 0 <= k < |PruneBackups(names)| ==>
      PruneBackups(names)[k] == names[|names| - |PruneBackups(names)| + k]
  {
  }

  /** Pruning a pruned listing removes nothing more. */
  lemma PruneIdempotent(names: seq<string>)
    ensures PruneBackups(PruneBackups(names)) == PruneBackups(names)
    ensures RemovedBackups(PruneBackups(names)) == []
  {
  }

  /** Pruning after a new name is listed: the new name is the newest kept, after the newest old ones. */
  lemma PruneAppend(names: seq<string>, name: string)
    ensures var kept := PruneBackups(names + [name]);
      && |kept| == (if |names| < KeptBackups then |names| + 1 else KeptBackups)
      && kept[|kept| - 1] == name
      && kept[..|kept| - 1] == names[|names| - (|kept| - 1)..]
  {
    var listing := names + [name];
    var kept := PruneBackups(listing);
    if |listing| > KeptBackups {
      assert kept == listing[|listing| - KeptBackups..];
      assert kept[..|kept| - 1] == names[|names| - (KeptBackups - 1)..];
    } else {
      assert kept[..|kept| - 1] == names;
    }
  }

  // ---------------------------------------------------------------------
  // glob()'s listing order
  // ---------------------------------------------------------------------

  /**
   * The order glob() sorts the names it lists in: character by character by
   * code point (the byte order of their UTF-8 forms), a proper prefix first.
   */
  predicate NameBefore(a: string, b: string)
    decreases |a|
  {
    if a == [] then b != []
    else if b == [] then false
    else if a[0] != b[0] then a[0] < b[0]
    else NameBefore(a[1..], b[1..])
  }

  /** No name comes before itself. */
  lemma {:induction false} NameBeforeIrreflexive(a: string)
    ensures !NameBefore(a, a)
    decreases |a|
  {
    if a != [] {
      NameBeforeIrreflexive(a[1..]);
    }
  }

  /** Of two different names exactly one comes first. */
  lemma {:induction false} NameBeforeTotal(a: string, b: string)
    ensures a == b || NameBefore(a, b) || NameBefore(b, a)
    ensures !(NameBefore(a, b) && NameBefore(b, a))
    decreases |a|
  {
    if a != [] && b != [] && a[0] == b[0] {
      NameBeforeTotal(a[1..], b[1..]);
      if a[1..] == b[1..] {
        assert a == [a[0]] + a[1..] && b == [b[0]] + b[1..];
      }
    }
  }

  lemma {:induction false} NameBeforeTransitive(a: string, b: string, c: string)
    requires NameBefore(a, b) && NameBefore(b, c)
    ensures NameBefore(a, c)
    decreases |a|
  {
    if a != [] && a[0] == b[0] && b[0] == c[0] {
      NameBeforeTransitive(a[1..], b[1..], c[1..]);
    }
  }

  /** A listing as glob() returns it: every name before every later one. */
  predicate Listing(names: seq<string>)
  {
    forall i, j :: 0 <= i < j < |names| ==> NameBefore(names[i], names[j])
  }

  /** The listing after `name` is created: the name in its sorted place, or nothing new when it exists. */
  function Insert(names: seq<string>, name: string): (r: seq<string>)
    ensures forall y :: y in r <==> y in names || y == name
    decreases |names|
  {
    if names == [] then [name]
    else if names[0] == name then names
    else if NameBefore(name, names[0]) then [name] + names
    else
      var r := [names[0]] + Insert(names[1..], name);
      assert forall y :: y in names <==> y == names[0] || y in names[1..];
      r
  }

  /** How many names of the listing come before `name`. */
  function Rank(names: seq<string>, name: string): (k: nat)
    ensures k <= |names|
    decreases |names|
  {
    if names == [] || !NameBefore(names[0], name) then 0 else 1 + Rank(names[1..], name)
  }

  /** A new name goes in after the names that sort before it and ahead of the rest. */
  lemma {:induction false} InsertAtRank(names: seq<string>, name: string)
    requires name !in names
    ensures Insert(names, name) == names[..Rank(names, name)] + [name] + names[Rank(names, name)..]
    decreases |names|
  {
    if names != [] {
      NameBeforeTotal(name, names[0]);
      if !NameBefore(name, names[0]) {
        InsertAtRank(names[1..], name);
        assert names == [names[0]] + names[1..];
      }
    }
  }

  /** In a listing, the names before the rank sort before `name` and the others after it. */
  lemma {:induction false} RankSplitsListing(names: seq<string>, name: string)
    requires Listing(names) && name !in names
    ensures forall i :: 0 <= i < Rank(names, name) ==> NameBefore(names[i], name)
    ensures forall i :: Rank(names, name) <= i < |names| ==> NameBefore(name, names[i])
    decreases |names|
  {
    if names != [] {
      var rest := names[1..];
      assert Listing(rest) by {
        assert forall i :: 0 <= i < |rest| ==> rest[i] == names[i + 1];
      }
      NameBeforeTotal(name, names[0]);
      if NameBefore(names[0], name) {
        RankSplitsListing(rest, name);
        assert forall i :: 1 <= i < |names| ==> names[i] == rest[i - 1];
      } else {
        forall i | 0 <= i < |names|
          ensures NameBefore(name, names[i])
        {
          if i > 0 {
            NameBeforeTransitive(name, names[0], names[i]);
          }
        }
      }
    }
  }

  /** When every name of the listing sorts before `name`, all of them count. */
  lemma {:induction false} RankOfEarlier(names: seq<string>, name: string)
    requires forall y :: y in names ==> NameBefore(y, name)
    ensures Rank(names, name) == |names|
    decreases |names|
  {
    if names != [] {
      assert names[0] in names;
      assert forall y :: y in names[1..] ==> y in names;
      RankOfEarlier(names[1..], name);
    }
  }

  /** Creating a name keeps a listing sorted. */
  lemma InsertKeepsListing(names: seq<string>, name: string)
    requires Listing(names) && name !in names
    ensures Listing(Insert(names, name))
  {
    var k := Rank(names, name);
    InsertAtRank(names, name);
    RankSplitsListing(names, name);
    var r := Insert(names, name);
    forall i, j | 0 <= i < j < |r|
      ensures NameBefore(r[i], r[j])
    {
      if j < k || i > k {
      } else if i == k || j == k {
      } else {
        NameBeforeTransitive(r[i], name, r[j]);
      }
    }
  }

  /** Pruning a sorted listing keeps it sorted. */
  lemma PruneKeepsListing(names: seq<string>)
    requires Listing(names)
    ensures Listing(PruneBackups(names))
  {
    var kept := PruneBackups(names);
    var d := |names| - |kept|;
    assert forall i :: 0 <= i < |kept| ==> kept[i] == names[d + i];
  }

  /** Pruning a sorted listing unlinks only names that sort before every kept name. */
  lemma PruneKeepsGreatest(names: seq<string>)
    requires Listing(names)
    ensures forall a, b :: a in RemovedBackups(names) && b in PruneBackups(names) ==> NameBefore(a, b)
  {
    var removed, kept := RemovedBackups(names), PruneBackups(names);
    forall a, b | a in removed && b in kept
      ensures NameBefore(a, b)
    {
      var i :| 0 <= i < |removed| && removed[i] == a;
      var j :| 0 <= j < |kept| && kept[j] == b;
      assert removed[i] == names[i];
      assert kept[j] == names[|removed| + j];
    }
  }

  /**
   * Creating `name` in a sorted listing and pruning: the new name survives
   * iff fewer than five names sort after it.
   */
  lemma PruneInsertKeepsNew(names: seq<string>, name: string)
    requires Listing(names) && name !in names
    ensures name in PruneBackups(Insert(names, name)) <==> |names| - Rank(names, name) < KeptBackups
  {
    var listing, k := Insert(names, name), Rank(names, name);
    InsertAtRank(names, name);
    assert listing[k] == name;
    var kept, removed := PruneBackups(listing), RemovedBackups(listing);
    if |listing| > KeptBackups {
      var d := |listing| - KeptBackups;
      if k >= d {
        assert kept[k - d] == name;
      } else {
        assert removed[k] == name;
        InsertKeepsListing(names, name);
        PruneKeepsGreatest(listing);
        NameBeforeIrreflexive(name);
      }
    }
  }

  /**
   * Creating `name` in a sorted listing and pruning: the listing stays
   * sorted, no name appears from nowhere, the new name survives iff fewer
   * than five names sort after it, and every unlinked name sorts before every
   * kept one.
   */
  lemma PruneInsert(names: seq<string>, name: string)
    requires Listing(names) && name !in names
    ensures var kept := PruneBackups(Insert(names, name));
      && |kept| == (if |names| < KeptBackups then |names| + 1 else KeptBackups)
      && Listing(kept)
      && (forall y :: y in kept ==> y in names || y == name)
      && (name in kept <==> |names| - Rank(names, name) < KeptBackups)
      && (forall y, z :: (y in names || y == name) && y !in kept && z in kept ==> NameBefore(y, z))
  {
    var listing := Insert(names, name);
    var kept, removed := PruneBackups(listing), RemovedBackups(listing);
    assert |listing| == |names| + 1 by {
      InsertAtRank(names, name);
    }
    InsertKeepsListing(names, name);
    PruneKeepsListing(listing);
    PruneInsertKeepsNew(names, name);
    assert forall y :: y in listing ==> y in removed || y in kept by {
      PruneSplitsListing(listing);
    }
    assert forall y :: y in kept ==> y in listing by {
      PruneSplitsListing(listing);
    }
    PruneKeepsGreatest(listing);
  }

  /** The first index of `c` in `s`, if any. */
  function FirstIndexOf(s: string, c: char): (r: Option<nat>)
    ensures r.Some? ==> r.value < |s| && s[r.value] == c && c !in s[..r.value]
    ensures r.None? ==> c !in s
  {
    if s == [] then None
    else if s[0] == c then Some(0)
    else match FirstIndexOf(s[1..], c)
      case None => None
      case Some(k) => assert s[..k + 1] == [s[0]] + s[1..][..k]; Some(k + 1)
  }

  /** The fields a formatted entry is read back into. */
  datatype ParsedEntry = ParsedEntry(timestamp: string, level: string, text: string)

  /**
   * Reads an entry back: a bracketed 19-character timestamp, a space, the
   * level in capitals up to the first ": ", and the rest as text.
   */
  function ParseLogEntry(e: string): Option<ParsedEntry>
  {
    if |e| < TimestampLength + 3 || e[0] != '[' || e[TimestampLength + 1] != ']' || e[TimestampLength + 2] != ' ' then None
    else
      var rest := e[TimestampLength + 3..];
      match FirstIndexOf(rest, ':')
      case None => None
      case Some(k) =>
        if k + 1 < |rest| && rest[k + 1] == ' ' then
          Some(ParsedEntry(e[1..TimestampLength + 1], ToLower(rest[..k]), rest[k + 2..]))
        else None
  }

  /** A level name the entry format can carry unambiguously: no ':' and no capital letters. */
  predicate PlainLevelName(level: string)
  {
    forall k :: 0 <= k < |level| ==> level[k] != ':' && !('A' <= level[k] <= 'Z')
  }

  lemma LogLevelsArePlain(level: string)
    requires level in LogLevels
    ensures PlainLevelName(level)
  {
  }

  /** strtolower undoes strtoupper on a plain level name. */
  lemma LowerOfUpper(level: string)
    requires PlainLevelName(level)
    ensures ToLower(ToUpper(level)) == level
    ensures ':' !in ToUpper(level)
  {
    var u := ToUpper(level);
    assert forall k :: 0 <= k < |level| ==> ToLower(u)[k] == level[k];
    assert forall k :: 0 <= k < |u| ==> u[k] != ':';
  }

  /**
   * The log state the logger changes: the current log file, the names glob()
   * lists next to it (its backups, in glob()'s sorted order) and PHP's error log.
   */
  datatype LogState = LogState(file: string, backups: seq<string>, errorLog: seq<string>)

  class Logger {
    const settings: Settings
    /** The configured rank, or null when logging_level names no level. */
    const logLevel: Option<int>
    /** WP_CONTENT_DIR. */
    const contentDir: string
    /** json_encode($context, JSON_UNESCAPED_UNICODE). */
    const encode: Context -> string

    var file: string
    var backups: seq<string>
    var errorLog: seq<string>

    constructor (settings: Settings, contentDir: string, encode: Context -> string,
                 file: string, backups: seq<string>, errorLog: seq<string>)
      ensures this.settings == settings && this.contentDir == contentDir && this.encode == encode
      ensures logLevel == ConfiguredRank(settings.GetOption("logging_level"))
      ensures this.file == file && this.backups == backups && this.errorLog == errorLog
    {
      this.settings := settings;
      this.contentDir := contentDir;
      this.encode := encode;
      logLevel := ConfiguredRank(settings.GetOption("logging_level"));
      this.file := file;
      this.backups := backups;
      this.errorLog := errorLog;
    }

    function LogFilePath(): string
    {
      contentDir + "/logs/" + LogFileName
    }

    /** should_log: the level's rank is at most the configured rank, compared as PHP does. */
    predicate ShouldLog(level: string)
    {
      LooseAtMost(LevelRank(level), logLevel)
    }

    /** A truthy log_to_file setting sends entries to the file. */
    predicate LogToFile()
    {
      !EmptyValue(settings.GetOption("log_to_file"))
    }

    /** format_log_entry, with `now` the current time in 'Y-m-d H:i:s'. */
    function FormatLogEntry(level: string, message: string, context: Context, now: string): string
    {
      var contextString := if context != map[] then " " + encode(context) else "";
      "[" + now + "] " + ToUpper(level) + ": " + message + contextString
    }

    /** rotate_log_file: the file becomes today's backup, and only the newest five backups survive. */
    function Rotate(st: LogState, today: string): (out: LogState)
      ensures |out.backups| <= KeptBackups
      ensures out.file == "" && out.errorLog == st.errorLog
    {
      var backup := LogFilePath() + "." + today;
      var listing := if backup in st.backups then st.backups else Insert(st.backups, backup);
      LogState("", PruneBackups(listing), st.errorLog)
    }

    /**
     * write_to_file: rotate when the file's size in bytes exceeds 5 MB, then
     * append the entry and a newline.
     */
    function WriteToFile(st: LogState, entry: string, today: string): LogState
    {
      var st' := if ByteLength(st.file) > RotateThreshold then Rotate(st, today) else st;
      st'.(file := st'.file + entry + "\n")
    }

    /** log: the state after one call. */
    function LogStep(st: LogState, level: string, message: string, context: Context, now: string, today: string): LogState
    {
      if !ShouldLog(level) then st
      else
        var entry := FormatLogEntry(level, message, context, now);
        if LogToFile() then WriteToFile(st, entry, today)
        else st.(errorLog := st.errorLog + [entry])
    }

    function State(): LogState
      reads this
    {
      LogState(file, backups, errorLog)
    }

    method RotateLogFile(today: string)
      modifies this
      ensures State() == Rotate(old(State()), today)
    {
      var backup := LogFilePath() + "." + today;
      if backup !in backups {
        backups := Insert(backups, backup);
      }
      file := "";
      backups := PruneBackups(backups);
    }

    method WriteFile(entry: string, today: string)
      modifies this
      ensures State() == WriteToFile(old(State()), entry, today)
    {
      if ByteLength(file) > RotateThreshold {
        RotateLogFile(today);
      }
      file := file + entry + "\n";
    }

    /** log($level, $message, $context). */
    method Log(level: string, message: string, context: Context, now: string, today: string)
      modifies this
      ensures State() == LogStep(old(State()), level, message, context, now, today)
    {
      if !ShouldLog(level) {
        return;
      }
      var entry := FormatLogEntry(level, message, context, now);
      if LogToFile() {
        WriteFile(entry, today);
      } else {
        errorLog := errorLog + [entry];
      }
    }

    method Error(message: string, context: Context, now: string, today: string)
      modifies this
      ensures State() == LogStep(old(State()), "error", message, context, now, today)
    {
      Log("error", message, context, now, today);
    }

    method Warning(message: string, context: Context, now: string, today: string)
      modifies this
      ensures State() == LogStep(old(State()), "warning", message, context, now, today)
    {
      Log("warning", message, context, now, today);
    }

    method Info(message: string, context: Context, now: string, today: string)
      modifies this
      ensures State() == LogStep(old(State()), "info", message, context, now, today)
    {
      Log("info", message, context, now, today);
    }

    method Debug(message: string, context: Context, now: string, today: string)
      modifies this
      ensures State() == LogStep(old(State()), "debug", message, context, now, today)
    {
      Log("debug", message, context, now, today);
    }

    /** With a configured level that names a level, a known level is logged iff it is at least as severe. */
    lemma ShouldLogKnownLevels(configured: string, level: string)
      requires configured in LogLevels && logLevel == Some(LogLevels[configured])
      requires level in LogLevels
      ensures ShouldLog(level) <==> LogLevels[level] <= LogLevels[configured]
      ensures ShouldLog(level) && LogLevels[level] > 1 ==> ShouldLog("error")
    {
    }

    /** Configured "warning": error and warning pass, info and debug do not. */
    lemma WarningConfiguration()
      requires logLevel == ConfiguredRank(Str("warning"))
      ensures ShouldLog("error") && ShouldLog("warning")
      ensures !ShouldLog("info") && !ShouldLog("debug")
    {
    }

    /**
     * The null comparisons: when logging_level names no level every known
     * level is dropped, and a message level outside LOG_LEVELS is always logged.
     */
    lemma NullRankComparisons(level: string)
      ensures logLevel.None? && level in LogLevels ==> !ShouldLog(level)
      ensures level !in LogLevels ==> ShouldLog(level)
    {
    }

    /** A filtered-out level leaves every log untouched. */
    lemma FilteredCallChangesNothing(st: LogState, level: string, message: string, context: Context, now: string, today: string)
      requires !ShouldLog(level)
      ensures LogStep(st, level, message, context, now, today) == st
    {
    }

    /** With log_to_file set, the entry lands at the end of the file and the error log is untouched. */
    lemma FileRouting(st: LogState, level: string, message: string, context: Context, now: string, today: string)
      requires ShouldLog(level) && LogToFile()
      ensures var out := LogStep(st, level, message, context, now, today);
        var line := FormatLogEntry(level, message, context, now) + "\n";
        && out.errorLog == st.errorLog
        && |out.file| >= |line| && out.file[|out.file| - |line|..] == line
    {
      var out := LogStep(st, level, message, context, now, today);
      var line := FormatLogEntry(level, message, context, now) + "\n";
      var st' := if ByteLength(st.file) > RotateThreshold then Rotate(st, today) else st;
      assert out.file == st'.file + line;
      assert out.file[|out.file| - |line|..] == line;
    }

    /** Without log_to_file, the entry goes to the error log and the files are untouched. */
    lemma ErrorLogRouting(st: LogState, level: string, message: string, context: Context, now: string, today: string)
      requires ShouldLog(level) && !LogToFile()
      ensures var out := LogStep(st, level, message, context, now, today);
        && out.file == st.file && out.backups == st.backups
        && out.errorLog == st.errorLog + [FormatLogEntry(level, message, context, now)]
    {
    }

    /**
     * Rotation and writing keep the backups in glob()'s order, whether or not
     * today's backup already exists.
     */
    lemma WriteKeepsListing(st: LogState, entry: string, today: string)
      requires Listing(st.backups)
      ensures Listing(Rotate(st, today).backups)
      ensures Listing(WriteToFile(st, entry, today).backups)
    {
      var backup := LogFilePath() + "." + today;
      var listing := if backup in st.backups then st.backups else Insert(st.backups, backup);
      if backup !in st.backups {
        InsertKeepsListing(st.backups, backup);
      }
      PruneKeepsListing(listing);
    }

    /**
     * A file of at most 5 MB is appended to, growing by the entry's bytes and
     * one for the newline, and no backup is made or removed.
     */
    lemma NoRotationBelowThreshold(st: LogState, entry: string, today: string)
      requires ByteLength(st.file) <= RotateThreshold
      ensures WriteToFile(st, entry, today) == LogState(st.file + entry + "\n", st.backups, st.errorLog)
      ensures ByteLength(WriteToFile(st, entry, today).file) == ByteLength(st.file) + ByteLength(entry) + 1
    {
      ByteLengthAppend(st.file, entry);
      ByteLengthAppend(st.file + entry, "\n");
      assert ByteLength("\n") == 1 by {
        assert "\n"[..0] == [];
      }
    }

    /**
     * A file over 5 MB is replaced by one holding just the entry. Today's
     * backup joins the listing in its sorted place, and the five names that
     * sort last survive: today's backup is among them iff fewer than five
     * older names sort after it, and every unlinked name sorts before every
     * kept one.
     */
    lemma RotationAboveThreshold(st: LogState, entry: string, today: string)
      requires ByteLength(st.file) > RotateThreshold
      requires Listing(st.backups)
      requires LogFilePath() + "." + today !in st.backups
      ensures var out := WriteToFile(st, entry, today);
        var backup := LogFilePath() + "." + today;
        && out.file == entry + "\n"
        && out.errorLog == st.errorLog
        && |out.backups| == (if |st.backups| < KeptBackups then |st.backups| + 1 else KeptBackups)
        && Listing(out.backups)
        && (forall y :: y in out.backups ==> y in st.backups || y == backup)
        && (backup in out.backups <==> |st.backups| - Rank(st.backups, backup) < KeptBackups)
        && (forall y, z :: (y in st.backups || y == backup) && y !in out.backups && z in out.backups ==> NameBefore(y, z))
    {
      var backup := LogFilePath() + "." + today;
      var kept := PruneBackups(Insert(st.backups, backup));
      assert WriteToFile(st, entry, today) == LogState(entry + "\n", kept, st.errorLog) by {
        assert Rotate(st, today) == LogState("", kept, st.errorLog);
        assert Rotate(st, today).file + entry == entry;
      }
      PruneInsert(st.backups, backup);
    }

    /**
     * In the usual case, when every older backup sorts before today's, today's
     * backup is the last name kept and the others are the newest older ones.
     */
    lemma RotationOfLatestBackup(st: LogState, entry: string, today: string)
      requires ByteLength(st.file) > RotateThreshold
      requires forall y :: y in st.backups ==> NameBefore(y, LogFilePath() + "." + today)
      ensures var out := WriteToFile(st, entry, today);
        && |out.backups| == (if |st.backups| < KeptBackups then |st.backups| + 1 else KeptBackups)
        && out.backups[|out.backups| - 1] == LogFilePath() + "." + today
        && out.backups[..|out.backups| - 1] == st.backups[|st.backups| - (|out.backups| - 1)..]
    {
      var backup := LogFilePath() + "." + today;
      NameBeforeIrreflexive(backup);
      assert backup !in st.backups;
      assert Rank(st.backups, backup) == |st.backups| by {
        RankOfEarlier(st.backups, backup);
      }
      InsertAtRank(st.backups, backup);
      assert Insert(st.backups, backup) == st.backups + [backup];
      PruneAppend(st.backups, backup);
    }
  }

  /** Without a stored logging_level the logger is configured at "error", rank 1. */
  lemma DefaultLevelIsError(s: Settings)
    requires "logging_level" !in s.options
    ensures ConfiguredRank(s.GetOption("logging_level")) == Some(1)
  {
  }

  /** The first ':' of `a + ":" + b` is right after `a` when `a` has none. */
  lemma {:induction false} FirstColonAfter(a: string, b: string)
    requires ':' !in a
    ensures FirstIndexOf(a + ":" + b, ':') == Some(|a|)
  {
    if a != [] {
      assert (a + ":" + b)[1..] == a[1..] + ":" + b;
      FirstColonAfter(a[1..], b);
    }
  }

  /** An entry assembled from its parts reads back into them. */
  lemma ParseOfParts(now: string, up: string, text: string)
    requires |now| == TimestampLength && ':' !in up
    ensures ParseLogEntry("[" + now + "] " + up + ": " + text) == Some(ParsedEntry(now, ToLower(up), text))
  {
    var h := "[" + now + "] ";
    var rest := up + ":" + (" " + text);
    var e := "[" + now + "] " + up + ": " + text;
    assert e == h + rest;
    assert |h| == TimestampLength + 3;
    assert e[0] == '[' && e[TimestampLength + 1] == ']' && e[TimestampLength + 2] == ' ';
    assert e[TimestampLength + 3..] == rest;
    assert e[1..TimestampLength + 1] == now;
    FirstColonAfter(up, " " + text);
    assert rest[..|up|] == up;
    assert rest[|up| + 1] == ' ';
    assert rest[|up| + 2..] == text;
  }

  /**
   * An entry reads back into its timestamp, its level and its text, the text
   * being the message followed by a space and the JSON context when there is one.
   */
  lemma FormatParseRoundTrip(lg: Logger, level: string, message: string, context: Context, now: string)
    requires |now| == TimestampLength && PlainLevelName(level)
    ensures ParseLogEntry(lg.FormatLogEntry(level, message, context, now)) ==
      Some(ParsedEntry(now, level, message + (if context != map[] then " " + lg.encode(context) else "")))
  {
    var cs := if context != map[] then " " + lg.encode(context) else "";
    assert lg.FormatLogEntry(level, message, context, now) == "[" + now + "] " + ToUpper(level) + ": " + (message + cs);
    LowerOfUpper(level);
    ParseOfParts(now, ToUpper(level), message + cs);
  }
}
