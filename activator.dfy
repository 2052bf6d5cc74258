/**
 * DialogProActivator: plugin activation and deactivation. Activation checks
 * the WordPress version and then the PHP version, and only when both pass
 * creates the history table, adds the default options that are not stored
 * yet, creates the log and cache directories, schedules the daily cleanup
 * once and flushes the rewrite rules. Deactivation unschedules the cleanup,
 * empties the cache directory and flushes the rewrite rules.
 *
 * The WordPress installation these static methods act on is the `Site`
 * object: its option store, tables, directories, scheduled events, cache
 * files, error log and the number of rewrite-rule flushes.
 */
module Activation {
  import opened Php

  const MinWpVersion: seq<nat> := [6, 4]
  const MinPhpVersion: seq<nat> := [8, 3]

  const WpVersionError: string := "WordPress 6.4 or higher is required"
  const PhpVersionError: string := "PHP 8.3 or higher is required"
  const ActivationErrorPrefix: string := "DialogPro Activation Error: "

  const CleanupHook: string := "dialogpro_daily_cleanup"
  const CleanupRecurrence: string := "daily"
  const HistoryTable: string := "dialogpro_history"

  /** The columns of the history table, in the order the CREATE TABLE statement lists them. */
  const HistoryColumns: seq<string> := ["id", "session_id", "message_type", "message", "timestamp", "token_count"]

  /**
   * The options set_default_options adds, each stored under "dialogpro_" and
   * its key, in the order the array lists them.
   */
  const DefaultOptions: seq<(string, Value)> := [
    ("dialogpro_api_endpoint", Str("")),
    ("dialogpro_api_token", Str("")),
    ("dialogpro_chat_position", Str("bottom-right")),
    ("dialogpro_chat_width", Str("20")),
    ("dialogpro_primary_color", Str("#007bff")),
    ("dialogpro_font_family", Str("Arial, sans-serif")),
    ("dialogpro_font_size", Str("14")),
    ("dialogpro_token_limit", Str("8500")),
    ("dialogpro_logging_level", Str("error")),
    ("dialogpro_welcome_message", Str("Hello! How can I help you today?")),
    ("dialogpro_enabled_post_types", List(["post", "page"]))
  ]

  /**
   * The options after the `pairs` have been walked in order, each added only
   * when its name is not stored yet (add_option never overwrites).
   */
  function AddMissing(options: map<string, Value>, pairs: seq<(string, Value)>): map<string, Value>
  {
    if pairs == [] then options
    else
      var before := AddMissing(options, pairs[..|pairs| - 1]);
      var (name, value) := pairs[|pairs| - 1];
      if name in before then before else before[name := value]
  }

  /** The option store after set_default_options. */
  function WithDefaults(options: map<string, Value>): map<string, Value>
  {
    AddMissing(options, DefaultOptions)
  }

  /** Stored options keep their values, and every other name comes from the list. */
  lemma {:induction false} AddMissingKeeps(options: map<string, Value>, pairs: seq<(string, Value)>)
    ensures forall k :: k in options ==> k in AddMissing(options, pairs) && AddMissing(options, pairs)[k] == options[k]
    ensures forall k :: k in AddMissing(options, pairs) ==> k in options || exists i :: 0 <= i < |pairs| && pairs[i].0 == k
  {
    if pairs != [] {
      var init := pairs[..|pairs| - 1];
      AddMissingKeeps(options, init);
      assert forall i :: 0 <= i < |init| ==> pairs[i] == init[i];
      assert pairs[|pairs| - 1] == pairs[|pairs| - 1];
    }
  }

  /** Every name in the list is stored afterwards. */
  lemma {:induction false} AddMissingAdds(options: map<string, Value>, pairs: seq<(string, Value)>)
    ensures forall i :: 0 <= i < |pairs| ==> pairs[i].0 in AddMissing(options, pairs)
  {
    if pairs != [] {
      var init := pairs[..|pairs| - 1];
      AddMissingAdds(options, init);
      forall i | 0 <= i < |init| ensures pairs[i].0 in AddMissing(options, pairs) {
        assert pairs[i] == init[i];
      }
    }
  }

  /** A name that is not stored gets the value of its first entry in the list. */
  lemma {:induction false} AddMissingFirstWins(options: map<string, Value>, pairs: seq<(string, Value)>, i: nat)
    requires i < |pairs| && pairs[i].0 !in options
    requires forall j :: 0 <= j < i ==> pairs[j].0 != pairs[i].0
    ensures pairs[i].0 in AddMissing(options, pairs) && AddMissing(options, pairs)[pairs[i].0] == pairs[i].1
  {
    var init := pairs[..|pairs| - 1];
    if i == |pairs| - 1 {
      AddMissingKeeps(options, init);
      assert forall j :: 0 <= j < |init| ==> init[j] == pairs[j];
    } else {
      assert init[i] == pairs[i];
      forall j | 0 <= j < i ensures init[j].0 != init[i].0 {
        assert init[j] == pairs[j];
      }
      AddMissingFirstWins(options, init, i);
      AddMissingAdds(options, init);
    }
  }

  /** When every listed name is already stored, nothing changes. */
  lemma {:induction false} AddMissingAllStored(options: map<string, Value>, pairs: seq<(string, Value)>)
    requires forall i :: 0 <= i < |pairs| ==> pairs[i].0 in options
    ensures AddMissing(options, pairs) == options
  {
    if pairs != [] {
      var init := pairs[..|pairs| - 1];
      forall i | 0 <= i < |init| ensures init[i].0 in options {
        assert init[i] == pairs[i];
      }
      AddMissingAllStored(options, init);
    }
  }

  /** A scheduled event: its first run and its recurrence. */
  datatype Event = Event(timestamp: int, recurrence: string)

  /** schedule_tasks: schedules the daily cleanup at `now` unless it is already scheduled. */
  function Scheduled(events: map<string, Event>, now: int): map<string, Event>
  {
    if CleanupHook in events then events else events[CleanupHook := Event(now, CleanupRecurrence)]
  }

  /** The names the cache glob pattern star-dot-star lists: a dot somewhere, and not at the start. */
  predicate MatchesStarDotStar(name: string)
  {
    |name| > 0 && name[0] != '.' && '.' in name
  }

  /** The state of the WordPress installation the activator changes. */
  datatype SiteState = SiteState(
    options: map<string, Value>,
    tables: map<string, seq<string>>,
    dirs: set<string>,
    events: map<string, Event>,
    cacheFiles: set<string>,
    errorLog: seq<string>,
    flushes: nat)

  /** The outcome of activate: it completes, or it rethrows the version error after logging it. */
  datatype Outcome = Done | Failed(msg: string)

  class Site {
    /** WP_CONTENT_DIR. */
    const contentDir: string
    /** $wpdb->prefix. */
    const tablePrefix: string

    /** The WordPress option store; a missing key is what get_option reports as false. */
    var options: map<string, Value>
    /** Database tables by name, with their columns. */
    var tables: map<string, seq<string>>
    var dirs: set<string>
    /** Scheduled events by hook. */
    var events: map<string, Event>
    /** The file names in the plugin's cache directory. */
    var cacheFiles: set<string>
    var errorLog: seq<string>
    /** How many times the rewrite rules have been flushed. */
    var flushes: nat

    constructor (contentDir: string, tablePrefix: string, st: SiteState)
      ensures this.contentDir == contentDir && this.tablePrefix == tablePrefix
      ensures State() == st
    {
      this.contentDir := contentDir;
      this.tablePrefix := tablePrefix;
      options := st.options;
      tables := st.tables;
      dirs := st.dirs;
      events := st.events;
      cacheFiles := st.cacheFiles;
      errorLog := st.errorLog;
      flushes := st.flushes;
    }

    function State(): SiteState
      reads this
    {
      SiteState(options, tables, dirs, events, cacheFiles, errorLog, flushes)
    }

    function LogDir(): string { contentDir + "/logs" }
    function CacheDir(): string { contentDir + "/cache/dialogpro" }

    /** create_tables: CREATE TABLE IF NOT EXISTS leaves an existing history table as it is. */
    function WithHistoryTable(tables: map<string, seq<string>>): map<string, seq<string>>
    {
      var name := tablePrefix + HistoryTable;
      if name in tables then tables else tables[name := HistoryColumns]
    }

    /**
     * activate, with the two versions already read: the WordPress check first,
     * then the PHP check; a failure is logged and rethrown before anything
     * else happens.
     */
    function ActivateStep(st: SiteState, wpVersion: seq<nat>, phpVersion: seq<nat>, now: int): (Outcome, SiteState)
    {
      if VersionCompare(wpVersion, MinWpVersion) < 0 then
        (Failed(WpVersionError), st.(errorLog := st.errorLog + [ActivationErrorPrefix + WpVersionError]))
      else if VersionCompare(phpVersion, MinPhpVersion) < 0 then
        (Failed(PhpVersionError), st.(errorLog := st.errorLog + [ActivationErrorPrefix + PhpVersionError]))
      else
        (Done, st.(
          tables := WithHistoryTable(st.tables),
          options := WithDefaults(st.options),
          dirs := st.dirs + {LogDir(), CacheDir()},
          events := Scheduled(st.events, now),
          flushes := st.flushes + 1))
    }

    /** deactivate: unschedule the cleanup, clear the cache directory if it exists, flush. */
    function DeactivateStep(st: SiteState): SiteState
    {
      var files := if CacheDir() in st.dirs then set f | f in st.cacheFiles && !MatchesStarDotStar(f) else st.cacheFiles;
      st.(events := st.events - {CleanupHook}, cacheFiles := files, flushes := st.flushes + 1)
    }

    /** set_default_options: add_option for each default whose get_option is false. */
    method SetDefaultOptions()
      modifies this
      ensures options == WithDefaults(old(options))
      ensures tables == old(tables) && dirs == old(dirs) && events == old(events)
      ensures cacheFiles == old(cacheFiles) && errorLog == old(errorLog) && flushes == old(flushes)
    {
      var stored := options;
      for i := 0 to |DefaultOptions|
        invariant stored == AddMissing(options, DefaultOptions[..i])
      {
        var (name, value) := DefaultOptions[i];
        assert DefaultOptions[..i + 1][..i] == DefaultOptions[..i];
        if name !in stored {
          stored := stored[name := value];
        }
      }
      assert DefaultOptions[..|DefaultOptions|] == DefaultOptions;
      options := stored;
    }

    method CreateTables()
      modifies this
      ensures tables == WithHistoryTable(old(tables))
      ensures options == old(options) && dirs == old(dirs) && events == old(events)
      ensures cacheFiles == old(cacheFiles) && errorLog == old(errorLog) && flushes == old(flushes)
    {
      var name := tablePrefix + HistoryTable;
      if name !in tables {
        tables := tables[name := HistoryColumns];
      }
    }

    /** create_directories: makes each of the two directories that does not exist. */
    method CreateDirectories()
      modifies this
      ensures dirs == old(dirs) + {LogDir(), CacheDir()}
      ensures options == old(options) && tables == old(tables) && events == old(events)
      ensures cacheFiles == old(cacheFiles) && errorLog == old(errorLog) && flushes == old(flushes)
    {
      var wanted := [LogDir(), CacheDir()];
      var existing := dirs;
      for i := 0 to |wanted|
        invariant existing == dirs + set j | 0 <= j < i :: wanted[j]
      {
        if wanted[i] !in existing {
          existing := existing + {wanted[i]};
        }
      }
      assert (set j | 0 <= j < 2 :: wanted[j]) == {LogDir(), CacheDir()} by {
        assert wanted[0] == LogDir() && wanted[1] == CacheDir();
      }
      dirs := existing;
    }

    method ScheduleTasks(now: int)
      modifies this
      ensures events == Scheduled(old(events), now)
      ensures options == old(options) && tables == old(tables) && dirs == old(dirs)
      ensures cacheFiles == old(cacheFiles) && errorLog == old(errorLog) && flushes == old(flushes)
    {
      if CleanupHook !in events {
        events := events[CleanupHook := Event(now, CleanupRecurrence)];
      }
    }

    /** activate($wpVersion, $phpVersion) at time `now`. */
    method Activate(wpVersion: seq<nat>, phpVersion: seq<nat>, now: int) returns (r: Outcome)
      modifies this
      ensures (r, State()) == ActivateStep(old(State()), wpVersion, phpVersion, now)
    {
      if VersionCompare(wpVersion, MinWpVersion) < 0 {
        errorLog := errorLog + [ActivationErrorPrefix + WpVersionError];
        return Failed(WpVersionError);
      }
      if VersionCompare(phpVersion, MinPhpVersion) < 0 {
        errorLog := errorLog + [ActivationErrorPrefix + PhpVersionError];
        return Failed(PhpVersionError);
      }
      CreateTables();
      SetDefaultOptions();
      CreateDirectories();
      ScheduleTasks(now);
      flushes := flushes + 1;
      r := Done;
    }

    method Deactivate()
      modifies this
      ensures State() == DeactivateStep(old(State()))
    {
      events := events - {CleanupHook};
      if CacheDir() in dirs {
        cacheFiles := set f | f in cacheFiles && !MatchesStarDotStar(f);
      }
      flushes := flushes + 1;
    }

    /** A WordPress older than 6.4 fails activation with the WordPress message, whatever the PHP version. */
    lemma WordPressCheckedFirst(st: SiteState, wpVersion: seq<nat>, phpVersion: seq<nat>, now: int)
      requires VersionCompare(wpVersion, MinWpVersion) < 0
      ensures ActivateStep(st, wpVersion, phpVersion, now).0 == Failed(WpVersionError)
    {
    }

    /** A failed activation only logs: no table, option, directory, event or flush is touched. */
    lemma FailedActivationOnlyLogs(st: SiteState, wpVersion: seq<nat>, phpVersion: seq<nat>, now: int)
      requires ActivateStep(st, wpVersion, phpVersion, now).0.Failed?
      ensures var (r, out) := ActivateStep(st, wpVersion, phpVersion, now);
        && out == st.(errorLog := st.errorLog + [ActivationErrorPrefix + r.msg])
        && (r.msg == WpVersionError || r.msg == PhpVersionError)
    {
    }

    /** Activation succeeds exactly when both versions are at least the minimums. */
    lemma ActivationSucceedsIff(st: SiteState, wpVersion: seq<nat>, phpVersion: seq<nat>, now: int)
      ensures ActivateStep(st, wpVersion, phpVersion, now).0 == Done <==>
        VersionCompare(wpVersion, MinWpVersion) >= 0 && VersionCompare(phpVersion, MinPhpVersion) >= 0
    {
    }

    /** WordPress 6.4.2 with PHP 8.3 passes; PHP 8.2.12 does not. */
    lemma VersionExamples(st: SiteState, now: int)
      ensures ActivateStep(st, [6, 4, 2], [8, 3], now).0 == Done
      ensures ActivateStep(st, [6, 4, 2], [8, 2, 12], now).0 == Failed(PhpVersionError)
    {
      assert VersionCompare([6, 4, 2], MinWpVersion) == VersionCompare([4, 2], [4]) == VersionCompare([2], []) == 1;
      assert VersionCompare([8, 3], MinPhpVersion) == VersionCompare([3], [3]) == 0;
      assert VersionCompare([8, 2, 12], MinPhpVersion) == VersionCompare([2, 12], [3]) == -1;
    }

    /** A successful activation leaves the history table, the directories and the cleanup event in place. */
    lemma ActivationEstablishesSetup(st: SiteState, wpVersion: seq<nat>, phpVersion: seq<nat>, now: int)
      requires ActivateStep(st, wpVersion, phpVersion, now).0 == Done
      ensures var out := ActivateStep(st, wpVersion, phpVersion, now).1;
        && tablePrefix + HistoryTable in out.tables
        && LogDir() in out.dirs && CacheDir() in out.dirs
        && CleanupHook in out.events
        && out.flushes == st.flushes + 1 && out.errorLog == st.errorLog
    {
    }

    /** Deactivation leaves no cleanup scheduled and, when the cache directory exists, no file glob would list. */
    lemma DeactivationClears(st: SiteState)
      ensures var out := DeactivateStep(st);
        && CleanupHook !in out.events
        && (CacheDir() in st.dirs ==> forall f :: f in out.cacheFiles <==> f in st.cacheFiles && !MatchesStarDotStar(f))
        && (CacheDir() !in st.dirs ==> out.cacheFiles == st.cacheFiles)
        && out.options == st.options && out.tables == st.tables
    {
    }
  }

  /** Existing options keep their values; only the listed defaults are added. */
  lemma DefaultsKeepStored(options: map<string, Value>)
    ensures forall k :: k in options ==> k in WithDefaults(options) && WithDefaults(options)[k] == options[k]
    ensures forall k :: k in WithDefaults(options) ==> k in options || exists i :: 0 <= i < |DefaultOptions| && DefaultOptions[i].0 == k
  {
    AddMissingKeeps(options, DefaultOptions);
  }

  /** After set_default_options every default is present. */
  lemma DefaultsAllPresent(options: map<string, Value>)
    ensures forall i :: 0 <= i < |DefaultOptions| ==> DefaultOptions[i].0 in WithDefaults(options)
  {
    AddMissingAdds(options, DefaultOptions);
  }

  /** On an empty store the position is bottom-right and the limit "8500". */
  lemma DefaultValuesOnFreshSite()
    ensures "dialogpro_chat_position" in WithDefaults(map[])
      && WithDefaults(map[])["dialogpro_chat_position"] == Str("bottom-right")
    ensures "dialogpro_token_limit" in WithDefaults(map[])
      && WithDefaults(map[])["dialogpro_token_limit"] == Str("8500")
  {
    DistinctNames(2);
    DistinctNames(7);
    AddMissingFirstWins(map[], DefaultOptions, 2);
    AddMissingFirstWins(map[], DefaultOptions, 7);
  }

  /** No default before position i has the same name. */
  lemma DistinctNames(i: nat)
    requires i < |DefaultOptions|
    ensures forall j :: 0 <= j < i ==> DefaultOptions[j].0 != DefaultOptions[i].0
  {
    forall j | 0 <= j < i ensures DefaultOptions[j].0 != DefaultOptions[i].0 {
      var a, b := DefaultOptions[j].0, DefaultOptions[i].0;
      assert a[10] != b[10] || a[11] != b[11] || a[12] != b[12] || a[15] != b[15] || |a| != |b|;
    }
  }

  /** Adding the defaults a second time changes nothing. */
  lemma DefaultsIdempotent(options: map<string, Value>)
    ensures WithDefaults(WithDefaults(options)) == WithDefaults(options)
  {
    AddMissingAdds(options, DefaultOptions);
    AddMissingAllStored(WithDefaults(options), DefaultOptions);
  }

  /** The cleanup is scheduled once: a second run keeps the first run's time. */
  lemma ScheduleOnce(events: map<string, Event>, first: int, second: int)
    ensures CleanupHook in Scheduled(events, first)
    ensures Scheduled(Scheduled(events, first), second) == Scheduled(events, first)
    ensures CleanupHook !in events ==> Scheduled(events, first)[CleanupHook] == Event(first, CleanupRecurrence)
    ensures CleanupHook in events ==> Scheduled(events, first) == events
  {
  }
}
