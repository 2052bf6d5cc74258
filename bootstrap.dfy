/**
 * The plugin's main file: the class autoloader, the PHP and WordPress
 * requirement check, the run_dialogpro start-up that builds the service
 * container, and the activation hook around the activator.
 *
 * The autoloader as written drops the dash between "class-dialogpro" and the
 * rest of the class name; `AutoloadAsWritten` keeps that behaviour and
 * `Autoload` is the intended mapping the start-up uses.
 */
module Bootstrap {
  import opened Php
  import opened ServiceContainer
  import opened Activation

  const ClassPrefix: string := "DialogPro"
  const FilePrefix: string := "includes/class-dialogpro"

  const PhpNotice: string := "<div class=\"error\"><p>DialogPro requires PHP version 8.3 or higher.</p></div>"
  const WpNotice: string := "<div class=\"error\"><p>DialogPro requires WordPress version 6.4 or higher.</p></div>"
  const WpDiePrefix: string := "Error activating DialogPro plugin: "

  /** The services run_dialogpro registers, in order. */
  const CoreServices: seq<string> := ["settings", "api", "session"]

  predicate HasPrefix(s: string, prefix: string)
  {
    |prefix| <= |s| && s[..|prefix|] == prefix
  }

  /** The class-derived part of the file name: "DialogPro" removed, '_' as '-', lower case. */
  function ClassStem(cls: string): string
  {
    ToLower(StrReplace(StrReplace(cls, ClassPrefix, ""), "_", "-"))
  }

  /**
   * The autoloader as written: classes without the prefix are ignored;
   * otherwise the stem follows "class-dialogpro" directly.
   */
  function AutoloadAsWritten(pluginPath: string, cls: string): Option<string>
  {
    if !HasPrefix(cls, ClassPrefix) then None
    else Some(pluginPath + FilePrefix + ClassStem(cls) + ".php")
  }

  /** The intended mapping: a dash separates "class-dialogpro" from a non-empty stem. */
  function Autoload(pluginPath: string, cls: string): (path: Option<string>)
    ensures path.None? <==> !HasPrefix(cls, ClassPrefix)
  {
    if !HasPrefix(cls, ClassPrefix) then None
    else
      var stem := ClassStem(cls);
      Some(pluginPath + FilePrefix + (if stem == "" then "" else "-" + stem) + ".php")
  }

  /** The file an autoload request requires: the mapped file, and only when it exists. */
  function Required(path: Option<string>, fileExists: string -> bool): (r: Option<string>)
    ensures r.Some? <==> path.Some? && fileExists(path.value)
    ensures r.Some? ==> r == path
  {
    if path.Some? && fileExists(path.value) then path else None
  }

  /** The stem of "DialogPro" followed by a suffix free of "DialogPro" and '_' is the lower-cased suffix. */
  lemma StemOfSuffix(suffix: string)
    requires !Occurs(suffix, ClassPrefix) && !Occurs(suffix, "_")
    ensures ClassStem(ClassPrefix + suffix) == ToLower(suffix)
  {
    DropLeading(ClassPrefix, suffix);
    StrReplaceAbsent(suffix, "_", "-");
  }

  /** Removing a search string that occurs only at the very start leaves what follows it. */
  lemma DropLeading(needle: string, suffix: string)
    requires needle != [] && !Occurs(suffix, needle)
    ensures StrReplace(needle + suffix, needle, "") == suffix
  {
    assert needle + suffix == [] + needle + suffix;
    StrReplaceFirst([], needle, suffix, "");
    StrReplaceAbsent(suffix, needle, "");
  }

  /**
   * For a prefixed class name without further "DialogPro" or '_', the file is
   * "class-dialogpro" followed by the lower-cased rest of the name: directly
   * as written, after a dash as intended.
   */
  lemma AutoloadOfPrefixedClass(pluginPath: string, suffix: string)
    requires suffix != [] && !Occurs(suffix, ClassPrefix) && !Occurs(suffix, "_")
    ensures AutoloadAsWritten(pluginPath, ClassPrefix + suffix) == Some(pluginPath + FilePrefix + ToLower(suffix) + ".php")
    ensures Autoload(pluginPath, ClassPrefix + suffix) == Some(pluginPath + FilePrefix + "-" + ToLower(suffix) + ".php")
  {
    assert (ClassPrefix + suffix)[..|ClassPrefix|] == ClassPrefix;
    StemOfSuffix(suffix);
    var stem := ToLower(suffix);
    assert stem != "";
    assert pluginPath + FilePrefix + ("-" + stem) + ".php" == pluginPath + FilePrefix + "-" + stem + ".php";
  }

  /** Class names that do not start with "DialogPro" are left to other autoloaders. */
  lemma ForeignClassesIgnored(pluginPath: string, cls: string)
    requires !HasPrefix(cls, ClassPrefix)
    ensures AutoloadAsWritten(pluginPath, cls) == None && Autoload(pluginPath, cls) == None
  {
  }

  /** "Container" has no "DialogPro" and no '_' in it. */
  lemma ContainerSuffixPlain()
    ensures !Occurs("Container", ClassPrefix) && !Occurs("Container", "_")
  {
    var s := "Container";
    assert !OccursAt(s, ClassPrefix, 0) by {
      assert s[0..|ClassPrefix|][0] == 'C';
    }
    forall i | 0 <= i < |s| ensures !OccursAt(s, "_", i) {
      assert s[i..i + 1][0] == s[i];
    }
  }

  /**
   * DialogProContainer maps to includes/class-dialogprocontainer.php as
   * written, while the container's file is includes/class-dialogpro-container.php.
   */
  lemma ContainerPath(pluginPath: string, cls: string)
    requires cls == "DialogProContainer"
    ensures AutoloadAsWritten(pluginPath, cls) == Some(pluginPath + "includes/class-dialogprocontainer.php")
    ensures Autoload(pluginPath, cls) == Some(pluginPath + "includes/class-dialogpro-container.php")
  {
    var suffix := cls[|ClassPrefix|..];
    assert cls == ClassPrefix + suffix;
    assert suffix == "Container";
    ContainerSuffixPlain();
    AutoloadOfPrefixedClass(pluginPath, suffix);
    ContainerLower();
    ContainerFileNames(pluginPath);
  }

  lemma ContainerFileNames(pluginPath: string)
    ensures pluginPath + FilePrefix + "container" + ".php" == pluginPath + "includes/class-dialogprocontainer.php"
    ensures pluginPath + FilePrefix + "-" + "container" + ".php" == pluginPath + "includes/class-dialogpro-container.php"
  {
    assert FilePrefix + "container" + ".php" == "includes/class-dialogprocontainer.php";
    assert FilePrefix + "-" + "container" + ".php" == "includes/class-dialogpro-container.php";
  }

  lemma ContainerLower()
    ensures ToLower("Container") == "container"
  {
    var lower := ToLower("Container");
    assert forall k :: 0 <= k < |lower| ==> lower[k] == "container"[k];
  }

  /** What dialogpro_check_requirements returns, and the admin notices it registers. */
  datatype Check = Check(met: bool, notices: seq<string>)

  /** dialogpro_check_requirements: the PHP version first, then the WordPress version. */
  function CheckRequirements(phpVersion: seq<nat>, wpVersion: seq<nat>): Check
  {
    if VersionCompare(phpVersion, MinPhpVersion) < 0 then Check(false, [PhpNotice])
    else if VersionCompare(wpVersion, MinWpVersion) < 0 then Check(false, [WpNotice])
    else Check(true, [])
  }

  /** The requirements are met exactly when both versions reach their minimums; a failure registers one notice. */
  lemma RequirementsMetIff(phpVersion: seq<nat>, wpVersion: seq<nat>)
    ensures CheckRequirements(phpVersion, wpVersion).met <==>
      VersionCompare(phpVersion, MinPhpVersion) >= 0 && VersionCompare(wpVersion, MinWpVersion) >= 0
    ensures CheckRequirements(phpVersion, wpVersion).met <==> CheckRequirements(phpVersion, wpVersion).notices == []
    ensures !CheckRequirements(phpVersion, wpVersion).met ==> |CheckRequirements(phpVersion, wpVersion).notices| == 1
  {
  }

  /** An old PHP is reported whatever the WordPress version; start-up and activation check in opposite orders. */
  lemma PhpCheckedFirst(phpVersion: seq<nat>, wpVersion: seq<nat>)
    requires VersionCompare(phpVersion, MinPhpVersion) < 0
    ensures CheckRequirements(phpVersion, wpVersion) == Check(false, [PhpNotice])
  {
  }

  /** What run_dialogpro did. */
  datatype Boot = Skipped | ClassNotFound(cls: string) | Running

  /** The autoloader finds the class's file. */
  predicate ClassLoads(loader: string -> Option<string>, fileExists: string -> bool, cls: string)
  {
    Required(loader(cls), fileExists).Some?
  }

  /**
   * run_dialogpro: nothing is built when the requirements fail; otherwise the
   * container class is autoloaded (its absence is an Error, which the catch
   * for Exception does not stop) and the three core services are registered
   * without being created.
   */
  method RunDialogpro(phpVersion: seq<nat>, wpVersion: seq<nat>, loader: string -> Option<string>,
                      fileExists: string -> bool) returns (outcome: Boot, c: Container?)
    ensures !CheckRequirements(phpVersion, wpVersion).met ==> outcome == Skipped && c == null
    ensures CheckRequirements(phpVersion, wpVersion).met && !ClassLoads(loader, fileExists, "DialogProContainer") ==>
      outcome == ClassNotFound("DialogProContainer") && c == null
    ensures CheckRequirements(phpVersion, wpVersion).met && ClassLoads(loader, fileExists, "DialogProContainer") ==>
      && outcome == Running && c != null && fresh(c) && c.Valid()
      && c.GetServices() == CoreServices && c.instances == map[] && c.calls == 0
  {
    c := null;
    if !CheckRequirements(phpVersion, wpVersion).met {
      return Skipped, null;
    }
    if !ClassLoads(loader, fileExists, "DialogProContainer") {
      return ClassNotFound("DialogProContainer"), null;
    }
    c := new Container();
    RegisterCoreServices(c);
    outcome := Running;
  }

  /** The three registrations of run_dialogpro, on a new container. */
  method RegisterCoreServices(c: Container)
    requires c.Valid() && c.factories == map[] && c.order == []
    modifies c
    ensures c.Valid() && c.order == CoreServices
    ensures c.instances == old(c.instances) && c.calls == old(c.calls)
  {
    c.Register("settings", Factory(1, false));
    assert c.factories.Keys == {"settings"};
    c.Register("api", Factory(2, false));
    assert c.factories.Keys == {"settings", "api"};
    c.Register("session", Factory(3, false));
  }

  /**
   * With requirements met and the container's file present under its real
   * name only, the autoloader as written stops start-up and the intended one
   * lets it register the services.
   */
  method StartUpWithBothLoaders(pluginPath: string, fileExists: string -> bool)
    requires fileExists(pluginPath + "includes/class-dialogpro-container.php")
    requires !fileExists(pluginPath + "includes/class-dialogprocontainer.php")
  {
    ContainerPath(pluginPath, "DialogProContainer");
    var asWritten, c1 := RunDialogpro([8, 3], [6, 4], cls => AutoloadAsWritten(pluginPath, cls), fileExists);
    assert asWritten == ClassNotFound("DialogProContainer");
    var intended, c2 := RunDialogpro([8, 3], [6, 4], cls => Autoload(pluginPath, cls), fileExists);
    assert intended == Running && c2 != null && c2.GetServices() == CoreServices;
  }

  /**
   * The activation hook: runs activate; when it throws, the message is logged
   * a second time and WordPress dies with it.
   */
  method ActivationHook(site: Site, wpVersion: seq<nat>, phpVersion: seq<nat>, now: int, escHtml: string -> string)
    returns (died: Option<string>)
    modifies site
    ensures var (r, st) := site.ActivateStep(old(site.State()), wpVersion, phpVersion, now);
      && (r == Done ==> died == None && site.State() == st)
      && (r.Failed? ==>
            died == Some(WpDiePrefix + escHtml(r.msg))
            && site.State() == st.(errorLog := st.errorLog + [ActivationErrorPrefix + r.msg]))
  {
    var r := site.Activate(wpVersion, phpVersion, now);
    if r.Failed? {
      site.errorLog := site.errorLog + [ActivationErrorPrefix + r.msg];
      died := Some(WpDiePrefix + escHtml(r.msg));
    } else {
      died := None;
    }
  }
}
