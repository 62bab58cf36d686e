/**
 * Dashboard configuration: the per-source defaults applied after the
 * dashboard file is parsed (loadDashboardConfig) and the loading of
 * highlight-rule profiles with their fallback to "default" (loadProfile).
 */
module Config {

  /** One configured source: a file path, its profile name and its display name. */
  datatype LogEntry = LogEntry(path: string, profile: string, name: string)

  /** One highlight rule of a profile (`caption` is the rule's optional Label). */
  datatype HighlightRule = HighlightRule(
    keyword: string, color: string, dot: string, useRegex: bool,
    caption: string, blink: bool, alertMsg: string)

  /** What reading configs/<name>.json yields: no file, a file that does not parse, or its rules. */
  datatype ProfileFile = Missing | BadJson | Rules(rules: seq<HighlightRule>)

  /** The profile directory, by profile name; a name that is not a key has no file. */
  type ProfileDisk = map<string, ProfileFile>

  const DefaultProfile := "default"
  const UnnamedPrefix := "Log Sin Nombre #"

  function ReadProfile(disk: ProfileDisk, name: string): ProfileFile
  {
    if name in disk then disk[name] else Missing
  }

  /** The rules a profile file contributes by itself: none when it is missing or does not parse. */
  function FileRules(disk: ProfileDisk, name: string): seq<HighlightRule>
  {
    match ReadProfile(disk, name)
    case Rules(rules) => rules
    case _ => []
  }

  /**
   * The rules a profile name resolves to: its file's rules, none when its
   * file does not parse, and the rules of "default" when its file is
   * missing (none when "default" is missing too).
   */
  function Resolved(disk: ProfileDisk, name: string): seq<HighlightRule>
  {
    if ReadProfile(disk, name).Missing? && name != DefaultProfile
    then FileRules(disk, DefaultProfile)
    else FileRules(disk, name)
  }

  /** The fallback chain of Resolved, case by case. */
  lemma ResolvedCases(disk: ProfileDisk, name: string)
    ensures ReadProfile(disk, name).Rules? ==> Resolved(disk, name) == ReadProfile(disk, name).rules
    ensures ReadProfile(disk, name).BadJson? ==> Resolved(disk, name) == []
    ensures ReadProfile(disk, name).Missing? && name != DefaultProfile ==>
      Resolved(disk, name) == Resolved(disk, DefaultProfile)
    ensures ReadProfile(disk, DefaultProfile).Missing? ==> Resolved(disk, DefaultProfile) == []
  {
  }

  // ---- filepath.Base, for '/'-separated paths ----

  /** The path without its trailing separators. */
  function TrimTrailingSlashes(path: string): (r: string)
    ensures |r| <= |path| && r == path[..|r|]
    ensures r == [] || r[|r| - 1] != '/'
    ensures forall j :: |r| <= j < |path| ==> path[j] == '/'
  {
    if path != [] && path[|path| - 1] == '/' then TrimTrailingSlashes(path[..|path| - 1]) else path
  }

  /** Everything after the last separator. */
  function LastElement(path: string): (r: string)
    ensures |r| <= |path| && r == path[|path| - |r|..]
    ensures '/' !in r
    ensures '/' !in path ==> r == path
    ensures |r| < |path| ==> path[|path| - |r| - 1] == '/'
  {
    if path == [] || path[|path| - 1] == '/' then []
    else LastElement(path[..|path| - 1]) + [path[|path| - 1]]
  }

  /**
   * filepath.Base: the last element of the path, trailing separators
   * ignored; "." for the empty path and "/" for a path of separators only.
   */
  function Base(path: string): (r: string)
    ensures r != []
    ensures path != [] && '/' !in path ==> r == path
    ensures r != "." && r != "/" ==> '/' !in r
  {
    if path == [] then "."
    else
      var trimmed := TrimTrailingSlashes(path);
      if trimmed == [] then "/"
      else LastElement(trimmed)
  }

  // ---- decimal rendering, as fmt's %d does for a natural number ----

  predicate IsDigit(c: char)
  {
    '0' as int <= c as int <= '9' as int
  }

  function DigitChar(d: nat): (c: char)
    requires d < 10
    ensures IsDigit(c) && (c as int) - ('0' as int) == d
  {
    ('0' as int + d) as char
  }

  /** The decimal numeral of `n`, without leading zeros. */
  function NatToString(n: nat): (r: string)
    ensures r != []
    ensures forall j :: 0 <= j < |r| ==> IsDigit(r[j])
    ensures |r| > 1 ==> r[0] != '0'
  {
    if n < 10 then [DigitChar(n)] else NatToString(n / 10) + [DigitChar(n % 10)]
  }

  /** The number a string of digits denotes. */
  function DecimalValue(s: string): nat
    requires forall j :: 0 <= j < |s| ==> IsDigit(s[j])
  {
    if s == [] then 0
    else
      assert IsDigit(s[|s| - 1]);
      DecimalValue(s[..|s| - 1]) * 10 + ((s[|s| - 1] as int) - ('0' as int))
  }

  /** Rendering a number in decimal loses nothing: reading the numeral back gives the number. */
  lemma {:induction false} NatToStringRoundTrip(n: nat)
    ensures DecimalValue(NatToString(n)) == n
  {
    if n >= 10 {
      var s := NatToString(n);
      assert s[..|s| - 1] == NatToString(n / 10);
      NatToStringRoundTrip(n / 10);
    }
  }

  /** The display name given to the source at position `i` that has neither name nor path. */
  function UnnamedLabel(i: nat): (r: string)
    ensures |r| > |UnnamedPrefix| && r[..|UnnamedPrefix|] == UnnamedPrefix
  {
    UnnamedPrefix + NatToString(i + 1)
  }

  /** Two unnamed sources at different positions get different labels. */
  lemma UnnamedLabelsDistinct(i: nat, j: nat)
    requires i != j
    ensures UnnamedLabel(i) != UnnamedLabel(j)
  {
    var a, b := UnnamedLabel(i), UnnamedLabel(j);
    if a == b {
      assert a[|UnnamedPrefix|..] == NatToString(i + 1);
      assert b[|UnnamedPrefix|..] == NatToString(j + 1);
      NatToStringRoundTrip(i + 1);
      NatToStringRoundTrip(j + 1);
      assert false;
    }
  }

  /**
   * The entry at position `i` after the defaults loop: the path is kept; a
   * missing name becomes the base name of the path, or a numbered label
   * when there is no path either; a missing profile becomes "default";
   * a name or profile that is given is kept.
   */
  function WithDefaults(entry: LogEntry, i: nat): (r: LogEntry)
    ensures r.path == entry.path
    ensures r.name != [] && r.profile != []
    ensures entry.name != [] ==> r.name == entry.name
    ensures entry.name == [] && entry.path != [] ==> r.name == Base(entry.path)
    ensures entry.name == [] && entry.path == [] ==> r.name == UnnamedLabel(i)
    ensures entry.profile != [] ==> r.profile == entry.profile
    ensures entry.profile == [] ==> r.profile == DefaultProfile
  {
    var name :=
      if entry.name != [] then entry.name
      else if entry.path != [] then Base(entry.path)
      else UnnamedLabel(i);
    var profile := if entry.profile != [] then entry.profile else DefaultProfile;
    LogEntry(entry.path, profile, name)
  }

  /** The profile names the entries of `logs` refer to. */
  ghost function ProfilesOf(logs: seq<LogEntry>): set<string>
  {
    set e | e in logs :: e.profile
  }

  /** Appending an entry adds exactly its profile to the profiles referred to. */
  lemma ProfilesOfSnoc(logs: seq<LogEntry>, e: LogEntry)
    ensures ProfilesOf(logs + [e]) == ProfilesOf(logs) + {e.profile}
  {
    assert e in logs + [e];
    forall x | x in logs + [e] ensures x == e || x in logs { }
  }

  /** The entries of `logs` after the defaults loop has passed the first `k` of them. */
  ghost function DefaultsUpTo(logs: seq<LogEntry>, k: nat): seq<LogEntry>
  {
    seq(|logs|, j requires 0 <= j < |logs| => if j < k then WithDefaults(logs[j], j) else logs[j])
  }

  /**
   * The configuration state: the configured sources (currentConfig.Logs),
   * the profiles loaded so far (loadedProfiles) and the profile files on
   * disk, which do not change while the program runs.
   */
  class Dashboard {
    var logs: seq<LogEntry>
    var loadedProfiles: map<string, seq<HighlightRule>>
    const disk: ProfileDisk

    /** Every loaded profile holds the rules its name resolves to. */
    ghost predicate Valid()
      reads this
    {
      forall name :: name in loadedProfiles ==> loadedProfiles[name] == Resolved(disk, name)
    }

    /** The state after the dashboard file has been parsed into `logs`: no profile loaded yet. */
    constructor (logs: seq<LogEntry>, disk: ProfileDisk)
      ensures Valid()
      ensures this.logs == logs && this.disk == disk && loadedProfiles == map[]
    {
      this.logs := logs;
      this.disk := disk;
      loadedProfiles := map[];
    }

    /**
     * loadProfile: define loadedProfiles[name] from configs/<name>.json,
     * falling back to "default" (loaded first if it is not loaded yet) when
     * the file is missing. It recurses at most once, for "default".
     */
    method LoadProfile(name: string)
      requires Valid()
      modifies this
      ensures Valid()
      ensures logs == old(logs)
      ensures name in loadedProfiles && loadedProfiles[name] == Resolved(disk, name)
      ensures ReadProfile(disk, name).Rules? ==> loadedProfiles[name] == ReadProfile(disk, name).rules
      ensures ReadProfile(disk, name).BadJson? ==> loadedProfiles[name] == []
      ensures ReadProfile(disk, name).Missing? && name != DefaultProfile ==>
        DefaultProfile in loadedProfiles && loadedProfiles[name] == loadedProfiles[DefaultProfile]
      ensures ReadProfile(disk, name).Missing? && name == DefaultProfile ==> loadedProfiles[name] == []
      ensures loadedProfiles.Keys == old(loadedProfiles).Keys + {name} +
        (if ReadProfile(disk, name).Missing? && name != DefaultProfile then {DefaultProfile} else {})
      ensures forall other :: other in old(loadedProfiles) && other != name ==>
        loadedProfiles[other] == old(loadedProfiles)[other]
      decreases if name == DefaultProfile then 0 else 1
    {
      match ReadProfile(disk, name)
      case Missing =>
        if name != DefaultProfile {
          if DefaultProfile in loadedProfiles {
            loadedProfiles := loadedProfiles[name := loadedProfiles[DefaultProfile]];
            return;
          }
          LoadProfile(DefaultProfile);
          loadedProfiles := loadedProfiles[name := loadedProfiles[DefaultProfile]];
          return;
        }
        loadedProfiles := loadedProfiles[name := []];
      case BadJson =>
        loadedProfiles := loadedProfiles[name := []];
      case Rules(rules) =>
        loadedProfiles := loadedProfiles[name := rules];
    }

    /**
     * The state of the defaults loop after `i` entries, starting from the
     * entries `logs0` and the loaded profiles `loaded0`.
     */
    ghost predicate DefaultsApplied(logs0: seq<LogEntry>, loaded0: map<string, seq<HighlightRule>>, i: nat)
      reads this
    {
      && Valid()
      && i <= |logs|
      && logs == DefaultsUpTo(logs0, i)
      && ProfilesOf(logs[..i]) <= loadedProfiles.Keys <= loaded0.Keys + ProfilesOf(logs[..i]) + {DefaultProfile}
      && (forall name :: name in loaded0 ==> name in loadedProfiles && loadedProfiles[name] == loaded0[name])
    }

    /**
     * Fill in the name and profile of entry `i` when they are missing: the
     * base name of its path or a numbered label, and "default".
     */
    method FillDefaults(i: nat)
      requires i < |logs|
      modifies this
      ensures logs == old(logs)[i := WithDefaults(old(logs)[i], i)]
      ensures loadedProfiles == old(loadedProfiles)
    {
      var entry := logs[i];
      if entry.name == [] {
        if entry.path != [] {
          entry := entry.(name := Base(entry.path));
        } else {
          entry := entry.(name := UnnamedLabel(i));
        }
      }
      if entry.profile == [] {
        entry := entry.(profile := DefaultProfile);
      }
      logs := logs[i := entry];
    }

    /**
     * One iteration of the defaults loop: fill in the name and profile of
     * entry `i`, then load its profile unless it is loaded already.
     */
    method ApplyDefaultsAt(i: nat, ghost logs0: seq<LogEntry>, ghost loaded0: map<string, seq<HighlightRule>>)
      requires i < |logs| && DefaultsApplied(logs0, loaded0, i)
      modifies this
      ensures DefaultsApplied(logs0, loaded0, i + 1)
    {
      ghost var done := logs[..i];
      FillDefaults(i);
      assert logs == DefaultsUpTo(logs0, i + 1);
      assert logs[..i + 1] == done + [logs[i]];
      ProfilesOfSnoc(done, logs[i]);
      if logs[i].profile !in loadedProfiles {
        LoadProfile(logs[i].profile);
      }
    }

    /**
     * The defaults loop of loadDashboardConfig: give every source a name
     * and a profile, then make sure its profile is loaded.
     */
    method ApplyDefaults()
      requires Valid()
      modifies this
      ensures Valid()
      ensures |logs| == |old(logs)|
      ensures forall i :: 0 <= i < |logs| ==> logs[i] == WithDefaults(old(logs)[i], i)
      ensures forall i :: 0 <= i < |logs| ==>
        logs[i].profile in loadedProfiles && loadedProfiles[logs[i].profile] == Resolved(disk, logs[i].profile)
      ensures forall name :: name in old(loadedProfiles) ==>
        name in loadedProfiles && loadedProfiles[name] == old(loadedProfiles)[name]
      ensures loadedProfiles.Keys <= old(loadedProfiles).Keys + ProfilesOf(logs) + {DefaultProfile}
    {
      ghost var logs0, loaded0 := logs, loadedProfiles;
      assert logs[..0] == [];
      var i := 0;
      while i < |logs|
        invariant DefaultsApplied(logs0, loaded0, i)
      {
        ApplyDefaultsAt(i, logs0, loaded0);
        i := i + 1;
      }
      assert logs[..i] == logs;
      forall j | 0 <= j < |logs| ensures logs[j].profile in loadedProfiles {
        assert logs[j] in logs;
      }
    }
  }
}
