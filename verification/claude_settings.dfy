/** Configuring Claude Code: one environment entry in the user's settings, and the bundle it names. */
module ClaudeSettings {
  import opened Common
  import opened Text
  import opened CaBundle

  const ENV: string := "env"
  const NODE_EXTRA_CA_CERTS: string := "NODE_EXTRA_CA_CERTS"

  datatype Json =
    | Null
    | Flag(flag: bool)
    | Number(number: int)
    | Str(text: string)
    | List(items: seq<Json>)
    | Obj(fields: map<string, Json>)

  /** The settings file as the JSON library sees it. */
  datatype SettingsFile = Missing | BlankText | Malformed | Document(value: Json)

  datatype ConfigError =
    | RootMissing | InvalidJson | NotAnObject | EnvNotAnObject | RelativePath | Unreadable | FileError

  /** What a run is going to write. */
  datatype Plan = Plan(bundle: string, settings: map<string, Json>, previous: map<string, Json>)

  function ReadSettings(file: SettingsFile): Result<map<string, Json>, ConfigError> {
    match file
    case Missing => Ok(map[])
    case BlankText => Ok(map[])
    case Malformed => Err(InvalidJson)
    case Document(value) => if value.Obj? then Ok(value.fields) else Err(NotAnObject)
  }

  function Environment(settings: map<string, Json>): Result<map<string, Json>, ConfigError> {
    if ENV !in settings then Ok(map[])
    else if settings[ENV].Obj? then Ok(settings[ENV].fields)
    else Err(EnvNotAnObject)
  }

  /** The entry that is about to be replaced, kept in the state file. */
  function PreviousEntry(env: map<string, Json>): map<string, Json> {
    if NODE_EXTRA_CA_CERTS in env then map[NODE_EXTRA_CA_CERTS := env[NODE_EXTRA_CA_CERTS]] else map[]
  }

  function PreviousPath(env: map<string, Json>): Option<string> {
    if NODE_EXTRA_CA_CERTS in env && env[NODE_EXTRA_CA_CERTS].Str? && Trim(env[NODE_EXTRA_CA_CERTS].text) != []
    then Some(Trim(env[NODE_EXTRA_CA_CERTS].text))
    else None
  }

  predicate Absolute(path: string) {
    path != [] && path[0] == '/'
  }

  function PreviousText(files: map<string, string>, managed: string, path: string): Result<string, ConfigError> {
    if !Absolute(path) then Err(RelativePath)
    else if path in files then Ok(files[path])
    else if path == managed then Ok("")
    else Err(Unreadable)
  }

  ghost function BundleOf(
    env: map<string, Json>, files: map<string, string>, managed: string, root: string): Result<string, ConfigError>
  {
    match PreviousPath(env)
    case None => Ok(Normalized(root))
    case Some(path) =>
      match PreviousText(files, managed, path)
      case Err(e) => Err(e)
      case Ok(text) => Ok(Merged(text, root))
  }

  function WithEntry(settings: map<string, Json>, env: map<string, Json>, managed: string): map<string, Json> {
    settings[ENV := Obj(env[NODE_EXTRA_CA_CERTS := Str(managed)])]
  }

  ghost function PlanOf(
    file: SettingsFile, files: map<string, string>, managed: string, rootPath: string): Result<Plan, ConfigError>
  {
    if rootPath !in files then Err(RootMissing)
    else
      match ReadSettings(file)
      case Err(e) => Err(e)
      case Ok(settings) =>
        match Environment(settings)
        case Err(e) => Err(e)
        case Ok(env) =>
          match BundleOf(env, files, managed, files[rootPath])
          case Err(e) => Err(e)
          case Ok(bundle) => Ok(Plan(bundle, WithEntry(settings, env, managed), PreviousEntry(env)))
  }

  /** Number of writing steps: directory, bundle, backup, settings, state. */
  const STEPS: nat := 5

  /** The files and settings after a run that stopped at a step, as `Configure` leaves them. */
  function FilesAfter(plan: Plan, files: map<string, string>, managed: string, stopAt: nat): map<string, string> {
    if stopAt > 1 then files[managed := plan.bundle] else files
  }

  function SettingsAfter(plan: Plan, file: SettingsFile, stopAt: nat): SettingsFile {
    if stopAt > 3 then Document(Obj(plan.settings)) else file
  }

  /** What a bundle and the root make together: the bundle first, and the root after it unless it is there. */
  ghost predicate Joins(bundle: string, previous: string, root: string) {
    if Contains(Core(previous), Core(root)) then bundle == Core(previous) + "\n"
    else bundle == Core(previous) + "\n" + "\n" + Core(root) + "\n"
  }

  /** The settings name this absolute path as the bundle to trust. */
  predicate NamesBundle(file: SettingsFile, path: string) {
    && file.Document? && file.value.Obj? && "env" in file.value.fields && file.value.fields["env"].Obj?
    && EntryNames(file.value.fields["env"].fields, path)
  }

  predicate EntryNames(env: map<string, Json>, path: string) {
    && "NODE_EXTRA_CA_CERTS" in env && env["NODE_EXTRA_CA_CERTS"].Str?
    && Trim(env["NODE_EXTRA_CA_CERTS"].text) == path && path != "" && path[0] == '/'
  }

  class ClaudeCodeConfigurator {
    const managedPath: string
    const rootPath: string
    var files: map<string, string>
    var settings: SettingsFile
    var backups: seq<SettingsFile>
    var state: Option<map<string, Json>>

    constructor (home: string, rootPath: string, files: map<string, string>, settings: SettingsFile)
      ensures this.managedPath == ManagedPath(home) && this.rootPath == rootPath
      ensures this.files == files && this.settings == settings && this.backups == [] && this.state == None
    {
      this.managedPath, this.rootPath := ManagedPath(home), rootPath;
      this.files, this.settings, this.backups, this.state := files, settings, [], None;
    }

    method MergedBundle(env: map<string, Json>, root: string) returns (r: Result<string, ConfigError>)
      ensures r == BundleOf(env, files, managedPath, root)
      ensures r.Ok? ==> Contains(r.value, Core(root))
      ensures forall path :: EntryNames(env, path) && path in files ==> r.Ok? && Joins(r.value, files[path], root)
    {
      hide Trim, Core, Contains, HasCertificate;
      var path := PreviousPath(env);
      if path.None? {
        RootInBundle(root);
        return Ok(Normalized(root));
      }
      var text := PreviousText(files, managedPath, path.value);
      if text.Err? {
        return Err(text.error);
      }
      HasCertificateMeans(text.value, root);
      MergedContainsBoth(text.value, root);
      var bundle := Merge(text.value, root);
      r := Ok(bundle);
    }

    /** Everything that happens before the first write. */
    method Prepare() returns (r: Result<Plan, ConfigError>)
      ensures r == PlanOf(settings, files, managedPath, rootPath)
    {
      if rootPath !in files {
        return Err(RootMissing);
      }
      var document := ReadSettings(settings);
      if document.Err? {
        return Err(document.error);
      }
      var env := Environment(document.value);
      if env.Err? {
        return Err(env.error);
      }
      var bundle := MergedBundle(env.value, files[rootPath]);
      if bundle.Err? {
        return Err(bundle.error);
      }
      r := Ok(Plan(bundle.value, WithEntry(document.value, env.value, managedPath), PreviousEntry(env.value)));
    }

    /**
     * Writes the bundle, backs the settings up, and only then writes them. `stopAt` is the step at
     * which a write fails or the process dies; from `STEPS` on nothing goes wrong.
     */
    method Configure(stopAt: nat) returns (r: Result<string, ConfigError>)
      modifies this
      ensures var plan := PlanOf(old(settings), old(files), managedPath, rootPath);
              && r == (if plan.Err? then Err(plan.error)
                       else if stopAt < STEPS then Err(FileError)
                       else Ok(managedPath))
              && var done := if plan.Ok? then stopAt else 0;
              && files == (if plan.Ok? then FilesAfter(plan.value, old(files), managedPath, stopAt) else old(files))
              && backups == old(backups) + (if done > 2 && !old(settings).Missing? then [old(settings)] else [])
              && settings == (if plan.Ok? then SettingsAfter(plan.value, old(settings), stopAt) else old(settings))
              && state == (if done > 4 then Some(plan.value.previous) else old(state))
      ensures r.Ok? ==> managedPath in files && rootPath in old(files)
      ensures r.Ok? ==> Contains(files[managedPath], Core(old(files)[rootPath]))
      ensures r.Ok? ==>
                forall path :: NamesBundle(old(settings), path) && path in old(files) ==>
                  Joins(files[managedPath], old(files)[path], old(files)[rootPath])
    {
      hide PlanOf, Core, Contains, NamesBundle, Joins;
      PlannedBundleIsComplete(settings, files, managedPath, rootPath);
      var plan := Prepare();
      if plan.Err? {
        return Err(plan.error);
      }
      if stopAt <= 1 {
        return Err(FileError);
      }
      files := files[managedPath := plan.value.bundle];
      if stopAt == 2 {
        return Err(FileError);
      }
      if !settings.Missing? {
        backups := backups + [settings];
      }
      if stopAt == 3 {
        return Err(FileError);
      }
      settings := Document(Obj(plan.value.settings));
      if stopAt == 4 {
        return Err(FileError);
      }
      state := Some(plan.value.previous);
      r := Ok(managedPath);
    }
  }

  function ManagedPath(home: string): string {
    home + "/.claude/abyss-ca-bundle.pem"
  }

  // ---- What a run leaves behind ----

  function EnvFieldOf(settings: map<string, Json>, key: string): Option<Json> {
    if ENV in settings && settings[ENV].Obj? then Get(settings[ENV].fields, key) else None
  }

  function Settings(file: SettingsFile): map<string, Json> {
    if ReadSettings(file).Ok? then ReadSettings(file).value else map[]
  }

  /** The entry points at the managed bundle and its old value is kept; every other setting stays as it was. */
  lemma OtherSettingsArePreserved(file: SettingsFile, files: map<string, string>, managed: string, rootPath: string)
    requires PlanOf(file, files, managed, rootPath).Ok?
    ensures var before, after := Settings(file), PlanOf(file, files, managed, rootPath).value.settings;
            && EnvFieldOf(after, NODE_EXTRA_CA_CERTS) == Some(Str(managed))
            && Get(PlanOf(file, files, managed, rootPath).value.previous, "NODE_EXTRA_CA_CERTS") ==
               EnvFieldOf(before, "NODE_EXTRA_CA_CERTS")
            && (forall k :: k != ENV ==> Get(after, k) == Get(before, k))
            && (forall k :: k != NODE_EXTRA_CA_CERTS ==> EnvFieldOf(after, k) == EnvFieldOf(before, k))
  {
  }

  /**
   * The bundle that the user had configured survives. If the entry is a string, its trimmed text is the path
   * of the previous bundle: that file's whole text begins the new bundle, which also contains the root; a
   * relative path is refused, and so is a file that is missing, unless it is the managed bundle itself. A
   * blank entry names none.
   */
  lemma PreviousBundleSurvives(fields: map<string, Json>, env: map<string, Json>, text: string,
                               files: map<string, string>, managed: string, rootPath: string)
    requires rootPath in files && Get(fields, "env") == Some(Obj(env))
    requires Get(env, "NODE_EXTRA_CA_CERTS") == Some(Str(text))
    ensures var r, path, root := PlanOf(Document(Obj(fields)), files, managed, rootPath), Trim(text), files[rootPath];
            && (r.Ok? ==> Contains(r.value.bundle, Core(root)))
            && (r.Ok? ==> r.value.previous == map["NODE_EXTRA_CA_CERTS" := Str(text)])
            && if path == "" then r.Ok? && r.value.bundle == Core(root) + "\n"
               else if path[0] != '/' then r == Err(RelativePath)
               else if path in files then
                 r.Ok? && Core(files[path]) <= r.value.bundle && Joins(r.value.bundle, files[path], root)
               else if path == managed then r.Ok? && Joins(r.value.bundle, "", root)
               else r == Err(Unreadable)
  {
    hide Trim, Core, Contains, HasCertificate;
    var path, root := Trim(text), files[rootPath];
    if path == "" {
      RootInBundle(root);
    } else {
      var previous := if path in files then files[path] else "";
      HasCertificateMeans(previous, root);
      MergedContainsBoth(previous, root);
    }
  }

  /** The bundle of every plan contains the root, and the previous bundle if the settings name one. */
  lemma PlannedBundleIsComplete(file: SettingsFile, files: map<string, string>, managed: string, rootPath: string)
    ensures var r := PlanOf(file, files, managed, rootPath);
            r.Ok? ==> rootPath in files && Contains(r.value.bundle, Core(files[rootPath]))
    ensures var r := PlanOf(file, files, managed, rootPath);
            r.Ok? ==> forall path :: NamesBundle(file, path) && path in files ==>
              Joins(r.value.bundle, files[path], files[rootPath])
  {
    hide Core, Contains, Joins, Trim;
    if PlanOf(file, files, managed, rootPath).Ok? {
      PlannedBundle(file, files, managed, rootPath);
      var text := MergedText(file, files, managed);
      if text.None? {
        RootInBundle(files[rootPath]);
      } else {
        MergedContainsBoth(text.value, files[rootPath]);
      }
      forall path | NamesBundle(file, path) && path in files
        ensures Joins(PlanOf(file, files, managed, rootPath).value.bundle, files[path], files[rootPath])
      {
        var fields := file.value.fields;
        var env := fields["env"].fields;
        PreviousBundleSurvives(fields, env, env["NODE_EXTRA_CA_CERTS"].text, files, managed, rootPath);
      }
    }
  }

  lemma RootInBundle(root: string)
    ensures Contains(Core(root) + "\n", Core(root))
  {
    ContainsPart("", Core(root), "\n");
    assert "" + Core(root) + "\n" == Core(root) + "\n";
  }

  /** With no such string in the settings, or no settings at all, the bundle is the root alone. */
  lemma NothingToMerge(file: SettingsFile, files: map<string, string>, managed: string, rootPath: string)
    requires rootPath in files
    requires match file
             case Document(Obj(fields)) =>
               "env" !in fields || (fields["env"].Obj? && !IsText(Get(fields["env"].fields, "NODE_EXTRA_CA_CERTS")))
             case Document(_) => false
             case Malformed => false
             case _ => true
    ensures var r := PlanOf(file, files, managed, rootPath);
            r.Ok? && r.value.bundle == Core(files[rootPath]) + "\n" && Contains(r.value.bundle, Core(files[rootPath]))
  {
    hide Core, Contains;
    RootInBundle(files[rootPath]);
  }

  predicate IsText(entry: Option<Json>) {
    entry.Some? && entry.value.Str?
  }

  /** A missing root comes first; then settings that are no JSON object, or whose environment is none, are refused. */
  lemma RefusedSettings(file: SettingsFile, files: map<string, string>, managed: string, rootPath: string)
    ensures var r := PlanOf(file, files, managed, rootPath);
            if rootPath !in files then r == Err(RootMissing)
            else
              && (r == Err(InvalidJson) <==> file == Malformed)
              && (r == Err(NotAnObject) <==> file.Document? && !file.value.Obj?)
              && (r == Err(EnvNotAnObject) <==> file.Document? && file.value.Obj? && OddEnvironment(file.value.fields))
              && r != Err(RootMissing) && r != Err(FileError)
  {
    hide Core, Trim, HasCertificate;
  }

  predicate OddEnvironment(fields: map<string, Json>) {
    "env" in fields && !fields["env"].Obj?
  }

  lemma ManagedIsUsable(home: string)
    requires Absolute(home)
    ensures Absolute(ManagedPath(home)) && Trim(ManagedPath(home)) == ManagedPath(home)
  {
    var managed := ManagedPath(home);
    assert Last(managed) == Last("/.claude/abyss-ca-bundle.pem") == 'm';
    NewlineIsBlank();
    TrimWrapped("", managed, "");
    assert "" + managed + "" == managed;
  }

  /** The text merged by a run, absent when the entry is missing, blank or not a string. */
  ghost function MergedText(file: SettingsFile, files: map<string, string>, managed: string): Option<string> {
    if ReadSettings(file).Ok? && Environment(ReadSettings(file).value).Ok? then
      var path := PreviousPath(Environment(ReadSettings(file).value).value);
      if path.Some? && PreviousText(files, managed, path.value).Ok?
      then Some(PreviousText(files, managed, path.value).value)
      else None
    else None
  }

  lemma PlannedBundle(file: SettingsFile, files: map<string, string>, managed: string, rootPath: string)
    requires PlanOf(file, files, managed, rootPath).Ok?
    ensures var text := MergedText(file, files, managed);
            PlanOf(file, files, managed, rootPath).value.bundle ==
            if text.None? then Normalized(files[rootPath]) else Merged(text.value, files[rootPath])
  {
  }

  lemma NormalizedIsFixed(root: string)
    ensures Merged(Normalized(root), root) == Normalized(root)
    ensures HasCertificate(Normalized(root), root)
  {
    HasCertificateMeans(Normalized(root), root);
    CoreOfNormalized(root);
    assert Occurs(Core(root), Core(root), 0);
  }

  /** Settings naming the managed bundle, and that bundle. */
  lemma PlanFromManaged(env: map<string, Json>, settings: map<string, Json>, files: map<string, string>,
                        home: string, rootPath: string)
    requires Absolute(home) && rootPath in files && ManagedPath(home) in files
    requires ENV in settings && settings[ENV] == Obj(env)
    requires NODE_EXTRA_CA_CERTS in env && env[NODE_EXTRA_CA_CERTS] == Str(ManagedPath(home))
    ensures PlanOf(Document(Obj(settings)), files, ManagedPath(home), rootPath) ==
            Ok(Plan(Merged(files[ManagedPath(home)], files[rootPath]), settings, PreviousEntry(env)))
  {
    hide Merged, Trim, ManagedPath;
    ManagedIsUsable(home);
    assert env[NODE_EXTRA_CA_CERTS := Str(ManagedPath(home))] == env;
    assert settings[ENV := Obj(env)] == settings;
  }

  /**
   * Configuring again after a complete run succeeds with the same settings, and with the same
   * bundle exactly if the merged text was not blank or there is no certificate text to add.
   */
  lemma RerunIsIdempotent(file: SettingsFile, files: map<string, string>, home: string, rootPath: string)
    requires Absolute(home) && rootPath != ManagedPath(home)
    requires PlanOf(file, files, ManagedPath(home), rootPath).Ok?
    ensures var managed := ManagedPath(home); var first := PlanOf(file, files, managed, rootPath).value;
            var again := PlanOf(Document(Obj(first.settings)), files[managed := first.bundle], managed, rootPath);
            var text := MergedText(file, files, managed);
            && again.Ok? && again.value.settings == first.settings
            && (again.value.bundle == first.bundle <==> !(text.Some? && Blank(text.value) && !Blank(files[rootPath])))
  {
    hide Merged, ManagedPath, Blank, Normalized, HasCertificate;
    var managed, root := ManagedPath(home), files[rootPath];
    var first := PlanOf(file, files, managed, rootPath).value;
    var env := Environment(ReadSettings(file).value).value;
    var written := env[NODE_EXTRA_CA_CERTS := Str(managed)];
    PlanFromManaged(written, first.settings, files[managed := first.bundle], home, rootPath);
    PlannedBundle(file, files, managed, rootPath);
    var text := MergedText(file, files, managed);
    if text.Some? {
      MergeReachesFixedPoint(text.value, root);
    } else {
      NormalizedIsFixed(root);
    }
  }

  /** Claude Code is never pointed at a managed bundle without the certificate. */
  ghost predicate Trustworthy(file: SettingsFile, files: map<string, string>, managed: string, rootPath: string) {
    EnvFieldOf(Settings(file), NODE_EXTRA_CA_CERTS) == Some(Str(managed)) && rootPath in files ==>
      managed in files && HasCertificate(files[managed], files[rootPath])
  }

  /** That survives a failure or death at any step: the bundle is in place before the settings name it. */
  lemma StaysTrustworthy(file: SettingsFile, files: map<string, string>, managed: string, rootPath: string, stopAt: nat)
    requires PlanOf(file, files, managed, rootPath).Ok? && rootPath != managed
    requires Trustworthy(file, files, managed, rootPath)
    ensures var plan := PlanOf(file, files, managed, rootPath).value;
            Trustworthy(SettingsAfter(plan, file, stopAt), FilesAfter(plan, files, managed, stopAt), managed, rootPath)
  {
    hide Merged, Normalized, HasCertificate, Settings, EnvFieldOf, PlanOf;
    if stopAt > 1 {
      PlannedBundle(file, files, managed, rootPath);
      PlanNeedsRoot(file, files, managed, rootPath);
      var text := MergedText(file, files, managed);
      if text.Some? {
        MergedHasCertificate(text.value, files[rootPath]);
      } else {
        NormalizedIsFixed(files[rootPath]);
      }
    }
  }

  lemma PlanNeedsRoot(file: SettingsFile, files: map<string, string>, managed: string, rootPath: string)
    requires PlanOf(file, files, managed, rootPath).Ok?
    ensures rootPath in files
  {
  }

  /** A run after an interrupted one succeeds, with the settings of an uninterrupted run. */
  lemma ResumeAfterInterruption(
    file: SettingsFile, files: map<string, string>, home: string, rootPath: string, stopAt: nat)
    requires Absolute(home) && rootPath != ManagedPath(home)
    requires PlanOf(file, files, ManagedPath(home), rootPath).Ok?
    ensures var managed := ManagedPath(home); var plan := PlanOf(file, files, managed, rootPath).value;
            var left := FilesAfter(plan, files, managed, stopAt);
            var resumed := PlanOf(SettingsAfter(plan, file, stopAt), left, managed, rootPath);
            && resumed.Ok? && resumed.value.settings == plan.settings
            && resumed.value.bundle in {plan.bundle, Merged(plan.bundle, files[rootPath])}
  {
    hide Merged, ManagedPath, Normalized, Blank, Trim;
    var managed := ManagedPath(home);
    var plan := PlanOf(file, files, managed, rootPath).value;
    if stopAt > 3 {
      var env := Environment(ReadSettings(file).value).value;
      var written := env[NODE_EXTRA_CA_CERTS := Str(managed)];
      PlanFromManaged(written, plan.settings, files[managed := plan.bundle], home, rootPath);
    }
  }
}
