/** Which model a VM opens on, and the guest configuration that names it. */
module ModelChoice {
  import opened Text

  type ModelId = string

  const USER_PREFIX := "svkexe_user:"
  const GATEWAY_PREFIX := "svkexe-"

  predicate GatewaySeeded(id: ModelId) {
    HasPrefix(id, USER_PREFIX) || HasPrefix(id, GATEWAY_PREFIX)
  }

  predicate Reachable(available: seq<ModelId>, id: ModelId) {
    id != "" && id in available
  }

  /** The reachable ones of a list, in its order. */
  function Mine(available: seq<ModelId>, own: seq<ModelId>): (r: seq<ModelId>)
    ensures forall id :: id in r <==> id in own && Reachable(available, id)
  {
    if own == [] then []
    else if Reachable(available, own[0]) then [own[0]] + Mine(available, own[1..])
    else Mine(available, own[1..])
  }

  function FirstReachable(available: seq<ModelId>, ids: seq<ModelId>): (r: ModelId)
    ensures r != "" ==> Reachable(available, r) && r in ids
    ensures r == "" ==> forall id :: id in ids ==> !Reachable(available, id)
  {
    if ids == [] then "" else if Reachable(available, ids[0]) then ids[0] else FirstReachable(available, ids[1..])
  }

  function FirstWithPrefix(ids: seq<ModelId>, prefix: string): (r: ModelId)
    requires prefix != ""
    ensures r != "" ==> r in ids && HasPrefix(r, prefix)
    ensures r == "" ==> forall id :: id in ids ==> !HasPrefix(id, prefix)
  {
    if ids == [] then "" else if HasPrefix(ids[0], prefix) then ids[0] else FirstWithPrefix(ids[1..], prefix)
  }

  function DesiredModel(available: seq<ModelId>, own: seq<ModelId>, platform: seq<ModelId>, chosen: ModelId, current: ModelId): ModelId {
    var mine := Mine(available, own);
    if Reachable(available, chosen) then chosen
    else if Reachable(available, current) && !GatewaySeeded(current) then current
    else if mine != [] then (if current in mine then current else mine[0])
    else if Reachable(available, current) then current
    else if FirstReachable(available, platform) != "" then FirstReachable(available, platform)
    else if FirstWithPrefix(available, GATEWAY_PREFIX) != "" then FirstWithPrefix(available, GATEWAY_PREFIX)
    else if available != [] then available[0]
    else ""
  }

  /** A VM's model list never holds an empty ID. */
  predicate NamesModels(available: seq<ModelId>) {
    "" !in available
  }

  /** Only a model the VM has is ever chosen, and one always is if it has any. */
  lemma DesiredIsAvailable(available: seq<ModelId>, own: seq<ModelId>, platform: seq<ModelId>, chosen: ModelId, current: ModelId)
    requires NamesModels(available)
    ensures var want := DesiredModel(available, own, platform, chosen, current);
            if available == [] then want == "" else Reachable(available, want)
  {
    var mine := Mine(available, own);
    if mine != [] {
      assert mine[0] in mine;
    }
  }

  /** `want` is the first of ids that the VM has. */
  ghost predicate FirstHeld(available: seq<ModelId>, ids: seq<ModelId>, want: ModelId) {
    exists i :: 0 <= i < |ids| && ids[i] == want && Reachable(available, want) && forall j :: 0 <= j < i ==> !Reachable(available, ids[j])
  }

  /** Not a model the gateway put there, for its owner or for the platform. */
  predicate MadeInside(id: ModelId) {
    !HasPrefix(id, "svkexe_user:") && !HasPrefix(id, "svkexe-")
  }

  /** The owner's rules: the picked model wins; a model created inside the VM is kept;
      otherwise the owner's own models replace the platform's. */
  lemma DesiredPrefersTheOwner(available: seq<ModelId>, own: seq<ModelId>, platform: seq<ModelId>, chosen: ModelId, current: ModelId)
    ensures var want := DesiredModel(available, own, platform, chosen, current);
            && (Reachable(available, chosen) ==> want == chosen)
            && (!Reachable(available, chosen) && Reachable(available, current) && MadeInside(current) ==> want == current)
            && (!Reachable(available, chosen) && !(Reachable(available, current) && MadeInside(current)) && (exists id :: id in own && Reachable(available, id))
                ==> want in own && Reachable(available, want) && (if current in own && Reachable(available, current) then want == current else FirstHeld(available, own, want)))
            && ((forall id :: id in own ==> !Reachable(available, id)) && !Reachable(available, chosen) && Reachable(available, current) ==> want == current)
  {
    var mine := Mine(available, own);
    if id :| id in own && Reachable(available, id) {
      assert id in mine && mine[0] in mine;
      MineIsFirst(available, own);
    }
  }

  ghost predicate FirstPrefixed(ids: seq<ModelId>, prefix: string, want: ModelId) {
    exists i :: 0 <= i < |ids| && ids[i] == want && HasPrefix(want, prefix) && forall j :: 0 <= j < i ==> !HasPrefix(ids[j], prefix)
  }

  lemma {:induction false} FirstReachableIsFirst(available: seq<ModelId>, ids: seq<ModelId>)
    requires FirstReachable(available, ids) != ""
    ensures FirstHeld(available, ids, FirstReachable(available, ids))
  {
    if !Reachable(available, ids[0]) {
      FirstReachableIsFirst(available, ids[1..]);
      var i :| 0 <= i < |ids[1..]| && ids[1..][i] == FirstReachable(available, ids[1..]) && forall j :: 0 <= j < i ==> !Reachable(available, ids[1..][j]);
      assert ids[i + 1] == FirstReachable(available, ids);
      assert forall j :: 0 < j < i + 1 ==> ids[j] == ids[1..][j - 1];
    }
  }

  lemma {:induction false} MineIsFirst(available: seq<ModelId>, own: seq<ModelId>)
    requires Mine(available, own) != []
    ensures FirstHeld(available, own, Mine(available, own)[0])
  {
    if !Reachable(available, own[0]) {
      MineIsFirst(available, own[1..]);
      var i :| 0 <= i < |own[1..]| && own[1..][i] == Mine(available, own[1..])[0] && forall j :: 0 <= j < i ==> !Reachable(available, own[1..][j]);
      assert own[i + 1] == Mine(available, own)[0];
      assert forall j :: 0 < j < i + 1 ==> own[j] == own[1..][j - 1];
    }
  }

  lemma {:induction false} PrefixedIsFirst(ids: seq<ModelId>, prefix: string)
    requires prefix != "" && FirstWithPrefix(ids, prefix) != ""
    ensures FirstPrefixed(ids, prefix, FirstWithPrefix(ids, prefix))
  {
    if !HasPrefix(ids[0], prefix) {
      PrefixedIsFirst(ids[1..], prefix);
      var i :| 0 <= i < |ids[1..]| && ids[1..][i] == FirstWithPrefix(ids[1..], prefix) && forall j :: 0 <= j < i ==> !HasPrefix(ids[1..][j], prefix);
      assert ids[i + 1] == FirstWithPrefix(ids, prefix);
      assert forall j :: 0 < j < i + 1 ==> ids[j] == ids[1..][j - 1];
    }
  }

  /** With neither a picked nor a current model in the VM: the first of the owner's models
      it has, else the first of the platform's, else the first the gateway seeded, else
      the first of all. */
  lemma DesiredFallsBackInOrder(available: seq<ModelId>, own: seq<ModelId>, platform: seq<ModelId>, chosen: ModelId, current: ModelId)
    requires !Reachable(available, chosen) && !Reachable(available, current) && available != []
    ensures var want := DesiredModel(available, own, platform, chosen, current);
            if exists id :: id in own && Reachable(available, id) then FirstHeld(available, own, want)
            else if exists id :: id in platform && Reachable(available, id) then FirstHeld(available, platform, want)
            else if exists id :: id in available && HasPrefix(id, GATEWAY_PREFIX) then FirstPrefixed(available, GATEWAY_PREFIX, want)
            else want == available[0]
  {
    var mine := Mine(available, own);
    if mine != [] {
      assert mine[0] in mine;
      assert current !in mine;
      MineIsFirst(available, own);
    } else {
      assert forall id :: id in own && Reachable(available, id) ==> id in mine;
      if FirstReachable(available, platform) != "" {
        FirstReachableIsFirst(available, platform);
      } else if FirstWithPrefix(available, GATEWAY_PREFIX) != "" {
        PrefixedIsFirst(available, GATEWAY_PREFIX);
      }
    }
  }

  /** Feeding the answer back as the current model gives the same answer. */
  lemma DesiredIsFixpoint(available: seq<ModelId>, own: seq<ModelId>, platform: seq<ModelId>, chosen: ModelId, current: ModelId)
    ensures var want := DesiredModel(available, own, platform, chosen, current);
            DesiredModel(available, own, platform, chosen, want) == want
  {
    var want := DesiredModel(available, own, platform, chosen, current);
    var mine := Mine(available, own);
    if mine != [] {
      assert mine[0] in mine;
    }
    if !Reachable(available, want) && available != [] {
      assert available[0] in available;
    }
  }

  // ----- The guest configuration -----

  /** A setting as raw JSON: the strings the gateway reads, or anything else. */
  datatype Json = Text(value: string) | Other(raw: string)
  type Config = map<string, Json>

  const DEFAULT_MODEL := "default_model"

  /** One read of the file: it failed, it was blank, it did not parse, or it did. */
  datatype ReadReply = Failed | Blank | Garbled | Parsed(config: Config)

  datatype Loaded = Unreadable | Loaded(config: Config)

  /** The configuration a pair of reads yields: one that does not parse is retried once, a
      file that stays garbled reads as empty and so, at once, does one that is empty; a failed
      read is an error. */
  function ReadConfig(first: ReadReply, second: ReadReply): Loaded {
    match first
    case Failed => Unreadable
    case Blank => Loaded(map[])
    case Parsed(config) => Loaded(config)
    case Garbled =>
      match second
      case Failed => Unreadable
      case Blank => Loaded(map[])
      case Parsed(config) => Loaded(config)
      case Garbled => Loaded(map[])
  }

  function DefaultModelOf(config: Config): ModelId {
    if DEFAULT_MODEL in config && config[DEFAULT_MODEL].Text? then config[DEFAULT_MODEL].value else ""
  }

  function WithDefault(config: Config, value: ModelId): Config {
    if value == "" then config - {DEFAULT_MODEL} else config[DEFAULT_MODEL := Text(value)]
  }

  /** The configuration file: absent, unusable, or holding settings. */
  datatype File = Missing | Broken | Holds(config: Config)

  function Seen(f: File): ReadReply {
    match f
    case Missing => Blank
    case Broken => Garbled
    case Holds(config) => Parsed(config)
  }

  /** The settings the agent would find. */
  function Settings(f: File): Config {
    if f.Holds? then f.config else map[]
  }

  /** What a read may give while the agent rewrites the file by truncating it first: nothing
      at all, nothing yet, a part, or all of it. */
  predicate MayRead(r: ReadReply, f: File) {
    r.Failed? || r.Blank? || r.Garbled? || r == Seen(f)
  }

  /** The read the gateway goes by gave the whole file. */
  predicate ReadWhole(first: ReadReply, second: ReadReply, f: File) {
    if first.Garbled? then second == Seen(f) else first == Seen(f)
  }

  /** The file is written unless it could not be read or already names the wanted model. */
  predicate Rewrites(loaded: Loaded, want: ModelId) {
    loaded.Loaded? && !(want == DefaultModelOf(loaded.config) && (want != "" || DEFAULT_MODEL !in loaded.config))
  }

  function Others(f: File): Config {
    Settings(f) - {DEFAULT_MODEL}
  }

  /** The wanted model, going by what was read. */
  function Wanted(models: seq<ModelId>, own: seq<ModelId>, platform: seq<ModelId>, chosen: ModelId, loaded: Loaded): ModelId {
    DesiredModel(models, own, platform, chosen, if loaded.Loaded? then DefaultModelOf(loaded.config) else "")
  }

  function Applied(f: File, loaded: Loaded, want: ModelId): File {
    if Rewrites(loaded, want) then Holds(WithDefault(loaded.config, want)) else f
  }

  /** The owner's other settings survive if and only if nothing is written, there are none,
      or the whole file was read: one read that finds the file truncated is enough to lose
      them, and so are two that find it half written. */
  lemma OthersSurviveIff(f: File, first: ReadReply, second: ReadReply, want: ModelId)
    requires MayRead(first, f) && MayRead(second, f)
    ensures var loaded := ReadConfig(first, second);
            Others(Applied(f, loaded, want)) == Others(f) <==> !Rewrites(loaded, want) || Others(f) == map[] || ReadWhole(first, second, f)
  {
    var loaded := ReadConfig(first, second);
    if loaded.Loaded? {
      assert WithDefault(loaded.config, want) - {DEFAULT_MODEL} == loaded.config - {DEFAULT_MODEL};
      assert loaded.config == map[] || ReadWhole(first, second, f);
    }
  }

  /** The agent truncates the file at the wrong moment: a limit it keeps there is gone, and
      so is the platform model the VM was on. */
  lemma OneEmptyReadLosesSettings(second: ReadReply)
    ensures var f := Holds(map[DEFAULT_MODEL := Text("svkexe-a"), "max_tokens" := Other("8192")]);
            var models, platform := ["svkexe-a", "svkexe-b"], ["svkexe-b"];
            var loaded := ReadConfig(Blank, second);
            && Wanted(models, [], platform, "", ReadConfig(Seen(f), second)) == "svkexe-a"
            && Applied(f, loaded, Wanted(models, [], platform, "", loaded)) == Holds(map[DEFAULT_MODEL := Text("svkexe-b")])
  {
    var models := ["svkexe-a", "svkexe-b"];
    assert models[0] == "svkexe-a" && models[1] == "svkexe-b";
    assert Mine(models, []) == [];
    assert FirstReachable(models, ["svkexe-b"]) == "svkexe-b";
  }

  /** With the whole file read, the file afterwards names the model wanted, the setting is
      there exactly when there is one, and the file was written only if it had to change. */
  lemma WholeReadApplies(f: File, first: ReadReply, second: ReadReply, want: ModelId)
    requires ReadWhole(first, second, f)
    ensures var loaded := ReadConfig(first, second);
            var after := Settings(Applied(f, loaded, want));
            && loaded == Loaded(Settings(f))
            && DefaultModelOf(after) == want && (DEFAULT_MODEL in after <==> want != "")
            && (Rewrites(loaded, want) <==> after != Settings(f))
  {
    var cfg := Settings(f);
    if Rewrites(Loaded(cfg), want) && want == DefaultModelOf(cfg) {
      assert DEFAULT_MODEL in cfg && DEFAULT_MODEL !in WithDefault(cfg, want);
    }
  }

  /** The VM as the gateway sees it: its model table and its configuration file. */
  class Guest {
    var models: seq<ModelId>
    var file: File

    constructor (models: seq<ModelId>, file: File)
      ensures this.models == models && this.file == file
    {
      this.models := models;
      this.file := file;
    }

    /** Points the VM at the wanted model, going by at most two reads of the file. */
    method ApplyDefaultModel(own: seq<ModelId>, platform: seq<ModelId>, chosen: ModelId, first: ReadReply, second: ReadReply) returns (wrote: bool)
      modifies this`file
      ensures var loaded := ReadConfig(first, second);
              var want := Wanted(models, own, platform, chosen, loaded);
              && (wrote <==> Rewrites(loaded, want)) && file == Applied(old(file), loaded, want)
              && (MayRead(first, old(file)) && MayRead(second, old(file)) ==>
                    (Others(file) == Others(old(file)) <==> !wrote || Others(old(file)) == map[] || ReadWhole(first, second, old(file))))
      ensures ReadWhole(first, second, old(file)) ==>
                && DefaultModelOf(Settings(file)) == DesiredModel(models, own, platform, chosen, DefaultModelOf(Settings(old(file))))
                && (DEFAULT_MODEL in Settings(file) <==> DefaultModelOf(Settings(file)) != "")
                && Others(file) == Others(old(file)) && (wrote <==> Settings(file) != Settings(old(file)))
    {
      var loaded := ReadConfig(first, second);
      ghost var wanted := Wanted(models, own, platform, chosen, loaded);
      if MayRead(first, file) && MayRead(second, file) {
        OthersSurviveIff(file, first, second, wanted);
      }
      if ReadWhole(first, second, file) {
        WholeReadApplies(file, first, second, wanted);
        WithDefaultKeeps(Settings(file), wanted);
      }
      if loaded.Unreadable? {
        return false;
      }
      var cfg := loaded.config;
      var current := DefaultModelOf(cfg);
      var want := DesiredModel(models, own, platform, chosen, current);
      if want == current && (want != "" || DEFAULT_MODEL !in cfg) {
        return false;
      }
      file := Holds(WithDefault(cfg, want));
      wrote := true;
    }

    /** Applying the default twice with nothing changed in between writes once at most. */
    method ApplyTwice(own: seq<ModelId>, platform: seq<ModelId>, chosen: ModelId) returns (again: bool)
      modifies this`file
      ensures !again
    {
      ghost var current := DefaultModelOf(Settings(file));
      var wrote := ApplyDefaultModel(own, platform, chosen, Seen(file), Seen(file));
      DesiredIsFixpoint(models, own, platform, chosen, current);
      ghost var settled := Settings(file);
      again := ApplyDefaultModel(own, platform, chosen, Seen(file), Seen(file));
      SameConfig(settled, Settings(file));
    }

    /** The model a delivered task runs on, from the same rule and inputs; a file that cannot
        be read names none. */
    method ResolveTaskModel(own: seq<ModelId>, platform: seq<ModelId>, chosen: ModelId, read: ReadReply) returns (model: ModelId)
      ensures model == DesiredModel(models, own, platform, chosen, if read.Parsed? then DefaultModelOf(read.config) else "")
    {
      model := DesiredModel(models, own, platform, chosen, if read.Parsed? then DefaultModelOf(read.config) else "");
    }

    /** A task delivered after setup with unchanged inputs runs on the VM's own default. */
    method SetupThenDeliver(own: seq<ModelId>, platform: seq<ModelId>, chosen: ModelId) returns (model: ModelId)
      modifies this`file
      ensures model == DefaultModelOf(Settings(file))
      ensures NamesModels(models) && models != [] ==> model in models
    {
      ghost var current := DefaultModelOf(Settings(file));
      var wrote := ApplyDefaultModel(own, platform, chosen, Seen(file), Seen(file));
      DesiredIsFixpoint(models, own, platform, chosen, current);
      if NamesModels(models) { DesiredIsAvailable(models, own, platform, chosen, current); }
      model := ResolveTaskModel(own, platform, chosen, Seen(file));
    }
  }

  lemma WithDefaultKeeps(config: Config, value: ModelId)
    ensures WithDefault(config, value) - {DEFAULT_MODEL} == config - {DEFAULT_MODEL}
  {
  }

  /** A configuration is fixed by its default model and its other settings, as long as
      the default is named exactly when it is not empty. */
  lemma SameConfig(a: Config, b: Config)
    requires DefaultModelOf(a) == DefaultModelOf(b) && a - {DEFAULT_MODEL} == b - {DEFAULT_MODEL}
    requires (DEFAULT_MODEL in a <==> DefaultModelOf(a) != "") && (DEFAULT_MODEL in b <==> DefaultModelOf(b) != "")
    ensures a == b
  {
    forall k | k in a ensures k in b && a[k] == b[k] {
      if k != DEFAULT_MODEL { assert k in a - {DEFAULT_MODEL} && a[k] == (a - {DEFAULT_MODEL})[k] == (b - {DEFAULT_MODEL})[k]; }
    }
    forall k | k in b ensures k in a {
      if k != DEFAULT_MODEL { assert k in b - {DEFAULT_MODEL}; }
    }
  }
}
