/** internal/agent/plugin/elemental: the files the Elemental OS plugin writes. YAML and JSON text, the elemental CLI and
    the file system are oracles. */
module ElementalOSPlugin {
  import opened Common

  const CLOUD_CONFIG_DIR := "/oem"
  const HOSTNAME_INIT_PATH := "/oem/set-hostname.yaml"
  const IDENTITY_INIT_PATH := "/oem/set-private-key.yaml"
  const CLOUD_CONFIG_INIT_PATH := "/oem/set-cloud-config.yaml"
  const AGENT_CONFIG_INIT_PATH := "/oem/set-config-yaml.yaml"
  const BOOTSTRAP_PATH := "/oem/bootstrap-cloud-config.yaml"
  const BOOTSTRAP_SENTINEL_PATH := "/run/cluster-api/bootstrap-success.complete"
  const SENTINEL_COMMAND := "mkdir -p /run/cluster-api && echo success > " + BOOTSTRAP_SENTINEL_PATH
  const MARKER := "#cloud-config"

  // ---- Text ----

  predicate OccursAt(s: string, pattern: string, i: nat) {
    i + |pattern| <= |s| && s[i..i + |pattern|] == pattern
  }

  /** The first occurrence, or -1. */
  function Index(s: string, pattern: string): (i: int)
    ensures -1 <= i
    ensures i >= 0 ==> OccursAt(s, pattern, i) && forall j: nat :: j < i ==> !OccursAt(s, pattern, j)
    ensures i < 0 ==> forall j: nat :: !OccursAt(s, pattern, j)
  {
    if OccursAt(s, pattern, 0) then 0
    else if s == "" then -1
    else
      var rest := Index(s[1..], pattern);
      assert forall j: nat :: j > 0 ==> (OccursAt(s, pattern, j) <==> OccursAt(s[1..], pattern, j - 1)) by {
        forall j: nat | j > 0 ensures OccursAt(s, pattern, j) <==> OccursAt(s[1..], pattern, j - 1) {
          if j + |pattern| <= |s| {
            assert s[1..][j - 1..j - 1 + |pattern|] == s[j..j + |pattern|];
          }
        }
      }
      if rest < 0 then -1 else rest + 1
  }

  predicate Contains(s: string, pattern: string) {
    Index(s, pattern) >= 0
  }

  /** Any text in front of the first marker is dropped; a missing marker is added. */
  function Normalised(input: string): string {
    var i := Index(input, MARKER);
    if i == -1 then MARKER + "\n\n" + input else input[i..]
  }

  /** The text is the input without this front, or with that one added. */
  predicate Kept(input: string, text: string, dropped: string, added: string) {
    && added + input == dropped + text
    && (if Contains(input, MARKER) then added == "" && |dropped| == Index(input, MARKER)
        else dropped == "" && added == MARKER + "\n\n")
  }

  /** The normalised text starts with the marker and keeps all that follows the first one, or everything. */
  lemma NormalisedText(input: string)
    ensures "#cloud-config" <= Normalised(input)
    ensures exists dropped, added :: Kept(input, Normalised(input), dropped, added)
  {
    if Contains(input, MARKER) {
      FrontDropped(input, Index(input, MARKER));
    } else {
      MarkerAdded(input);
    }
  }

  lemma FrontDropped(input: string, i: nat)
    requires i == Index(input, MARKER)
    ensures MARKER <= Normalised(input) && Kept(input, Normalised(input), input[..i], "")
  {
    assert "" + input == input[..i] + input[i..];
    assert input[i..][..|MARKER|] == input[i..i + |MARKER|];
  }

  lemma MarkerAdded(input: string)
    requires !Contains(input, MARKER)
    ensures MARKER <= Normalised(input) && Kept(input, Normalised(input), "", MARKER + "\n\n")
  {
    var added := MARKER + "\n\n";
    assert added + input == "" + (added + input);
  }

  lemma NormalisingIsIdempotent(input: string)
    ensures Normalised(Normalised(input)) == Normalised(input)
  {
    NormalisedText(input);
    var text := Normalised(input);
    assert text[0..0 + |MARKER|] == MARKER;
    assert OccursAt(text, MARKER, 0);
  }

  // ---- Bootstrap ----

  datatype File = File(path: string, permissions: int, owner: int, group: int, content: string)

  /** `rest` stands for the fields that the plugin never looks at. */
  datatype Stage = Stage(condition: string, commands: seq<string>, files: seq<File>, rest: string)

  /** A list of stages may be null in the parsed text. */
  type StageList = Option<seq<Stage>>

  type Stages = map<string, StageList>

  datatype Yip = Yip(name: string, stages: Option<Stages>)

  /** The parsers and printers of the plugin. */
  datatype Formats = Formats(
    load: string -> Option<Yip>,
    marshal: Yip -> Option<string>,
    toYaml: string -> Option<string>,
    toInstall: string -> Option<InstallSpec>)

  datatype InstallSpec = InstallSpec(configURLs: seq<string>, rest: string)

  const SELF_DELETE := Stage("[ -f \"" + BOOTSTRAP_SENTINEL_PATH + "\" ]", ["rm " + BOOTSTRAP_PATH], [], "")

  predicate Mentions(stage: Stage) {
    exists c :: c in stage.commands && Contains(c, BOOTSTRAP_SENTINEL_PATH)
  }

  predicate SomeMentions(stages: seq<Stage>) {
    exists i :: 0 <= i < |stages| && Mentions(stages[i])
  }

  /** The boot stages moved to the network, with the creation of the sentinel file where the provider leaves it out. */
  function WithSentinel(boot: seq<Stage>): seq<Stage> {
    if boot == [] || SomeMentions(boot) then boot
    else boot[0 := boot[0].(commands := boot[0].commands + [SENTINEL_COMMAND])]
  }

  function Rewritten(stages: Stages, boot: seq<Stage>): Stages {
    (stages - {"boot"})["network" := Some(WithSentinel(boot))]["network.after" := Some([SELF_DELETE])]
  }

  predicate HasBoot(stages: Option<Stages>) {
    stages.Some? && "boot" in stages.value && stages.value["boot"].Some?
  }

  class YipConfig {
    var name: string
    var stages: Option<Stages>

    constructor (value: Yip)
      ensures Value() == value
    {
      name, stages := value.name, value.stages;
    }

    ghost function Value(): Yip
      reads this
    {
      Yip(name, stages)
    }

    /** Moves the boot stages to the network stage, where all is still there when the network is up. */
    method MoveBootToNetwork() returns (ok: bool)
      modifies this
      ensures name == old(name) && ok == HasBoot(old(stages))
      ensures stages == if ok then Some(Rewritten(old(stages).value, old(stages).value["boot"].value)) else old(stages)
    {
      if stages.None? || "boot" !in stages.value || stages.value["boot"].None? {
        return false;
      }
      var boot := stages.value["boot"].value;
      stages := Some(stages.value["network" := Some(boot)]);
      stages := Some(stages.value - {"boot"});
      var sentinelCreated := MentionsSentinel(boot);
      if !sentinelCreated && |boot| > 0 {
        var first := boot[0].(commands := boot[0].commands + [SENTINEL_COMMAND]);
        stages := Some(stages.value["network" := Some(boot[0 := first])]);
      }
      stages := Some(stages.value["network.after" := Some([SELF_DELETE])]);
      assert stages.value == Rewritten(old(stages).value, boot);
      ok := true;
    }
  }

  method MentionsSentinel(stages: seq<Stage>) returns (sentinelCreated: bool)
    ensures sentinelCreated == SomeMentions(stages)
  {
    sentinelCreated := false;
    for i := 0 to |stages|
      invariant sentinelCreated == SomeMentions(stages[..i])
    {
      var commands := stages[i].commands;
      ghost var before := sentinelCreated;
      for j := 0 to |commands|
        invariant sentinelCreated ==
                  (before || exists k :: 0 <= k < j && Contains(commands[k], BOOTSTRAP_SENTINEL_PATH))
      {
        if Contains(commands[j], BOOTSTRAP_SENTINEL_PATH) {
          sentinelCreated := true;
        }
      }
      MentionsOneMore(stages, i);
    }
    assert stages[..|stages|] == stages;
  }

  lemma MentionsOneMore(stages: seq<Stage>, i: nat)
    requires i < |stages|
    ensures SomeMentions(stages[..i + 1]) <==> SomeMentions(stages[..i]) || Mentions(stages[i])
  {
    var shorter, longer := stages[..i], stages[..i + 1];
    if SomeMentions(shorter) {
      var k :| 0 <= k < |shorter| && Mentions(shorter[k]);
      assert longer[k] == shorter[k];
    }
    if SomeMentions(longer) {
      var k :| 0 <= k < |longer| && Mentions(longer[k]);
      assert k < i ==> shorter[k] == longer[k];
    }
    assert longer[i] == stages[i];
  }

  lemma ContainsItsEnd(front: string, end: string)
    ensures Contains(front + end, end)
  {
    assert (front + end)[|front|..|front| + |end|] == end;
    assert OccursAt(front + end, end, |front|);
  }

  lemma SentinelCommandMentionsIt()
    ensures Contains(SENTINEL_COMMAND, BOOTSTRAP_SENTINEL_PATH)
  {
    var front := "mkdir -p /run/cluster-api && echo success > ";
    assert SENTINEL_COMMAND == front + BOOTSTRAP_SENTINEL_PATH;
    ContainsItsEnd(front, BOOTSTRAP_SENTINEL_PATH);
  }

  /** The boot stages run at the network stage instead, unchanged unless no command of theirs mentions the sentinel
      file: then the first stage creates it at its end. Once that file exists the configuration is deleted. All other
      stages stay, except that a network stage of the input is lost. */
  ghost predicate MovedToNetwork(stages: Stages, boot: seq<Stage>, out: Stages) {
    var sentinel := "/run/cluster-api/bootstrap-success.complete";
    && "boot" !in out
    && (forall k :: k !in {"boot", "network", "network.after"} ==> Get(out, k) == Get(stages, k))
    && Get(out, "network.after") == Some(Some([Stage("[ -f \"" + sentinel + "\" ]",
                                                     ["rm " + "/oem/bootstrap-cloud-config.yaml"], [], "")]))
    && "network" in out && out["network"].Some?
    && var network := out["network"].value;
       |network| == |boot|
       && (forall i :: 0 < i < |boot| ==> network[i] == boot[i])
       && (SomeMentions(boot) ==> network == boot)
       && (boot != [] && !SomeMentions(boot) ==>
             network[0] == boot[0].(commands := boot[0].commands
                                      + ["mkdir -p /run/cluster-api && echo success > " + sentinel]))
       && (boot != [] ==> SomeMentions(network))
  }

  lemma RewrittenStages(stages: Stages, boot: seq<Stage>)
    ensures MovedToNetwork(stages, boot, Rewritten(stages, boot))
  {
    var network := WithSentinel(boot);
    if boot != [] && !SomeMentions(boot) {
      SentinelCommandMentionsIt();
      assert network[0].commands[|boot[0].commands|] == SENTINEL_COMMAND;
      assert Mentions(network[0]);
    }
  }

  // ---- Files ----

  /** What is left of a path's last slash is not part of its last element. */
  function LastElement(path: string): string {
    if path == "" || path[|path| - 1] == '/' then "" else LastElement(path[..|path| - 1]) + [path[|path| - 1]]
  }

  function WithoutEndingSlashes(path: string): string {
    if path == "" || path[|path| - 1] != '/' then path else WithoutEndingSlashes(path[..|path| - 1])
  }

  /** filepath.Base */
  function Base(path: string): string {
    if path == "" then "."
    else
      var last := LastElement(WithoutEndingSlashes(path));
      if last == "" then "/" else last
  }

  /** filepath.Ext: from the last dot of the last element, or nothing. */
  function Ext(path: string): string {
    if path == "" || path[|path| - 1] == '/' then ""
    else if path[|path| - 1] == '.' then "."
    else
      var ext := Ext(path[..|path| - 1]);
      if ext == "" then "" else ext + [path[|path| - 1]]
  }

  function CutSuffix(s: string, suffix: string): string {
    if |suffix| <= |s| && s[|s| - |suffix|..] == suffix then s[..|s| - |suffix|] else s
  }

  function CutPrefix(s: string, prefix: string): string {
    if prefix <= s then s[|prefix|..] else s
  }

  function SetFileName(stem: string, extension: string): string {
    "set-" + stem + "-" + extension + ".yaml"
  }

  function FormatSetFileName(path: string): string {
    SetFileName(CutSuffix(Base(path), Ext(path)), CutPrefix(Ext(path), "."))
  }

  function SetFilePath(path: string): string {
    CLOUD_CONFIG_DIR + "/" + FormatSetFileName(path)
  }

  predicate EndsWith(s: string, end: string) {
    |end| <= |s| && s[|s| - |end|..] == end
  }

  lemma {:induction false} ElementShape(path: string)
    ensures var last := LastElement(path);
            EndsWith(path, last) && '/' !in last && (|last| < |path| ==> path[|path| - |last| - 1] == '/')
  {
    if path == "" || path[|path| - 1] == '/' {
    } else {
      var shorter := path[..|path| - 1];
      ElementShape(shorter);
      var last := LastElement(shorter);
      assert path[|path| - |last| - 1..] == last + [path[|path| - 1]];
    }
  }

  lemma {:induction false} ExtShape(path: string)
    ensures var ext := Ext(path);
            && EndsWith(LastElement(path), ext)
            && (ext != "" ==> ext[0] == '.' && '.' !in ext[1..] && path[|path| - 1] != '/')
  {
    if path == "" || path[|path| - 1] == '/' || path[|path| - 1] == '.' {
    } else {
      var shorter := path[..|path| - 1];
      ExtShape(shorter);
      var last, ext, c := LastElement(shorter), Ext(shorter), path[|path| - 1];
      assert (last + [c])[|last| - |ext|..] == last[|last| - |ext|..] + [c];
      assert ext != "" ==> (ext + [c])[1..] == ext[1..] + [c];
    }
  }

  lemma {:induction false} LastElementOf(front: string, name: string)
    requires front == "" || front[|front| - 1] == '/'
    requires '/' !in name
    ensures LastElement(front + name) == name
  {
    if name == "" {
      assert front + name == front;
    } else {
      var shorter := name[..|name| - 1];
      assert (front + name)[..|front + name| - 1] == front + shorter;
      LastElementOf(front, shorter);
      assert shorter + [name[|name| - 1]] == name;
    }
  }

  lemma {:induction false} ExtOf(front: string, e: string)
    requires '.' !in e && '/' !in e
    ensures Ext(front + ("." + e)) == "." + e
  {
    var path := front + ("." + e);
    if e == "" {
      assert path == front + ".";
    } else {
      var shorter := e[..|e| - 1];
      assert path[..|path| - 1] == front + ("." + shorter);
      ExtOf(front, shorter);
      assert "." + shorter + [e[|e| - 1]] == "." + e;
    }
  }

  lemma CutItsEnd(front: string, end: string)
    ensures CutSuffix(front + end, end) == front
  {
    assert (front + end)[|front|..] == end && (front + end)[..|front|] == front;
  }

  lemma SameFront(front: string, a: string, b: string)
    ensures front + a == front + b <==> a == b
  {
    assert a == (front + a)[|front|..] && b == (front + b)[|front|..];
  }

  /** my-file.foo in any directory is written by set-my-file-foo.yaml. */
  lemma SetFileNameOf(front: string, stem: string, e: string)
    requires front == "" || front[|front| - 1] == '/'
    requires '/' !in stem && '/' !in e && '.' !in e && e != ""
    ensures FormatSetFileName(front + (stem + ("." + e))) == SetFileName(stem, e)
  {
    var ext := "." + e;
    var path := front + (stem + ext);
    LastElementOf(front, stem + ext);
    assert path == (front + stem) + ext;
    ExtOf(front + stem, e);
    assert path[|path| - 1] == e[|e| - 1] && WithoutEndingSlashes(path) == path;
    CutItsEnd(stem, ext);
    assert CutPrefix(ext, ".") == e;
  }

  lemma ConfigYamlName()
    ensures SetFileName("config", "yaml") == "set-config-yaml.yaml"
  {
  }

  lemma AgentConfigPath()
    ensures AGENT_CONFIG_INIT_PATH == CLOUD_CONFIG_DIR + "/" + "set-config-yaml.yaml"
  {
  }

  lemma PrivateKeyName()
    ensures CLOUD_CONFIG_DIR + "/" + SetFileName("private", "key") == IDENTITY_INIT_PATH
  {
  }

  lemma SetFileNameSplits(stem: string, e: string)
    requires SetFileName(stem, e) == "set-config-yaml.yaml"
    ensures stem == "config" && e == "yaml"
  {
    var middle := stem + "-" + e;
    var whole := SetFileName(stem, e);
    assert whole == "set-" + middle + ".yaml";
    assert middle == whole[4..4 + |middle|];
    assert middle == "config-yaml";
    assert middle[|stem|] == '-';
    assert |stem| == 6;
    assert stem == middle[..6] && e == middle[7..];
  }

  /** The path names a file of this name, in any directory. */
  predicate IsCalled(path: string, name: string) {
    EndsWith(path, name) && (|path| == |name| || path[|path| - |name| - 1] == '/')
  }

  lemma NoEndingSlash(path: string)
    requires path != "" && path[|path| - 1] != '/'
    ensures Base(path) == LastElement(path)
  {
    assert WithoutEndingSlashes(path) == path;
    assert |LastElement(path)| > 0;
  }

  lemma CutAndJoined(s: string, end: string)
    requires EndsWith(s, end)
    ensures CutSuffix(s, end) + end == s
  {
  }

  lemma DotInFront(ext: string)
    requires ext != "" && ext[0] == '.'
    ensures "." + CutPrefix(ext, ".") == ext
  {
  }

  lemma CalledByLastElement(path: string)
    ensures IsCalled(path, LastElement(path))
  {
    ElementShape(path);
  }

  lemma CalledByItsParts(path: string)
    requires CutPrefix(Ext(path), ".") != ""
    ensures IsCalled(path, CutSuffix(Base(path), Ext(path)) + ("." + CutPrefix(Ext(path), ".")))
  {
    var ext, last := Ext(path), LastElement(path);
    assert path[|path| - 1] != '/' && ext[0] == '.' && CutSuffix(last, ext) + ext == last by {
      ExtShape(path);
      CutAndJoined(last, ext);
    }
    NoEndingSlash(path);
    DotInFront(ext);
    CalledByLastElement(path);
  }

  lemma FileOfCalled(path: string, stem: string, e: string)
    requires '/' !in stem && '/' !in e && '.' !in e && e != "" && IsCalled(path, stem + ("." + e))
    ensures FormatSetFileName(path) == SetFileName(stem, e)
  {
    var name := stem + ("." + e);
    var front := path[..|path| - |name|];
    assert path == front + name;
    SetFileNameOf(front, stem, e);
  }

  lemma WrittenAsConfigYaml(path: string)
    ensures FormatSetFileName(path) == "set-config-yaml.yaml" <==> IsCalled(path, "config" + ("." + "yaml"))
  {
    ConfigYamlName();
    if IsCalled(path, "config" + ("." + "yaml")) {
      FileOfCalled(path, "config", "yaml");
    }
    if FormatSetFileName(path) == "set-config-yaml.yaml" {
      SetFileNameSplits(CutSuffix(Base(path), Ext(path)), CutPrefix(Ext(path), "."));
      CalledByItsParts(path);
    }
  }

  /** Install lists the file that persists the agent configuration exactly if the configuration is called
      config.yaml. */
  lemma AgentConfigIsListed(configPath: string)
    ensures SetFilePath(configPath) == AGENT_CONFIG_INIT_PATH <==> IsCalled(configPath, "config" + ("." + "yaml"))
  {
    WrittenAsConfigYaml(configPath);
    SameFront(CLOUD_CONFIG_DIR + "/", FormatSetFileName(configPath), "set-config-yaml.yaml");
    AgentConfigPath();
  }

  /** Install always lists the file that persists the agent's identity. */
  lemma IdentityIsListed(workDir: string)
    ensures SetFilePath(workDir + "/" + PRIVATE_KEY_FILE) == IDENTITY_INIT_PATH
  {
    PrivateKeyName();
    assert workDir + "/" + PRIVATE_KEY_FILE == (workDir + "/") + ("private" + ("." + "key"));
    SetFileNameOf(workDir + "/", "private", "key");
  }

  // ---- The plugin ----

  datatype Conversion = Converted(text: string) | CannotLoad | UnsupportedSchema | CannotMarshal

  datatype BootstrapResult = Applied | AlreadyApplied | UnsupportedFormat | NotConverted(why: Conversion) | NotWritten

  datatype LiveMode = Live | Installed | Unknown

  const OWN_CONFIGS := [HOSTNAME_INIT_PATH, IDENTITY_INIT_PATH, AGENT_CONFIG_INIT_PATH, CLOUD_CONFIG_INIT_PATH]

  function ConvertedBootstrap(formats: Formats, input: string): Conversion {
    match formats.load(Normalised(input))
    case None => CannotLoad
    case Some(yip) =>
      if !HasBoot(yip.stages) then UnsupportedSchema
      else
        match formats.marshal(Yip(yip.name, Some(Rewritten(yip.stages.value, yip.stages.value["boot"].value))))
        case None => CannotMarshal
        case Some(text) => Converted(text)
  }

  /** What a bootstrap configuration becomes: its boot stages run when the network is up, and its name stays. The first
      obstacle decides about the error. */
  lemma ConversionMeans(formats: Formats, input: string)
    ensures var loaded := formats.load(Normalised(input));
            match ConvertedBootstrap(formats, input)
            case CannotLoad => loaded.None?
            case UnsupportedSchema =>
              loaded.Some?
              && (loaded.value.stages.None? || Get(loaded.value.stages.value, "boot") in {None, Some(None)})
            case CannotMarshal => exists out :: ConvertedTo(loaded, out) && formats.marshal(out).None?
            case Converted(text) => exists out :: ConvertedTo(loaded, out) && formats.marshal(out) == Some(text)
  {
    var loaded := formats.load(Normalised(input));
    if loaded.Some? && HasBoot(loaded.value.stages) {
      var stages := loaded.value.stages.value;
      RewrittenStages(stages, stages["boot"].value);
      assert ConvertedTo(loaded, Yip(loaded.value.name, Some(Rewritten(stages, stages["boot"].value))));
    }
  }

  ghost predicate ConvertedTo(loaded: Option<Yip>, out: Yip) {
    && loaded.Some? && HasBoot(loaded.value.stages) && out.stages.Some?
    && out.name == loaded.value.name
    && MovedToNetwork(loaded.value.stages.value, loaded.value.stages.value["boot"].value, out.stages.value)
  }

  function WriteFileConfig(file: File): Yip {
    Yip("Write File", Some(map["boot" := Some([Stage("", [], [file], "")])]))
  }

  function HostnameConfig(hostname: string): Yip {
    Yip("Configure host", Some(map["boot" := Some([Stage("", ["echo " + hostname + " > /etc/hostname"], [], "")])]))
  }

  class ElementalPlugin {
    const formats: Formats
    var files: map<string, string>
    /** What `elemental install` was run with. */
    var installs: seq<InstallSpec>

    constructor (formats: Formats)
      ensures this.formats == formats && files == map[] && installs == []
    {
      this.formats, files, installs := formats, map[], [];
    }

    method WriteFile(path: string, content: string, fails: bool) returns (ok: bool)
      modifies this`files
      ensures ok == !fails
      ensures files == if ok then old(files)[path := content] else old(files)
    {
      if !fails {
        files := files[path := content];
      }
      ok := !fails;
    }

    method ConvertBootstrapToYip(input: string) returns (c: Conversion)
      ensures c == ConvertedBootstrap(formats, input)
    {
      var inputString := input;
      var startIndex := Index(inputString, MARKER);
      if startIndex == -1 {
        inputString := MARKER + "\n\n" + inputString;
      } else {
        inputString := inputString[startIndex..];
      }
      var loaded := formats.load(inputString);
      if loaded.None? {
        return CannotLoad;
      }
      var config := new YipConfig(loaded.value);
      var ok := config.MoveBootToNetwork();
      if !ok {
        return UnsupportedSchema;
      }
      var configBytes := formats.marshal(Yip(config.name, config.stages));
      c := if configBytes.Some? then Converted(configBytes.value) else CannotMarshal;
    }

    /** The configuration is written once; as long as the file is there and can be seen, it is not replaced. */
    method Bootstrap(format: string, input: string, statFails: bool, writeFails: bool) returns (r: BootstrapResult)
      modifies this`files
      ensures r.Applied? ==>
                && format == "cloud-config" && (BOOTSTRAP_PATH !in old(files) || statFails)
                && ConvertedBootstrap(formats, input).Converted?
                && files == old(files)[BOOTSTRAP_PATH := ConvertedBootstrap(formats, input).text]
      ensures !r.Applied? ==> files == old(files)
      ensures r.UnsupportedFormat? <==> format != "cloud-config"
      ensures r.AlreadyApplied? <==> format == "cloud-config" && BOOTSTRAP_PATH in old(files) && !statFails
      ensures r.NotConverted? ==> r.why == ConvertedBootstrap(formats, input) && !r.why.Converted?
      ensures r.NotWritten? ==> writeFails
    {
      if format != "cloud-config" {
        return UnsupportedFormat;
      }
      if BOOTSTRAP_PATH in files && !statFails {
        return AlreadyApplied;
      }
      var yipConfig := ConvertBootstrapToYip(input);
      if !yipConfig.Converted? {
        return NotConverted(yipConfig);
      }
      var ok := WriteFile(BOOTSTRAP_PATH, yipConfig.text, writeFails);
      r := if ok then Applied else NotWritten;
    }

    method InstallHostname(hostname: string, writeFails: bool) returns (ok: bool)
      modifies this`files
      ensures var stage := Stage("", ["echo " + hostname + " > /etc/hostname"], [], "");
              var bytes := formats.marshal(Yip("Configure host", Some(map["boot" := Some([stage])])));
              ok == (bytes.Some? && !writeFails)
              && files == if ok then old(files)["/oem/set-hostname.yaml" := bytes.value] else old(files)
    {
      var bytes := formats.marshal(HostnameConfig(hostname));
      if bytes.None? {
        return false;
      }
      ok := WriteFile(HOSTNAME_INIT_PATH, bytes.value, writeFails);
    }

    method InstallFile(content: string, path: string, permission: int, owner: int, group: int, writeFails: bool)
      returns (ok: bool)
      modifies this`files
      ensures var stage := Stage("", [], [File(path, permission, owner, group, content)], "");
              var bytes := formats.marshal(Yip("Write File", Some(map["boot" := Some([stage])])));
              ok == (bytes.Some? && !writeFails)
              && files == if ok then old(files)[SetFilePath(path) := bytes.value] else old(files)
    {
      var bytes := formats.marshal(WriteFileConfig(File(path, permission, owner, group, content)));
      if bytes.None? {
        return false;
      }
      ok := WriteFile(SetFilePath(path), bytes.value, writeFails);
    }

    method InstallCloudInit(input: string, writeFails: bool) returns (ok: bool)
      modifies this`files
      ensures ok == (formats.toYaml(input).Some? && !writeFails)
      ensures files == if ok then old(files)[CLOUD_CONFIG_INIT_PATH := MARKER + "\n" + formats.toYaml(input).value]
              else old(files)
    {
      var content := formats.toYaml(input);
      if content.None? {
        return false;
      }
      ok := WriteFile(CLOUD_CONFIG_INIT_PATH, MARKER + "\n" + content.value, writeFails);
    }

    /** Installs from live media only, and with the files written during the registration. */
    method Install(input: string, live: LiveMode, cliFails: bool) returns (ok: bool)
      modifies this`installs
      ensures ok <==> live == Installed || (live == Live && formats.toInstall(input).Some? && !cliFails)
      ensures live != Live || formats.toInstall(input).None? ==> installs == old(installs)
      ensures live == Live && formats.toInstall(input).Some? ==>
                var spec := formats.toInstall(input).value;
                var own := ["/oem/set-hostname.yaml", "/oem/set-private-key.yaml", "/oem/set-config-yaml.yaml",
                            "/oem/set-cloud-config.yaml"];
                installs == old(installs) + [spec.(configURLs := spec.configURLs + own)]
    {
      match live {
        case Unknown => return false;
        case Installed => return true;
        case Live =>
      }
      var install := formats.toInstall(input);
      if install.None? {
        return false;
      }
      installs := installs + [install.value.(configURLs := install.value.configURLs + OWN_CONFIGS)];
      ok := !cliFails;
    }
  }

  lemma AgentConfigPathIsItsOwn()
    ensures AGENT_CONFIG_INIT_PATH !in [HOSTNAME_INIT_PATH, IDENTITY_INIT_PATH, CLOUD_CONFIG_INIT_PATH]
  {
    assert AGENT_CONFIG_INIT_PATH[9] != IDENTITY_INIT_PATH[9];
  }

  lemma AllThereIf(hostname: string, identity: string, config: string, cloud: string, written: string)
    requires config !in [hostname, identity, cloud]
    ensures (forall p :: p in [hostname, identity, config, cloud] ==> p in {hostname, written, identity, cloud}) <==>
              written == config
  {
    assert config in [hostname, identity, config, cloud];
  }

  /** The files that a registration and the cloud-config write. */
  function FilesOfRegistration(configPath: string, workDir: string): set<string> {
    {HOSTNAME_INIT_PATH, SetFilePath(configPath), SetFilePath(workDir + "/" + PRIVATE_KEY_FILE), CLOUD_CONFIG_INIT_PATH}
  }

  /** All files that the installation lists were written if and only if the agent's configuration is called
      config.yaml. */
  lemma ListedFilesExist(configPath: string, workDir: string)
    ensures (forall p :: p in OWN_CONFIGS ==> p in FilesOfRegistration(configPath, workDir))
              <==> IsCalled(configPath, "config" + ("." + "yaml"))
  {
    AgentConfigIsListed(configPath);
    IdentityIsListed(workDir);
    AgentConfigPathIsItsOwn();
    AllThereIf(HOSTNAME_INIT_PATH, IDENTITY_INIT_PATH, AGENT_CONFIG_INIT_PATH, CLOUD_CONFIG_INIT_PATH,
               SetFilePath(configPath));
  }

  /** A configuration called otherwise does not come back: the installation lists a file that nobody wrote. */
  lemma OtherConfigIsNotListed(workDir: string)
    ensures var configPath := "/etc/elemental/agent/agent.yaml";
            AGENT_CONFIG_INIT_PATH in OWN_CONFIGS && AGENT_CONFIG_INIT_PATH !in FilesOfRegistration(configPath, workDir)
  {
    var configPath := "/etc/elemental/agent/agent.yaml";
    var name := "config" + ("." + "yaml");
    assert configPath[|configPath| - |name|] != name[0];
    AgentConfigIsListed(configPath);
    IdentityIsListed(workDir);
    AgentConfigPathIsItsOwn();
    assert OWN_CONFIGS[2] == AGENT_CONFIG_INIT_PATH;
  }
}
