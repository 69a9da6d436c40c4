/**
 * The Jenkins agent auto-connect daemon: read the `ci:` tags of the instance,
 * validate them, fetch the agent jar, pick the slot(s) to claim, rename the
 * instance and launch the agent, all under a 2000-try retry with backoff.
 *
 * Everything the daemon asks of the outside world (instance metadata and tags,
 * `shutil.which`, the output of `nvidia-smi -L`, the master's node list, the
 * random draws of `random.shuffle`, the exit status of each agent launch) is an
 * input. What it does to the world (downloads, directories, renames, launches,
 * sleeps) is an output trace of `Effect`s.
 */
module Autoconnect {
  import opened Base
  import opened Text
  import opened Paths
  import Retry

  const AgentSlaveJarPath := "jnlpJars/slave.jar"
  const LocalSlaveJarPath := "slave.jar"
  const FixedNvidiaSmiPath := "C:\\Program Files\\NVIDIA Corporation\\NVSMI\\nvidia-smi.exe"
  const NoFreeSlotName := "error-no-free-slot"
  const TooManyAttemptsName := "error-too-many-attempts"

  /** The `tries`, `delay_s` and `backoff` that decorate `autoconnect`. */
  const Tries := 2000
  const DelaySeconds := 1
  const Backoff := 2

  /** Something the daemon does to the outside world. */
  datatype Effect =
    | Daemonize
    | Download(url: string, file: string)
    | MakeDirs(path: string)
    | Rename(name: string)
    | Launch(command: string)
    | Sleep(seconds: int)

  /** The exceptions one run of `autoconnect` can raise; all are `Exception`s. */
  datatype Error =
    | MetadataUnavailable          // the instance-identity document could not be read
    | TagsNotIterable              // `instance.tags` is None
    | MissingConfig(key: string)   // an `assert` of `validate_config` failed
    | MissingKey(key: string)      // `cfg[key]` raised `KeyError`
    | DownloadFailed               // `urlretrieve` of the agent jar raised
    | UnsupportedSystem(system: string)
    | NodeListFailed               // `server.get_nodes()` raised
    | NoFreeSlots
    | LaunchFailed(code: int)      // `check_call` raised `CalledProcessError`
    | CouldNotConnect
    | HandlerArity                 // a signal handler called with two arguments takes none

  /** One EC2 tag and one node record of the master. */
  datatype Tag = Tag(key: string, value: string)
  datatype Node = Node(name: string, offline: bool)

  /** What reading the tags of this instance gave. */
  datatype TagRead = MetadataDown | NoTagSet | Tags(tags: seq<Tag>)

  /** The answers of the outside world during one call of `autoconnect`. */
  datatype Env = Env(
    tags: TagRead,
    downloadOk: bool,
    cwd: string,
    system: string,            // `platform.system()`
    which: string -> bool,     // whether `shutil.which(name)` finds `name`
    smiOutput: string,         // the decoded stdout of `nvidia-smi -L`
    nodes: Option<seq<Node>>,  // None when `get_nodes` raised
    draws: nat -> nat,         // `randbelow(i + 1)` answers `draws(i) % (i + 1)`
    exitCodes: nat -> Option<int>) // the k-th agent launch: its exit status, or None while
                                   // the agent stays connected and `check_call` has not returned

  // ---------------------------------------------------------------- URLs and commands

  /** `SLAVE_CONNECTION_URL_FORMAT.format(master_private=..., label=...)`. */
  function SlaveConnectionUrl(masterPrivate: string, prefix: string): string {
    masterPrivate + "/computer/" + prefix + "/slave-agent.jnlp"
  }

  /** The node a connection URL for `masterPrivate` names, if it has that form. */
  function NodeOfConnectionUrl(masterPrivate: string, url: string): Option<string> {
    var head := masterPrivate + "/computer/";
    var tail := "/slave-agent.jnlp";
    if |head| + |tail| <= |url| && url[..|head|] == head && url[|url| - |tail|..] == tail
    then Some(url[|head|..|url| - |tail|])
    else None
  }

  /** A connection URL names exactly the node it was built from, and only such URLs name a node. */
  lemma ConnectionUrlRoundTrip(masterPrivate: string, node: string, url: string)
    ensures NodeOfConnectionUrl(masterPrivate, SlaveConnectionUrl(masterPrivate, node)) == Some(node)
    ensures NodeOfConnectionUrl(masterPrivate, url) == Some(node) ==>
              url == SlaveConnectionUrl(masterPrivate, node)
  {
    var head := masterPrivate + "/computer/";
    var tail := "/slave-agent.jnlp";
    var u := SlaveConnectionUrl(masterPrivate, node);
    assert u == head + node + tail;
    assert u[..|head|] == head;
    assert u[|u| - |tail|..] == tail;
    assert u[|head|..|u| - |tail|] == node;
    if NodeOfConnectionUrl(masterPrivate, url) == Some(node) {
      assert url == url[..|head|] + url[|head|..|url| - |tail|] + url[|url| - |tail|..];
    }
  }

  /** `SLAVE_START_COMMAND.format(...)`. */
  function SlaveStartCommand(slavePath: string, connectionUrl: string, workDir: string): string {
    "java -jar " + slavePath + " -jnlpUrl " + connectionUrl + " -workDir \"" + workDir
      + "\" -failIfWorkDirIsMissing"
  }

  /** The connection URL of a start command for `slave.jar` and `workDir`, if it has that form. */
  function UrlOfStartCommand(command: string, workDir: string): Option<string> {
    var head := "java -jar " + LocalSlaveJarPath + " -jnlpUrl ";
    var tail := " -workDir \"" + workDir + "\" -failIfWorkDirIsMissing";
    if |head| + |tail| <= |command| && command[..|head|] == head
       && command[|command| - |tail|..] == tail
    then Some(command[|head|..|command| - |tail|])
    else None
  }

  /** The start command carries the connection URL it was built from, and nothing else does. */
  lemma StartCommandRoundTrip(url: string, workDir: string, command: string)
    ensures UrlOfStartCommand(SlaveStartCommand(LocalSlaveJarPath, url, workDir), workDir) == Some(url)
    ensures UrlOfStartCommand(command, workDir) == Some(url) ==>
              command == SlaveStartCommand(LocalSlaveJarPath, url, workDir)
  {
    var head := "java -jar " + LocalSlaveJarPath + " -jnlpUrl ";
    var tail := " -workDir \"" + workDir + "\" -failIfWorkDirIsMissing";
    var c := SlaveStartCommand(LocalSlaveJarPath, url, workDir);
    assert c == head + url + tail;
    assert c[..|head|] == head;
    assert c[|c| - |tail|..] == tail;
    assert c[|head|..|c| - |tail|] == url;
    if UrlOfStartCommand(command, workDir) == Some(url) {
      assert command == command[..|head|] + command[|head|..|command| - |tail|]
                        + command[|command| - |tail|..];
      assert command == head + url + tail;
    }
  }

  /**
   * `connect_to_master(node_name, master_private_url, work_dir)` up to the
   * `check_call`: rename the instance first, then launch the agent for that node.
   */
  function ConnectToMaster(nodeName: string, masterPrivate: string, workDir: string): (effects: seq<Effect>)
    ensures |effects| == 2 && effects[0] == Rename(nodeName) && effects[1].Launch?
    ensures UrlOfStartCommand(effects[1].command, workDir).Some?
    ensures NodeOfConnectionUrl(masterPrivate, UrlOfStartCommand(effects[1].command, workDir).value)
            == Some(nodeName)
  {
    var url := SlaveConnectionUrl(masterPrivate, nodeName);
    ConnectionUrlRoundTrip(masterPrivate, nodeName, url);
    StartCommandRoundTrip(url, workDir, SlaveStartCommand(LocalSlaveJarPath, url, workDir));
    [Rename(nodeName), Launch(SlaveStartCommand(LocalSlaveJarPath, url, workDir))]
  }

  // ---------------------------------------------------------------- paths

  /** Replacing characters commutes with taking a prefix or a suffix. */
  lemma ReplaceCharSlices(s: string, n: nat, x: char, y: char)
    requires n <= |s|
    ensures ReplaceChar(s, x, y)[..n] == ReplaceChar(s[..n], x, y)
    ensures ReplaceChar(s, x, y)[n..] == ReplaceChar(s[n..], x, y)
  {
  }

  /** Text without `x` is left alone by replacing `x`. */
  lemma ReplaceCharAbsent(s: string, x: char, y: char)
    requires x !in s
    ensures ReplaceChar(s, x, y) == s
  {
  }

  /** Replacing characters distributes over concatenation. */
  lemma ReplaceCharConcat(a: string, b: string, x: char, y: char)
    ensures ReplaceChar(a + b, x, y) == ReplaceChar(a, x, y) + ReplaceChar(b, x, y)
  {
    var whole, parts := ReplaceChar(a + b, x, y), ReplaceChar(a, x, y) + ReplaceChar(b, x, y);
    forall i | 0 <= i < |whole| ensures whole[i] == parts[i] {
      if i < |a| {
        assert (a + b)[i] == a[i];
      } else {
        assert (a + b)[i] == b[i - |a|];
      }
    }
  }

  /**
   * `os.path.join(master_url, AGENT_SLAVE_JAR_PATH).replace('\\', '/')`: the master URL
   * with its backslashes turned into `/`, then `/` unless the join added nothing,
   * then `jnlpJars/slave.jar`.
   */
  function JarUrl(system: string, masterUrl: string): (url: string)
    ensures '\\' !in url
    ensures var base := ReplaceChar(masterUrl, '\\', '/');
      && (url == base + AgentSlaveJarPath || url == base + "/" + AgentSlaveJarPath)
      && (url == base + AgentSlaveJarPath <==> JoinsWithoutSep(system, masterUrl))
  {
    var joined := PathJoin(system, masterUrl, AgentSlaveJarPath);
    var sep := [JoinSep(system)];
    ReplaceCharAbsent(AgentSlaveJarPath, '\\', '/');
    ReplaceCharConcat(masterUrl, AgentSlaveJarPath, '\\', '/');
    ReplaceCharConcat(masterUrl + sep, AgentSlaveJarPath, '\\', '/');
    ReplaceCharConcat(masterUrl, sep, '\\', '/');
    assert ReplaceChar(sep, '\\', '/') == "/";
    assert !JoinsWithoutSep(system, masterUrl) ==> joined == (masterUrl + sep) + AgentSlaveJarPath;
    ReplaceChar(joined, '\\', '/')
  }

  // ---------------------------------------------------------------- hardware profile

  /** `get_nvidia_smi_path()`: the name on the PATH if found, else the fixed install path if found. */
  function NvidiaSmiPath(which: string -> bool): (p: Option<string>)
    ensures which("nvidia-smi") ==> p == Some("nvidia-smi")
    ensures !which("nvidia-smi") && which(FixedNvidiaSmiPath) ==> p == Some(FixedNvidiaSmiPath)
    ensures p.None? <==> !which("nvidia-smi") && !which(FixedNvidiaSmiPath)
  {
    if which("nvidia-smi") then Some("nvidia-smi")
    else if which(FixedNvidiaSmiPath) then Some(FixedNvidiaSmiPath)
    else None
  }

  /** The number of lines that contain "GPU". */
  function GpuLines(lines: seq<string>): (n: nat)
    ensures n <= |lines|
  {
    if lines == [] then 0
    else GpuLines(lines[..|lines| - 1]) + (if Contains(lines[|lines| - 1], "GPU") then 1 else 0)
  }

  /** `get_num_gpus()` as a value: 0 without a usable `nvidia-smi`, else the GPU lines of its output. */
  function NumGpus(which: string -> bool, smiOutput: string): nat {
    var path := NvidiaSmiPath(which);
    if path.None? || !which(path.value) then 0 else GpuLines(Split(smiOutput, '\n'))
  }

  /** `get_num_gpus()`, counting in a loop over the output lines as the source does. */
  method GetNumGpus(which: string -> bool, smiOutput: string) returns (numGpus: nat)
    ensures numGpus == NumGpus(which, smiOutput)
    ensures NvidiaSmiPath(which).None? ==> numGpus == 0
    ensures numGpus <= |Split(smiOutput, '\n')|
  {
    var path := NvidiaSmiPath(which);
    if path.None? || !which(path.value) {
      return 0;
    }
    var lines := Split(smiOutput, '\n');
    numGpus := 0;
    for i := 0 to |lines|
      invariant numGpus == GpuLines(lines[..i])
    {
      assert lines[..i + 1][..i] == lines[..i];
      if Contains(lines[i], "GPU") {
        numGpus := numGpus + 1;
      }
    }
    assert lines[..|lines|] == lines;
  }

  /** An occurrence in `x` or in `y` is an occurrence in `x + "\n" + y`. */
  lemma OccursInPieces(x: string, y: string, p: string)
    ensures Contains(x, p) ==> Contains(x + "\n" + y, p)
    ensures Contains(y, p) ==> Contains(x + "\n" + y, p)
  {
    var s := x + "\n" + y;
    if Contains(x, p) {
      var i: nat :| OccursAt(x, p, i);
      assert s[i..i + |p|] == x[i..i + |p|];
      assert OccursAt(s, p, i);
    }
    if Contains(y, p) {
      var i: nat :| OccursAt(y, p, i);
      assert s[|x| + 1 + i..|x| + 1 + i + |p|] == y[i..i + |p|];
      assert OccursAt(s, p, |x| + 1 + i);
    }
  }

  /** An occurrence of text without a newline in `x + "\n" + y` lies in `x` or in `y`. */
  lemma OccursAcrossNewline(x: string, y: string, p: string)
    requires '\n' !in p
    ensures Contains(x + "\n" + y, p) ==> Contains(x, p) || Contains(y, p)
  {
    var s := x + "\n" + y;
    if Contains(s, p) {
      var i: nat :| OccursAt(s, p, i);
      assert forall j :: i <= j < i + |p| ==> s[j] == p[j - i] && s[j] != '\n';
      assert s[|x|] == '\n';
      assert i + |p| <= |x| || i > |x|;
      if i + |p| <= |x| {
        assert s[i..i + |p|] == x[i..i + |p|];
        assert OccursAt(x, p, i);
      } else {
        assert s[i..i + |p|] == y[i - |x| - 1..i - |x| - 1 + |p|];
        assert OccursAt(y, p, i - |x| - 1);
      }
    }
  }

  /** An occurrence of text without a newline lies within one line. */
  lemma {:induction false} OccursInJoin(parts: seq<string>, p: string)
    requires |parts| >= 1 && '\n' !in p
    ensures Contains(Join(parts, '\n'), p) <==> exists k :: 0 <= k < |parts| && Contains(parts[k], p)
    decreases |parts|
  {
    if |parts| > 1 {
      OccursInJoin(parts[1..], p);
      OccursInPieces(parts[0], Join(parts[1..], '\n'), p);
      OccursAcrossNewline(parts[0], Join(parts[1..], '\n'), p);
      assert Join(parts, '\n') == parts[0] + "\n" + Join(parts[1..], '\n');
      assert forall k :: 1 <= k < |parts| ==> parts[k] == parts[1..][k - 1];
      if exists k :: 0 <= k < |parts| && Contains(parts[k], p) {
        var k :| 0 <= k < |parts| && Contains(parts[k], p);
        if k > 0 {
          assert Contains(parts[1..][k - 1], p);
        }
      }
    }
  }

  /** Some line counts as a GPU exactly when one of the lines contains "GPU". */
  lemma {:induction false} GpuLinesPositive(lines: seq<string>)
    ensures GpuLines(lines) > 0 <==> exists k :: 0 <= k < |lines| && Contains(lines[k], "GPU")
    decreases |lines|
  {
    if lines != [] {
      var init := lines[..|lines| - 1];
      GpuLinesPositive(init);
      assert forall k :: 0 <= k < |init| ==> init[k] == lines[k];
    }
  }

  /**
   * With `nvidia-smi` found, the host has a GPU (`is_gpu_present`) exactly when its
   * output contains "GPU" anywhere: counting per line loses nothing.
   */
  lemma GpuPresentIffOutputMentionsGpu(which: string -> bool, smiOutput: string)
    requires NvidiaSmiPath(which).Some?
    ensures NumGpus(which, smiOutput) > 0 <==> Contains(smiOutput, "GPU")
  {
    var lines := Split(smiOutput, '\n');
    JoinSplit(smiOutput, '\n');
    OccursInJoin(lines, "GPU");
    GpuLinesPositive(lines);
  }

  /** `generate_node_label()` for a system and a GPU count. */
  function NodeLabel(system: string, numGpus: int): (r: Result<string, Error>)
    ensures r.Err? <==> system != "Windows" && system != "Linux"
    ensures r.Err? ==> r.error == UnsupportedSystem(system)
    ensures r.Ok? ==> r.value == "mxnet-" + (if system == "Windows" then "windows-" else "linux-")
                                 + (if numGpus > 0 then "gpu" else "cpu")
  {
    var labelPlatform := "mxnet-";
    if system == "Windows" || system == "Linux" then
      var labelPlatform := labelPlatform + (if system == "Windows" then "windows-" else "linux-");
      Ok(labelPlatform + (if numGpus > 0 then "gpu" else "cpu"))
    else
      Err(UnsupportedSystem(system))
  }

  /** Distinct hardware facts give distinct labels. */
  lemma NodeLabelInjective(s1: string, g1: int, s2: string, g2: int)
    requires NodeLabel(s1, g1).Ok? && NodeLabel(s2, g2).Ok?
    requires NodeLabel(s1, g1) == NodeLabel(s2, g2)
    ensures s1 == s2 && (g1 > 0 <==> g2 > 0)
  {
    var l1, l2 := NodeLabel(s1, g1).value, NodeLabel(s2, g2).value;
    assert l1[6] == (if s1 == "Windows" then 'w' else 'l');
    assert l2[6] == (if s2 == "Windows" then 'w' else 'l');
    assert l1[|l1| - 3] == (if g1 > 0 then 'g' else 'c');
    assert l2[|l2| - 3] == (if g2 > 0 then 'g' else 'c');
  }

  // ---------------------------------------------------------------- configuration

  /** `re.fullmatch('ci:(.+)', key)`: the group, when the key is `ci:` and one or more non-newlines. */
  function CiKey(key: string): Option<string> {
    if |key| > 3 && key[..3] == "ci:" && '\n' !in key[3..] then Some(key[3..]) else None
  }

  /** A tag key matches exactly when it is `ci:` followed by the configuration key it yields. */
  lemma CiKeyMeaning(key: string, k: string)
    ensures CiKey(key) == Some(k) <==> key == "ci:" + k && k != [] && '\n' !in k
  {
    if key == "ci:" + k {
      assert key[..3] == "ci:" && key[3..] == k;
    }
    if CiKey(key) == Some(k) {
      assert key == key[..3] + key[3..];
    }
  }

  /** The configuration the tags give, read from first to last so that later tags win. */
  function TagConfig(tags: seq<Tag>): map<string, string> {
    if tags == [] then map[]
    else
      var res := TagConfig(tags[..|tags| - 1]);
      var last := tags[|tags| - 1];
      match CiKey(last.key)
      case Some(k) => res[k := last.value]
      case None => res
  }

  /** `config_from_ec2_tags()` after the tags are read: fill `res` in a loop. */
  method ConfigFromTags(tags: seq<Tag>) returns (res: map<string, string>)
    ensures res == TagConfig(tags)
  {
    res := map[];
    for i := 0 to |tags|
      invariant res == TagConfig(tags[..i])
    {
      assert tags[..i + 1][..i] == tags[..i];
      var m := CiKey(tags[i].key);
      if m.Some? {
        res := res[m.value := tags[i].value];
      }
    }
    assert tags[..|tags|] == tags;
  }

  /**
   * A key is configured exactly when some tag yields it, and its value is that of the
   * last tag that yields it; tags that do not match are ignored.
   */
  lemma {:induction false} TagConfigMeaning(tags: seq<Tag>, k: string)
    ensures k in TagConfig(tags) <==> exists i :: 0 <= i < |tags| && CiKey(tags[i].key) == Some(k)
    ensures k in TagConfig(tags) ==>
      exists i :: 0 <= i < |tags| && CiKey(tags[i].key) == Some(k) && TagConfig(tags)[k] == tags[i].value
        && forall j :: i < j < |tags| ==> CiKey(tags[j].key) != Some(k)
    decreases |tags|
  {
    if tags != [] {
      var init := tags[..|tags| - 1];
      TagConfigMeaning(init, k);
      assert forall i :: 0 <= i < |init| ==> init[i] == tags[i];
      var last := |tags| - 1;
      if CiKey(tags[last].key) != Some(k) && k in TagConfig(tags) {
        var i :| 0 <= i < |init| && CiKey(init[i].key) == Some(k) && TagConfig(init)[k] == init[i].value
          && forall j :: i < j < |init| ==> CiKey(init[j].key) != Some(k);
        assert TagConfig(tags)[k] == tags[i].value;
      }
    }
  }

  /** `validate_config(cfg)`: the first missing key in source order fails its `assert`. */
  function ValidateConfig(cfg: map<string, string>): (r: Result<Unit, Error>)
    ensures r.Ok? <==> "master_url" in cfg && "master_private_url" in cfg && "node_name" in cfg
    ensures r.Err? ==> r.error.MissingConfig? && r.error.key !in cfg
  {
    if "master_url" !in cfg then Err(MissingConfig("master_url"))
    else if "master_private_url" !in cfg then Err(MissingConfig("master_private_url"))
    else if "node_name" !in cfg then Err(MissingConfig("node_name"))
    else Ok(Unit)
  }

  // ---------------------------------------------------------------- candidate slots

  /** `is_offline_node_matches_prefix(prefix, node)`. */
  predicate IsOfflineNodeMatchesPrefix(prefix: string, node: Node) {
    StartsWith(node.name, prefix) && node.offline
  }

  /** The names of the offline nodes whose names start with the label, in the master's order. */
  function OfflineMatching(prefix: string, nodes: seq<Node>): (names: seq<string>)
    ensures |names| <= |nodes|
    ensures forall x :: x in names <==>
      exists i :: 0 <= i < |nodes| && nodes[i].name == x && IsOfflineNodeMatchesPrefix(prefix, nodes[i])
  {
    if nodes == [] then []
    else
      var rest := OfflineMatching(prefix, nodes[1..]);
      assert forall i :: 0 < i < |nodes| ==> nodes[i] == nodes[1..][i - 1];
      assert forall i :: 0 <= i < |nodes| - 1 ==> nodes[1..][i] == nodes[i + 1];
      if IsOfflineNodeMatchesPrefix(prefix, nodes[0]) then [nodes[0].name] + rest else rest
  }

  /**
   * The candidate list before shuffling: exactly `[node_name]` when the tag is set,
   * else the offline nodes matching the derived label.
   */
  function Candidates(cfg: map<string, string>, env: Env): (r: Result<seq<string>, Error>)
    ensures "node_name" in cfg ==> r == Ok([cfg["node_name"]])
  {
    if "node_name" in cfg then Ok([cfg["node_name"]])
    else
      var label' :- NodeLabel(env.system, NumGpus(env.which, env.smiOutput));
      match env.nodes
      case None => Err(NodeListFailed)
      case Some(nodes) => Ok(OfflineMatching(label', nodes))
  }

  /** Once `validate_config` has passed, the auto-label branch is never taken. */
  lemma ValidatedConfigBypassesDirectory(cfg: map<string, string>, env: Env)
    requires ValidateConfig(cfg).Ok?
    ensures Candidates(cfg, env) == Ok([cfg["node_name"]])
  {
  }

  // ---------------------------------------------------------------- shuffle

  function Swap(s: seq<string>, i: nat, j: nat): (r: seq<string>)
    requires i < |s| && j < |s|
    ensures |r| == |s|
  {
    s[i := s[j]][j := s[i]]
  }

  /** `random.shuffle` from index `i` down to 1, swapping `x[i]` with `x[draws(i) % (i + 1)]`. */
  function ShuffleDown(s: seq<string>, i: nat, draws: nat -> nat): (r: seq<string>)
    requires i < |s|
    ensures |r| == |s|
    decreases i
  {
    if i == 0 then s else ShuffleDown(Swap(s, i, draws(i) % (i + 1)), i - 1, draws)
  }

  /** `random.shuffle(x)` with the given draws. */
  function Shuffled(s: seq<string>, draws: nat -> nat): (r: seq<string>)
    ensures |r| == |s|
  {
    if |s| <= 1 then s else ShuffleDown(s, |s| - 1, draws)
  }

  /** A swap keeps every element and its number of occurrences. */
  lemma SwapIsPermutation(s: seq<string>, i: nat, j: nat)
    requires i < |s| && j < |s|
    ensures multiset(Swap(s, i, j)) == multiset(s)
  {
  }

  /**
   * Whatever the random draws, the shuffled list is a permutation of the input:
   * the same names, each as often as before.
   */
  lemma {:induction false} ShuffledIsPermutation(s: seq<string>, draws: nat -> nat)
    ensures multiset(Shuffled(s, draws)) == multiset(s)
  {
    if |s| > 1 {
      ShuffleDownIsPermutation(s, |s| - 1, draws);
    }
  }

  lemma {:induction false} ShuffleDownIsPermutation(s: seq<string>, i: nat, draws: nat -> nat)
    requires i < |s|
    ensures multiset(ShuffleDown(s, i, draws)) == multiset(s)
    decreases i
  {
    if i > 0 {
      var j := draws(i) % (i + 1);
      SwapIsPermutation(s, i, j);
      ShuffleDownIsPermutation(Swap(s, i, j), i - 1, draws);
    }
  }

  /** `random.shuffle(x)` in place on an array. */
  method Shuffle(a: array<string>, draws: nat -> nat)
    modifies a
    ensures a[..] == Shuffled(old(a[..]), draws)
  {
    if a.Length <= 1 {
      return;
    }
    var i := a.Length - 1;
    while i > 0
      invariant 0 <= i < a.Length
      invariant ShuffleDown(a[..], i, draws) == Shuffled(old(a[..]), draws)
      decreases i
    {
      var j := draws(i) % (i + 1);
      ghost var before := a[..];
      var t := a[i];
      a[i] := a[j];
      a[j] := t;
      assert a[..] == Swap(before, i, j);
      i := i - 1;
    }
  }

  // ---------------------------------------------------------------- one run of autoconnect

  /** What one call of `autoconnect` did. */
  datatype Step = Step(outcome: Retry.Outcome<Unit, Error>, effects: seq<Effect>)

  /**
   * The connect loop from entry `k` of `count` entries: each entry renames to and
   * launches `node_name` (the configured name, not the entry). A launch whose agent
   * stays connected never gives control back; a nonzero exit raises at once; a zero
   * exit moves on; after the last entry the loop raises 'Could not connect to master'.
   */
  function ConnectLoop(nodeName: string, masterPrivate: string, workDir: string,
                       count: nat, exitCodes: nat -> Option<int>, k: nat): (Retry.Outcome<Unit, Error>, seq<Effect>)
    decreases count - k
  {
    if k >= count then (Retry.Raised(CouldNotConnect), [])
    else
      match exitCodes(k)
      case None => (Retry.Blocked, ConnectToMaster(nodeName, masterPrivate, workDir))
      case Some(code) =>
        if code != 0 then
          (Retry.Raised(LaunchFailed(code)), ConnectToMaster(nodeName, masterPrivate, workDir))
        else
          var rest := ConnectLoop(nodeName, masterPrivate, workDir, count, exitCodes, k + 1);
          (rest.0, ConnectToMaster(nodeName, masterPrivate, workDir) + rest.1)
  }

  /** The agent launches `lo` up to `hi` (excluded) all ended with exit status 0. */
  predicate AllExitedZero(exitCodes: nat -> Option<int>, lo: nat, hi: nat) {
    forall i :: lo <= i < hi ==> exitCodes(i) == Some(0)
  }

  /**
   * What the connect loop from entry `k` of `count` did, given as `r`: `n` renames to
   * `node_name`, each directly followed by its launch, with 1 <= n <= count - k; every
   * launch but the last exited 0; the last one decides the outcome. It is still
   * connected exactly when the daemon stays blocked; it exited nonzero exactly when
   * that status is raised as a launch failure; and 'Could not connect to master' is
   * raised exactly when all count - k launches were made and all exited 0.
   */
  predicate ConnectLoopShape(nodeName: string, masterPrivate: string, workDir: string,
                             count: nat, exitCodes: nat -> Option<int>, k: nat,
                             r: (Retry.Outcome<Unit, Error>, seq<Effect>))
  {
    var n := |r.1| / 2;
    && |r.1| % 2 == 0 && 1 <= n <= count - k
    && (forall i :: 0 <= i < n ==> r.1[2 * i..2 * i + 2] == ConnectToMaster(nodeName, masterPrivate, workDir))
    && AllExitedZero(exitCodes, k, k + n - 1)
    && (r.0 == Retry.Blocked || r.0 == Retry.Raised(CouldNotConnect) || (r.0.Raised? && r.0.error.LaunchFailed?))
    && (r.0 == Retry.Blocked <==> exitCodes(k + n - 1).None?)
    && (r.0.Raised? && r.0.error.LaunchFailed? <==>
          exitCodes(k + n - 1).Some? && exitCodes(k + n - 1).value != 0)
    && (r.0.Raised? && r.0.error.LaunchFailed? ==> r.0.error.code == exitCodes(k + n - 1).value)
    && (r.0 == Retry.Raised(CouldNotConnect) <==> n == count - k && AllExitedZero(exitCodes, k, count))
  }

  /** A launch that exited 0 in front of a loop of the right shape gives a loop of the right shape. */
  lemma ConnectLoopShapeStep(nodeName: string, masterPrivate: string, workDir: string,
                             count: nat, exitCodes: nat -> Option<int>, k: nat,
                             rest: (Retry.Outcome<Unit, Error>, seq<Effect>))
    requires exitCodes(k) == Some(0)
    requires ConnectLoopShape(nodeName, masterPrivate, workDir, count, exitCodes, k + 1, rest)
    ensures ConnectLoopShape(nodeName, masterPrivate, workDir, count, exitCodes, k,
                             (rest.0, ConnectToMaster(nodeName, masterPrivate, workDir) + rest.1))
  {
    var step := ConnectToMaster(nodeName, masterPrivate, workDir);
    var all := step + rest.1;
    assert |step| == 2;
    assert all[2..] == rest.1;
    forall i | 0 <= i < |all| / 2 ensures all[2 * i..2 * i + 2] == step {
      if i > 0 {
        assert all[2 * i..2 * i + 2] == all[2..][2 * (i - 1)..2 * (i - 1) + 2];
      }
    }
    assert AllExitedZero(exitCodes, k, count) <==> AllExitedZero(exitCodes, k + 1, count);
  }

  /** The connect loop stops at the first launch that does not exit 0, or after the last entry. */
  lemma {:induction false} ConnectLoopEffects(nodeName: string, masterPrivate: string, workDir: string,
                                              count: nat, exitCodes: nat -> Option<int>, k: nat)
    requires k < count
    ensures ConnectLoopShape(nodeName, masterPrivate, workDir, count, exitCodes, k,
                             ConnectLoop(nodeName, masterPrivate, workDir, count, exitCodes, k))
    decreases count - k
  {
    var step := ConnectToMaster(nodeName, masterPrivate, workDir);
    if exitCodes(k) == Some(0) {
      var rest := ConnectLoop(nodeName, masterPrivate, workDir, count, exitCodes, k + 1);
      if k + 1 < count {
        ConnectLoopEffects(nodeName, masterPrivate, workDir, count, exitCodes, k + 1);
        ConnectLoopShapeStep(nodeName, masterPrivate, workDir, count, exitCodes, k, rest);
      } else {
        assert step + rest.1 == step;
      }
    }
  }

  /**
   * The end of `autoconnect` once the list is shuffled: an empty list renames the
   * instance to 'error-no-free-slot' and raises; otherwise each entry looks up
   * `cfg['node_name']` and `cfg['master_private_url']` (a `KeyError` when absent)
   * and runs the connect loop.
   */
  function ClaimSlots(cfg: map<string, string>, workDir: string, order: seq<string>,
                      exitCodes: nat -> Option<int>): Step
  {
    if |order| == 0 then Step(Retry.Raised(NoFreeSlots), [Rename(NoFreeSlotName)])
    else if "node_name" !in cfg then Step(Retry.Raised(MissingKey("node_name")), [])
    else if "master_private_url" !in cfg then Step(Retry.Raised(MissingKey("master_private_url")), [])
    else
      var loop := ConnectLoop(cfg["node_name"], cfg["master_private_url"], workDir,
                              |order|, exitCodes, 0);
      Step(loop.0, loop.1)
  }

  /**
   * The claim phase never returns normally. An empty list launches nothing, leaves
   * the instance named 'error-no-free-slot' and raises. A non-empty list, with both
   * keys set, launches `node_name` at most once per entry, each launch directly after
   * renaming the instance to it, and stops at the first launch that stays connected
   * or exits nonzero; 'Could not connect to master' comes only after every entry was
   * launched and exited 0.
   */
  lemma ClaimSlotsOutcomes(cfg: map<string, string>, workDir: string, order: seq<string>,
                           exitCodes: nat -> Option<int>)
    ensures var s := ClaimSlots(cfg, workDir, order, exitCodes);
      && !s.outcome.Returned?
      && (order == [] ==> s == Step(Retry.Raised(NoFreeSlots), [Rename(NoFreeSlotName)]))
      && (order != [] && "node_name" !in cfg ==> s == Step(Retry.Raised(MissingKey("node_name")), []))
      && (order != [] && "node_name" in cfg && "master_private_url" in cfg ==>
            ConnectLoopShape(cfg["node_name"], cfg["master_private_url"], workDir, |order|, exitCodes, 0,
                             (s.outcome, s.effects)))
  {
    if order != [] && "node_name" in cfg && "master_private_url" in cfg {
      ConnectLoopEffects(cfg["node_name"], cfg["master_private_url"], workDir, |order|, exitCodes, 0);
    }
  }

  /** The directory the agent works in, `os.path.join(os.getcwd(), 'workspace')`. */
  function WorkDir(env: Env): string {
    PathJoin(env.system, env.cwd, "workspace")
  }

  /** The effects before the candidate list is built: the jar download and the two directories. */
  function Setup(env: Env, cfg: map<string, string>): seq<Effect>
    requires "master_url" in cfg
  {
    [Download(JarUrl(env.system, cfg["master_url"]), LocalSlaveJarPath),
     MakeDirs(WorkDir(env)), MakeDirs(PathJoin(env.system, WorkDir(env), "remoting"))]
  }

  /** One call of `autoconnect`, given the answers of the outside world. */
  function Attempt(env: Env): Step {
    match env.tags
    case MetadataDown => Step(Retry.Raised(MetadataUnavailable), [])
    case NoTagSet => Step(Retry.Raised(TagsNotIterable), [])
    case Tags(tags) =>
      var cfg := TagConfig(tags);
      match ValidateConfig(cfg)
      case Err(e) => Step(Retry.Raised(e), [])
      case Ok(_) => Validated(env, cfg)
  }

  /** The rest of `autoconnect` once `validate_config` has passed: download, directories, claim. */
  function Validated(env: Env, cfg: map<string, string>): Step
    requires ValidateConfig(cfg).Ok?
  {
    if !env.downloadOk then Step(Retry.Raised(DownloadFailed), Setup(env, cfg)[..1])
    else
      // validated, so `Candidates` is `[node_name]` and cannot fail
      var candidates := Candidates(cfg, env).value;
      var claim := ClaimSlots(cfg, WorkDir(env), Shuffled(candidates, env.draws), env.exitCodes);
      Step(claim.outcome, Setup(env, cfg) + claim.effects)
  }

  /** The connect loop of `autoconnect` over `count` shuffled entries. */
  method ConnectEach(nodeName: string, masterPrivate: string, workDir: string,
                     count: nat, exitCodes: nat -> Option<int>)
    returns (outcome: Retry.Outcome<Unit, Error>, effects: seq<Effect>)
    ensures (outcome, effects) == ConnectLoop(nodeName, masterPrivate, workDir, count, exitCodes, 0)
  {
    effects := [];
    for k := 0 to count
      invariant effects + ConnectLoop(nodeName, masterPrivate, workDir, count, exitCodes, k).1
             == ConnectLoop(nodeName, masterPrivate, workDir, count, exitCodes, 0).1
      invariant ConnectLoop(nodeName, masterPrivate, workDir, count, exitCodes, k).0
             == ConnectLoop(nodeName, masterPrivate, workDir, count, exitCodes, 0).0
    {
      effects := effects + ConnectToMaster(nodeName, masterPrivate, workDir);
      match exitCodes(k)
      case None =>
        // the agent is connected: `check_call` does not return while it runs
        return Retry.Blocked, effects;
      case Some(code) =>
        if code != 0 {
          return Retry.Raised(LaunchFailed(code)), effects;
        }
    }
    assert effects + [] == effects;
    outcome := Retry.Raised(CouldNotConnect);
  }

  /** The end of `autoconnect` over the shuffled array: the empty check, then the connect loop. */
  method Claim(cfg: map<string, string>, workDir: string, offlineNodes: array<string>,
               exitCodes: nat -> Option<int>) returns (outcome: Retry.Outcome<Unit, Error>, effects: seq<Effect>)
    ensures Step(outcome, effects) == ClaimSlots(cfg, workDir, offlineNodes[..], exitCodes)
  {
    if offlineNodes.Length == 0 {
      return Retry.Raised(NoFreeSlots), [Rename(NoFreeSlotName)];
    }
    if "node_name" !in cfg {
      return Retry.Raised(MissingKey("node_name")), [];
    }
    if "master_private_url" !in cfg {
      return Retry.Raised(MissingKey("master_private_url")), [];
    }
    outcome, effects := ConnectEach(cfg["node_name"], cfg["master_private_url"], workDir,
                                    offlineNodes.Length, exitCodes);
  }

  /** `autoconnect()` as the source runs it: shuffle the list in place, then loop over it. */
  method Autoconnect(env: Env) returns (outcome: Retry.Outcome<Unit, Error>, effects: seq<Effect>)
    ensures Step(outcome, effects) == Attempt(env)
  {
    if env.tags.MetadataDown? {
      return Retry.Raised(MetadataUnavailable), [];
    } else if env.tags.NoTagSet? {
      return Retry.Raised(TagsNotIterable), [];
    }
    var cfg := ConfigFromTags(env.tags.tags);
    var valid := ValidateConfig(cfg);
    if valid.Err? {
      return Retry.Raised(valid.error), [];
    }
    outcome, effects := RunValidated(env, cfg);
  }

  /** `autoconnect` after `validate_config`: fetch the jar, make the directories, shuffle and claim. */
  method RunValidated(env: Env, cfg: map<string, string>) returns (outcome: Retry.Outcome<Unit, Error>, effects: seq<Effect>)
    requires ValidateConfig(cfg).Ok?
    ensures Step(outcome, effects) == Validated(env, cfg)
  {
    effects := [Download(JarUrl(env.system, cfg["master_url"]), LocalSlaveJarPath)];
    if !env.downloadOk {
      return Retry.Raised(DownloadFailed), effects;
    }
    var workDir := PathJoin(env.system, env.cwd, "workspace");
    effects := effects + [MakeDirs(workDir), MakeDirs(PathJoin(env.system, workDir, "remoting"))];
    var candidates := Candidates(cfg, env).value;
    var offlineNodes := new string[|candidates|](i requires 0 <= i < |candidates| => candidates[i]);
    assert offlineNodes[..] == candidates;
    Shuffle(offlineNodes, env.draws);
    var claimEffects;
    outcome, claimEffects := Claim(cfg, workDir, offlineNodes, env.exitCodes);
    effects := effects + claimEffects;
  }

  /**
   * `autoconnect` never returns normally: every call ends in an exception, or stays
   * blocked in an agent launch whose agent remains connected.
   */
  lemma AttemptNeverReturns(env: Env)
    ensures !Attempt(env).outcome.Returned?
    ensures Attempt(env).outcome.Blocked? ==>
      env.tags.Tags? && ValidateConfig(TagConfig(env.tags.tags)).Ok? && env.downloadOk
  {
    match env.tags
    case Tags(tags) =>
      var cfg := TagConfig(tags);
      if ValidateConfig(cfg).Ok? && env.downloadOk {
        ClaimSlotsOutcomes(cfg, WorkDir(env), Shuffled(Candidates(cfg, env).value, env.draws),
                           env.exitCodes);
      }
    case _ =>
  }

  /**
   * With the tags read, validated and the jar downloaded, one call renames the
   * instance to `node_name` and launches the agent for it exactly once (the list is
   * `[node_name]`, so the no-free-slot branch is never taken). It stays blocked while
   * the agent is connected, raises the launch failure when the exit status is
   * nonzero, and raises 'Could not connect to master' when it is zero.
   */
  lemma AttemptOutcomes(env: Env, cfg: map<string, string>)
    requires env.tags.Tags? && cfg == TagConfig(env.tags.tags)
    requires ValidateConfig(cfg).Ok? && env.downloadOk
    ensures Attempt(env) == Validated(env, cfg)
    ensures var s := Validated(env, cfg);
      && s.effects == Setup(env, cfg)
                      + ConnectToMaster(cfg["node_name"], cfg["master_private_url"], WorkDir(env))
      && s.outcome == match env.exitCodes(0)
                      case None => Retry.Blocked
                      case Some(code) =>
                        if code != 0 then Retry.Raised(LaunchFailed(code)) else Retry.Raised(CouldNotConnect)
  {
    var node := cfg["node_name"];
    var workDir := WorkDir(env);
    var step := ConnectToMaster(node, cfg["master_private_url"], workDir);
    assert Candidates(cfg, env) == Ok([node]);
    var order := Shuffled([node], env.draws);
    assert order == [node];
    var loop := ConnectLoop(node, cfg["master_private_url"], workDir, 1, env.exitCodes, 0);
    var after := ConnectLoop(node, cfg["master_private_url"], workDir, 1, env.exitCodes, 1);
    assert after == (Retry.Raised(CouldNotConnect), []);
    assert env.exitCodes(0) == Some(0) ==> loop == (after.0, step + after.1);
    assert step + [] == step;
    assert ClaimSlots(cfg, workDir, order, env.exitCodes) == Step(loop.0, loop.1);
  }

  // ---------------------------------------------------------------- the retried daemon

  /** The outcomes of the successive calls of `autoconnect`, the k-th in `envs(k)`. */
  function Attempts(envs: nat -> Env): nat -> Retry.Outcome<Unit, Error> {
    (k: nat) => Attempt(envs(k)).outcome
  }

  /** `retry(Exception, ...)`: every error of the model is an `Exception`. */
  function CatchesException(): Error -> bool {
    (e: Error) => true
  }

  /** The 2000-try retry around `autoconnect`, catching every `Exception`. */
  function AutoconnectRun(envs: nat -> Env): Retry.Run<Unit, Error> {
    Retry.Spec(Tries, DelaySeconds, Backoff, Attempts(envs), CatchesException())
  }

  /**
   * The retried `autoconnect` never returns normally. It calls the body 1 to 2000
   * times and sleeps `2 ** i` seconds after the i-th failure. Every call but the last
   * raised. It stops early only in a call whose agent stays connected; otherwise the
   * exception of the 2000th call propagates.
   */
  lemma AutoconnectRunOutcome(envs: nat -> Env)
    ensures var r := AutoconnectRun(envs);
      && !r.result.Returned?
      && 1 <= r.calls <= Tries && r.result == Attempt(envs(r.calls - 1)).outcome
      && (forall k :: 0 <= k < r.calls - 1 ==> Attempt(envs(k)).outcome.Raised?)
      && (r.calls < Tries ==> r.result.Blocked?)
      && |r.sleeps| == r.calls - 1
      && forall i :: 0 <= i < |r.sleeps| ==> r.sleeps[i] == Retry.Pow(Backoff, i)
  {
    var attempt := Attempts(envs);
    forall k: nat ensures !attempt(k).Returned? {
      AttemptNeverReturns(envs(k));
    }
    Retry.CatchingAllAroundNoReturn(Tries, DelaySeconds, Backoff, attempt, CatchesException());
    var r := AutoconnectRun(envs);
    forall k | 0 <= k < r.calls - 1 ensures Attempt(envs(k)).outcome.Raised? {
      assert attempt(k).Raised?;
    }
  }

  /**
   * When no agent launch stays connected, the retried `autoconnect` calls the body
   * 2000 times, sleeps `2 ** i` seconds after the i-th failure, and lets the exception
   * of the last call propagate.
   */
  lemma AutoconnectAlwaysRaises(envs: nat -> Env)
    requires forall k: nat, j: nat :: k < Tries ==> envs(k).exitCodes(j).Some?
    ensures var r := AutoconnectRun(envs);
      && r.result.Raised? && r.result == Attempt(envs(Tries - 1)).outcome
      && r.calls == Tries && |r.sleeps| == Tries - 1
      && forall i :: 0 <= i < |r.sleeps| ==> r.sleeps[i] == Retry.Pow(Backoff, i)
  {
    AutoconnectRunOutcome(envs);
    var r := AutoconnectRun(envs);
    AttemptEndsWhenLaunchesEnd(envs(r.calls - 1));
  }

  /** A call of `autoconnect` whose agent launches all end does not stay blocked. */
  lemma AttemptEndsWhenLaunchesEnd(env: Env)
    requires forall j: nat :: env.exitCodes(j).Some?
    ensures !Attempt(env).outcome.Blocked?
  {
    match env.tags
    case Tags(tags) =>
      var cfg := TagConfig(tags);
      if ValidateConfig(cfg).Ok? && env.downloadOk {
        var order := Shuffled(Candidates(cfg, env).value, env.draws);
        ClaimSlotsOutcomes(cfg, WorkDir(env), order, env.exitCodes);
        var s := ClaimSlots(cfg, WorkDir(env), order, env.exitCodes);
        if order != [] {
          assert env.exitCodes(|s.effects| / 2 - 1).Some?;
        }
      }
    case _ =>
  }

  /** The effects of calls `k` up to `calls` of the retried body, each failure followed by its sleep. */
  function RunEffects(envs: nat -> Env, calls: nat, sleeps: seq<int>, k: nat): seq<Effect>
    decreases calls - k
  {
    if k >= calls then []
    else Attempt(envs(k)).effects + (if k < |sleeps| then [Sleep(sleeps[k])] else [])
         + RunEffects(envs, calls, sleeps, k + 1)
  }

  /** What `main` did: whether it daemonized, its trace, and its return value or exception. */
  datatype MainRun = MainRun(daemonized: bool, effects: seq<Effect>, outcome: Retry.Outcome<int, Error>)

  /** `not args.foreground and platform.system() != 'Windows'`. */
  predicate ShouldDaemonize(foreground: bool, system: string) {
    !foreground && system != "Windows"
  }

  /** `main()`: maybe daemonize, run the retried `autoconnect`, then mark too many attempts. */
  function Main(foreground: bool, system: string, envs: nat -> Env): MainRun {
    var daemonized := ShouldDaemonize(foreground, system);
    var r := AutoconnectRun(envs);
    var trace := (if daemonized then [Daemonize] else []) + RunEffects(envs, r.calls, r.sleeps, 0);
    match r.result
    case Returned(_) => MainRun(daemonized, trace + [Rename(TooManyAttemptsName)], Retry.Returned(0))
    case Raised(e) => MainRun(daemonized, trace, Retry.Raised(e))
    case Blocked => MainRun(daemonized, trace, Retry.Blocked)
  }

  /**
   * `main` never reaches its 'error-too-many-attempts' rename: it stays blocked with
   * the agent connected, or the exception of the last attempt leaves `main`. Its
   * trace is the daemon's and the retried attempts' and nothing more.
   */
  lemma MainNeverMarksTooManyAttempts(foreground: bool, system: string, envs: nat -> Env)
    ensures var m := Main(foreground, system, envs);
      var r := AutoconnectRun(envs);
      && !m.outcome.Returned?
      && (m.outcome.Blocked? <==> r.result.Blocked?)
      && m.daemonized == (!foreground && system != "Windows")
      && m.effects == (if m.daemonized then [Daemonize] else [])
                      + RunEffects(envs, r.calls, r.sleeps, 0)
  {
    AutoconnectRunOutcome(envs);
  }

  // ---------------------------------------------------------------- signals

  datatype Signal = SIGHUP | SIGTERM | SIGUSR1 | SIGTTIN | SIGTSTP | SIGTTOU | Other(number: int)

  /** What `config_signal_handlers` installs for a signal; `None` leaves the default. */
  datatype Disposition = Ignore | CallCleanup | CallReload

  function SignalDisposition(s: Signal): Option<Disposition> {
    match s
    case SIGHUP => Some(Ignore)
    case SIGTERM => Some(CallCleanup)
    case SIGUSR1 => Some(CallReload)
    case SIGTTIN => Some(Ignore)
    case SIGTSTP => Some(Ignore)
    case SIGTTOU => Some(Ignore)
    case Other(_) => None
  }

  /**
   * Delivering a handled signal: ignored ones do nothing; `cleanup` and `reload_config`
   * take no parameters while Python calls a handler with two, so delivering SIGTERM or
   * SIGUSR1 raises a `TypeError` where the daemon happens to be.
   */
  function Deliver(s: Signal): (r: Option<Error>)
    requires SignalDisposition(s).Some?
    ensures r.Some? <==> s == SIGTERM || s == SIGUSR1
    ensures r.Some? ==> r.value == HandlerArity
  {
    match SignalDisposition(s).value
    case Ignore => None
    case CallCleanup => Some(HandlerArity)
    case CallReload => Some(HandlerArity)
  }
}
