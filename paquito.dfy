/**
 * The decisions of the Paquito AMI tool: pairing the flat user-data list, merging
 * command-line values into the launch template, resolving an Ubuntu release to
 * an AMI, the arguments of the image creation, and which instances the
 * provisioning stops when it ends.
 *
 * The launch template is the dictionary the YAML file loaded into; the parsed
 * command line is the function from attribute name to value.
 */
module Paquito {
  import opened Base
  import opened Text
  import opened Values
  import AwsUtils

  /** The exceptions the modelled code raises. */
  datatype PaquitoError =
    | AssertionError
    | NameError(name: string)
    | KeyError(key: string)
    | TypeError
    | Aws(error: AwsUtils.AwsError)

  // ---------------------------------------------------------------- group_user_data and flatten

  /** `[x0, x1, x2, x3, ...]` grouped as `[(x0, x1), (x2, x3), ...]`; a last odd element is dropped. */
  function Pairs<T>(xs: seq<T>): (ps: seq<(T, T)>)
    ensures |ps| == |xs| / 2
    ensures forall i :: 0 <= i < |ps| ==> ps[i] == (xs[2 * i], xs[2 * i + 1])
  {
    if |xs| < 2 then [] else [(xs[0], xs[1])] + Pairs(xs[2..])
  }

  /** `list(itertools.chain.from_iterable(xss))`. */
  function Flatten<T>(xss: seq<seq<T>>): (xs: seq<T>)
  {
    if xss == [] then [] else xss[0] + Flatten(xss[1..])
  }

  /** Each pair as the two-element sequence `chain` iterates over. */
  function PairSeqs<T>(ps: seq<(T, T)>): (xss: seq<seq<T>>)
    ensures |xss| == |ps|
    ensures forall i :: 0 <= i < |ps| ==> xss[i] == [ps[i].0, ps[i].1]
  {
    seq(|ps|, i requires 0 <= i < |ps| => [ps[i].0, ps[i].1])
  }

  /** Flattening distributes over concatenation. */
  lemma {:induction false} FlattenAppend<T>(a: seq<seq<T>>, b: seq<seq<T>>)
    ensures Flatten(a + b) == Flatten(a) + Flatten(b)
    decreases |a|
  {
    if a != [] {
      assert (a + b)[1..] == a[1..] + b;
      FlattenAppend(a[1..], b);
    } else {
      assert a + b == b;
    }
  }

  /** Flattening the pairs of an even-length list gives the list back. */
  lemma {:induction false} FlattenPairs<T>(xs: seq<T>)
    requires |xs| % 2 == 0
    ensures Flatten(PairSeqs(Pairs(xs))) == xs
    decreases |xs|
  {
    if |xs| >= 2 {
      FlattenPairs(xs[2..]);
      var ps := Pairs(xs);
      assert ps == [(xs[0], xs[1])] + Pairs(xs[2..]);
      assert PairSeqs(ps) == [[xs[0], xs[1]]] + PairSeqs(Pairs(xs[2..]));
      assert xs == [xs[0], xs[1]] + xs[2..];
    }
  }

  /** Pairing the flattening of a list of pairs gives the pairs back. */
  lemma {:induction false} PairsFlatten<T>(ps: seq<(T, T)>)
    ensures Pairs(Flatten(PairSeqs(ps))) == ps
    decreases |ps|
  {
    if ps != [] {
      PairsFlatten(ps[1..]);
      assert PairSeqs(ps) == [[ps[0].0, ps[0].1]] + PairSeqs(ps[1..]);
      var xs := Flatten(PairSeqs(ps));
      assert xs == [ps[0].0, ps[0].1] + Flatten(PairSeqs(ps[1..]));
      assert xs[2..] == Flatten(PairSeqs(ps[1..]));
    }
  }

  /**
   * `group_user_data` as it stands: the assertion rejects an odd length, and
   * every even-length list reaches `deque`, a name the module never binds.
   */
  function GroupUserDataAsWritten<T>(xs: seq<T>): (r: Result<seq<(T, T)>, PaquitoError>)
  {
    if |xs| % 2 != 0 then Err(AssertionError) else Err(NameError("deque"))
  }

  /**
   * No input makes the function as written return: every list raises, an
   * even-length one (the empty list and a single pair among them) at `deque`.
   */
  lemma GroupUserDataNeverReturns()
    ensures forall xs: seq<string> :: GroupUserDataAsWritten(xs).Err?
    ensures forall xs: seq<string> :: |xs| % 2 == 0 ==> GroupUserDataAsWritten(xs) == Err(NameError("deque"))
    ensures GroupUserDataAsWritten<string>([]) == Err(NameError("deque"))
    ensures GroupUserDataAsWritten(["user-data.sh", "text/x-shellscript"]) == Err(NameError("deque"))
    ensures Pairs(["user-data.sh", "text/x-shellscript"]) == [("user-data.sh", "text/x-shellscript")]
  {
  }

  /**
   * `group_user_data` with its queue bound: consume the list two elements at a
   * time from the front.
   */
  method GroupUserData<T>(xs: seq<T>) returns (r: Result<seq<(T, T)>, PaquitoError>)
    ensures |xs| % 2 != 0 ==> r == Err(AssertionError)
    ensures |xs| % 2 == 0 ==> r == Ok(Pairs(xs))
  {
    if |xs| % 2 != 0 {
      return Err(AssertionError);
    }
    var q := xs;
    var res: seq<(T, T)> := [];
    while q != []
      invariant |q| % 2 == 0
      invariant res + Pairs(q) == Pairs(xs)
      decreases |q|
    {
      var first := q[0];
      q := q[1..];
      var second := q[0];
      q := q[1..];
      assert Pairs([first, second] + q) == [(first, second)] + Pairs(q) by {
        assert ([first, second] + q)[2..] == q;
      }
      res := res + [(first, second)];
    }
    assert res + Pairs(q) == res;
    r := Ok(res);
  }

  // ---------------------------------------------------------------- main: template merge

  /** The options `main` copies into the launch template, in the order it visits them. */
  const CliKeys := ["username", "ssh-key-file", "ssh-key-name", "keep-instance", "instance-type"]

  /** The attribute argparse stores an option under: `arg.replace('-', '_')`. */
  function ArgName(key: string): (name: string)
    ensures |name| == |key| && '-' !in name
  {
    ReplaceChar(key, '-', '_')
  }

  /**
   * `template` after visiting `keys`: a key the template lacks takes the
   * command line's value when that value is truthy; nothing present is replaced.
   */
  function MergeKeys(template: map<string, Value>, keys: seq<string>, args: string -> Value): (m: map<string, Value>)
    ensures forall k :: k in m <==> k in template || (k in keys && Truthy(args(ArgName(k))))
    ensures forall k :: k in template ==> m[k] == template[k]
    ensures forall k :: k in m && k !in template ==> m[k] == args(ArgName(k))
    decreases |keys|
  {
    if keys == [] then template
    else
      var k := keys[0];
      var step := if k !in template && Truthy(args(ArgName(k))) then template[k := args(ArgName(k))] else template;
      MergeKeys(step, keys[1..], args)
  }

  /** The merge loop of `main`, which runs it over `CliKeys`. */
  method MergeArgs(template: map<string, Value>, options: seq<string>, args: string -> Value)
    returns (merged: map<string, Value>)
    ensures merged == MergeKeys(template, options, args)
  {
    merged := template;
    var keys := options;
    while keys != []
      invariant MergeKeys(merged, keys, args) == MergeKeys(template, options, args)
      decreases |keys|
    {
      var arg := keys[0];
      var argName := ArgName(arg);
      MergeKeysStep(merged, keys, args);
      if arg !in merged && Truthy(args(argName)) {
        merged := merged[arg := args(argName)];
      }
      keys := keys[1..];
    }
  }

  /** One step of the merge: the first key is settled, then the rest. */
  lemma MergeKeysStep(m: map<string, Value>, keys: seq<string>, args: string -> Value)
    requires keys != []
    ensures MergeKeys(m, keys, args)
            == MergeKeys(if keys[0] !in m && Truthy(args(ArgName(keys[0]))) then m[keys[0] := args(ArgName(keys[0]))] else m,
                         keys[1..], args)
  {
  }

  /**
   * With `--keep-instance` unset and no such key in the file, the merged
   * template has no `keep-instance` key: a false flag is never copied.
   */
  lemma KeepInstanceCanBeAbsent(template: map<string, Value>, args: string -> Value)
    requires "keep-instance" !in template && !Truthy(args("keep_instance"))
    ensures "keep-instance" !in MergeKeys(template, CliKeys, args)
  {
    assert ArgName("keep-instance") == "keep_instance";
  }

  /** `main`: `ami` becomes the lookup of the `ubuntu` release when the template names one. */
  function ResolveAmi(template: map<string, Value>, rows: seq<seq<string>>, region: string)
    : (r: Result<map<string, Value>, PaquitoError>)
    ensures "ubuntu" !in template ==> r == Ok(template)
    ensures "ubuntu" in template && template["ubuntu"].VStr? ==>
              var ami := AwsUtils.GetUbuntuAmi(rows, region, template["ubuntu"].s, "amd64", "hvm:ebs-ssd");
              && (ami.Ok? ==> r == Ok(template["ami" := VStr(ami.value)]))
              && (ami.Err? ==> r == Err(Aws(ami.error)))
    ensures "ubuntu" in template && !template["ubuntu"].VStr? ==> r == Err(TypeError)
  {
    if "ubuntu" !in template then Ok(template)
    else
      match template["ubuntu"]
      case VStr(release) =>
        (match AwsUtils.GetUbuntuAmi(rows, region, release, "amd64", "hvm:ebs-ssd")
         case Ok(ami) => Ok(template["ami" := VStr(ami)])
         case Err(e) => Err(Aws(e)))
      case _ => Err(TypeError)
  }

  /**
   * On a well-formed release table, an `ubuntu` release either fails with
   * `IndexError`, exactly when no row is wanted, or sets `ami`, and only `ami`,
   * to the identifier in the first wanted row's link.
   */
  lemma ResolveUbuntuAmi(template: map<string, Value>, rows: seq<seq<string>>, region: string, release: string)
    requires forall i :: 0 <= i < |rows| ==> |rows[i]| >= 7
    requires "ubuntu" in template && template["ubuntu"] == VStr(release)
    ensures var r := ResolveAmi(template, rows, region);
      && (r == Err(Aws(AwsUtils.IndexError)) <==>
            forall i :: 0 <= i < |rows| ==> !AwsUtils.IsWanted(rows[i], region, release, "amd64", "hvm:ebs-ssd"))
      && (r.Ok? ==>
            && r.value.Keys == template.Keys + {"ami"}
            && (forall k :: k in template && k != "ami" ==> r.value[k] == template[k])
            && exists i :: (0 <= i < |rows| && r.value["ami"] == VStr(AwsUtils.StripTags(rows[i][6]))
                            && AwsUtils.IsWanted(rows[i], region, release, "amd64", "hvm:ebs-ssd")
                            && forall j :: 0 <= j < i ==> !AwsUtils.IsWanted(rows[j], region, release, "amd64", "hvm:ebs-ssd")))
  {
    AwsUtils.UbuntuAmiSelection(rows, region, release, "amd64", "hvm:ebs-ssd");
  }

  // ---------------------------------------------------------------- _create_ami_image

  /**
   * The keyword arguments `_create_ami_image` hands to `create_image`: the
   * template's block device mappings and `NoReboot = not reboot`, completed with
   * the instance, name and description.
   */
  function CreateAmiImageArgs(instanceId: string, imageName: string, imageDescription: string,
                              template: map<string, Value>, reboot: bool)
    : (r: Result<map<string, Value>, PaquitoError>)
    ensures "CreateInstanceArgs" !in template ==> r == Err(KeyError("CreateInstanceArgs"))
    ensures r.Ok? <==> "CreateInstanceArgs" in template && template["CreateInstanceArgs"].VDict?
                       && "BlockDeviceMappings" in template["CreateInstanceArgs"].entries
    ensures r.Ok? ==>
              && r.value.Keys == {"BlockDeviceMappings", "NoReboot", "InstanceId", "Name", "Description"}
              && r.value["BlockDeviceMappings"] == template["CreateInstanceArgs"].entries["BlockDeviceMappings"]
              && r.value["NoReboot"] == VBool(!reboot)
              && r.value["InstanceId"] == VStr(instanceId)
              && r.value["Name"] == VStr(imageName)
              && r.value["Description"] == VStr(imageDescription)
  {
    if "CreateInstanceArgs" !in template then Err(KeyError("CreateInstanceArgs"))
    else
      match template["CreateInstanceArgs"]
      case VDict(createArgs) =>
        if "BlockDeviceMappings" !in createArgs then Err(KeyError("BlockDeviceMappings"))
        else
          var imageArgs := map["BlockDeviceMappings" := createArgs["BlockDeviceMappings"],
                               "NoReboot" := VBool(!reboot)];
          Ok(AwsUtils.CreateImageKwargs(instanceId, imageName, imageDescription, imageArgs))
      case _ => Err(TypeError)
  }

  // ---------------------------------------------------------------- _provision: the finally clause

  /** What the `finally` of `_provision` did: the instances it stopped and how `_provision` ended. */
  datatype Ending = Ending(stopped: seq<string>, outcome: Result<Unit, PaquitoError>)

  /**
   * The `finally` clause as it stands, after the body ended with `body`: the
   * lookup `launch_template['keep-instance']` raises when the key is missing,
   * replacing the body's outcome and stopping nothing.
   */
  function ProvisionEndingAsWritten(template: map<string, Value>, instances: seq<string>,
                                   body: Result<Unit, PaquitoError>): Ending
  {
    if "keep-instance" !in template then Ending([], Err(KeyError("keep-instance")))
    else if !Truthy(template["keep-instance"]) then Ending(instances, body)
    else Ending([], body)
  }

  /**
   * A template file without `keep-instance`, run without `--keep-instance`: the
   * provisioning fails with `KeyError` even when every step succeeded, and the
   * instances it launched keep running.
   */
  lemma ProvisionLeaksInstances(template: map<string, Value>, args: string -> Value, instances: seq<string>)
    requires "keep-instance" !in template && !Truthy(args("keep_instance"))
    ensures var e := ProvisionEndingAsWritten(MergeKeys(template, CliKeys, args), instances, Ok(Unit));
      e.stopped == [] && e.outcome == Err(KeyError("keep-instance"))
  {
    KeepInstanceCanBeAbsent(template, args);
  }

  /** `template.get('keep-instance', False)`. */
  function KeepInstance(template: map<string, Value>): Value {
    if "keep-instance" in template then template["keep-instance"] else VBool(false)
  }

  /** The `finally` clause with a missing key read as False, as the `store_true` option's default. */
  function ProvisionEnding(template: map<string, Value>, instances: seq<string>,
                           body: Result<Unit, PaquitoError>): (e: Ending)
    ensures e.outcome == body
    ensures e.stopped == instances || e.stopped == []
  {
    if !Truthy(KeepInstance(template)) then Ending(instances, body) else Ending([], body)
  }

  /**
   * The instances are stopped, whatever the body did, exactly when the merged
   * template does not ask to keep them; with a present key the two readings agree.
   */
  lemma ProvisionStopsUnlessKept(template: map<string, Value>, args: string -> Value,
                                 instances: seq<string>, body: Result<Unit, PaquitoError>)
    requires instances != []
    ensures var merged := MergeKeys(template, CliKeys, args);
      && (ProvisionEnding(merged, instances, body).stopped == instances <==>
            ("keep-instance" in template ==> !Truthy(template["keep-instance"]))
            && ("keep-instance" !in template ==> !Truthy(args("keep_instance"))))
      && ("keep-instance" in merged ==> ProvisionEnding(merged, instances, body)
                                        == ProvisionEndingAsWritten(merged, instances, body))
  {
    assert ArgName("keep-instance") == "keep_instance";
    assert "keep-instance" in CliKeys;
  }
}
