/**
 * Client virtual machines on a provisioning server (`robottelo/vm.py`).
 *
 * A `VirtualMachine` is created with `snap-guest` on the provisioning
 * server, found on the network with `ping`, used through remote commands,
 * and torn down with `virsh` and `rm`. Every remote command goes through
 * `Command`, an oracle that answers with an arbitrary result and records the
 * call and its answer in the ghost `log`, so the contracts below say exactly
 * which commands are sent, in which order, to which host.
 *
 * Python exceptions are returned: an `Outcome` for an operation that returns
 * nothing, a `Result` for one that returns a value.
 */
module Vm {
  import opened Wrappers
  import opened Text
  import opened Ssh

  /** The base images a virtual machine can be cloned from (`BASE_IMAGES`). */
  const BaseImages: seq<string> := ["rhel65", "rhel66", "rhel70", "rhel71"]

  /** Where images live when neither the argument nor the configuration says. */
  const DefaultImageDir: string := "/var/lib/libvirt/images/"

  const ProvisioningServerKey: string := "clients.provisioning_server"
  const ImageDirKey: string := "clients.image_dir"
  const ServerHostnameKey: string := "main.server.hostname"

  /** The configuration store (`conf.properties`), passed in explicitly. */
  type Config = map<string, string>

  /** The exceptions the operations raise. */
  datatype Error =
    | VirtualMachineError(message: string)
      /** `output.split('(')[1]` on ping output that holds no `(` */
    | IndexError
      /** `os.path.join(None, ...)` when `image_dir` is None */
    | TypeError
      /** `conf.properties[key]` for a missing key */
    | KeyError(key: string)

  datatype Outcome = Pass | Fail(error: Error)

  datatype Result<T> = Success(value: T) | Failure(error: Error)

  function UnsupportedDistroMessage(distro: string): string
  {
    distro + " is not a supported distro. Choose one of " + Join(BaseImages, ", ")
  }

  const MissingServerMessage: string :=
    "A provisioning server must be provided. Make sure to fill " +
    "\"provisioning_server\" on clients section of your robottelo " +
    "configuration. Or provide a not None provisioning_server " +
    "argument."

  function SnapGuestFailureMessage(stderr: string): string
  {
    "Failed to run snap-guest: " + stderr
  }

  const IpLookupFailureMessage: string := "Failed to fetch virtual machine IP address information"

  const NotCreatedMessage: string :=
    "The virtual machine should be created before running any ssh command"

  // ---------------------------------------------------------------------
  // Construction: settings resolution
  // ---------------------------------------------------------------------

  /** What `__init__` settles on, once every check has passed. */
  datatype Settings = Settings(
    cpu: int,
    ram: int,
    distro: string,
    provisioningServer: string,
    imageDir: Option<string>)

  /**
   * One setting: the argument when given, else the configuration value,
   * else `default` (`conf.properties.get(key, default)`).
   */
  function Resolve(arg: Option<string>, config: Config, key: string, default: Option<string>): (r: Option<string>)
    ensures arg.Some? ==> r == arg
    ensures arg.None? && key in config ==> r == Some(config[key])
    ensures arg.None? && key !in config ==> r == default
  {
    if arg.Some? then arg else if key in config then Some(config[key]) else default
  }

  /** The distro asked for; the last base image when none is. */
  function ChosenDistro(distro: Option<string>): string
  {
    distro.GetOr(BaseImages[|BaseImages| - 1])
  }

  /**
   * The checks and defaults of `__init__`, in its order: the distro first,
   * then the provisioning server; the image directory cannot fail.
   */
  function ResolveSettings(cpu: int, ram: int, distro: Option<string>, provisioningServer: Option<string>,
                           imageDir: Option<string>, config: Config): (r: Result<Settings>)
    ensures r.Success? <==>
              ChosenDistro(distro) in BaseImages &&
              (provisioningServer.Some? || ProvisioningServerKey in config)
    ensures ChosenDistro(distro) !in BaseImages ==>
              r == Failure(VirtualMachineError(UnsupportedDistroMessage(ChosenDistro(distro))))
    ensures ChosenDistro(distro) in BaseImages && provisioningServer.None? && ProvisioningServerKey !in config ==>
              r == Failure(VirtualMachineError(MissingServerMessage))
    ensures r.Success? ==>
              && r.value.cpu == cpu && r.value.ram == ram
              && r.value.distro == ChosenDistro(distro) && r.value.distro in BaseImages
              && Some(r.value.provisioningServer) == Resolve(provisioningServer, config, ProvisioningServerKey, None)
              && r.value.imageDir == Resolve(imageDir, config, ImageDirKey, Some(DefaultImageDir))
              && r.value.imageDir.Some?
  {
    var d := ChosenDistro(distro);
    if d !in BaseImages then
      Failure(VirtualMachineError(UnsupportedDistroMessage(d)))
    else
      var server := Resolve(provisioningServer, config, ProvisioningServerKey, None);
      if server.None? then
        Failure(VirtualMachineError(MissingServerMessage))
      else
        Success(Settings(cpu, ram, d, server.value, Resolve(imageDir, config, ImageDirKey, Some(DefaultImageDir))))
  }

  /** Without a distro, the virtual machine is cloned from `rhel71`. */
  lemma DefaultDistro(cpu: int, ram: int, provisioningServer: Option<string>, imageDir: Option<string>, config: Config)
    requires provisioningServer.Some? || ProvisioningServerKey in config
    ensures ResolveSettings(cpu, ram, None, provisioningServer, imageDir, config).Success?
    ensures ResolveSettings(cpu, ram, None, provisioningServer, imageDir, config).value.distro == "rhel71"
  {
  }

  // ---------------------------------------------------------------------
  // The commands sent to the provisioning server
  // ---------------------------------------------------------------------

  /** The `snap-guest` command line that clones and boots the virtual machine. */
  function ProvisionCommand(distro: string, target: string, ram: int, cpu: int, imageDir: Option<string>): string
  {
    "snap-guest -b " + distro + "-base -t " + target +
    " -m " + IntToString(ram) + " -c " + IntToString(cpu) + " -n bridge=br0 -f" +
    (if imageDir.Some? then " -p " + imageDir.value else "")
  }

  /** The shell words of `ProvisionCommand`, one option value after each flag. */
  function ProvisionWords(distro: string, target: string, ram: int, cpu: int, imageDir: Option<string>): seq<string>
  {
    ["snap-guest", "-b", distro + "-base", "-t", target, "-m", IntToString(ram),
     "-c", IntToString(cpu), "-n", "bridge=br0", "-f"] +
    (if imageDir.Some? then ["-p", imageDir.value] else [])
  }

  // JoinCommandArgs, JoinFrontArgs and JoinBackArgs, like JoinFixedWords,
  // JoinFrontWords, JoinBackWords and JoinBackLiterals below, are proof steps
  // that split string literals for the verifier; they state no model property
  // of their own.

  /** The fixed part of the `snap-guest` arguments, joined by spaces. */
  lemma JoinCommandArgs(distro: string, target: string, ram: int, cpu: int)
    ensures Join(["snap-guest", "-b " + distro + "-base", "-t " + target, "-m " + IntToString(ram),
                  "-c " + IntToString(cpu), "-n bridge=br0 -f"], " ") ==
            "snap-guest -b " + distro + "-base -t " + target +
            " -m " + IntToString(ram) + " -c " + IntToString(cpu) + " -n bridge=br0 -f"
  {
    var m, c := IntToString(ram), IntToString(cpu);
    var front := ["snap-guest", "-b " + distro + "-base", "-t " + target];
    var back := ["-m " + m, "-c " + c, "-n bridge=br0 -f"];
    JoinFrontArgs(distro, target);
    JoinBackArgs(m, c);
    JoinConcat(front, back, " ");
    assert front + back == ["snap-guest", "-b " + distro + "-base", "-t " + target, "-m " + m,
                            "-c " + c, "-n bridge=br0 -f"];
    assert " -m " == " " + "-m ";
  }

  lemma JoinFrontArgs(distro: string, target: string)
    ensures Join(["snap-guest", "-b " + distro + "-base", "-t " + target], " ") ==
            "snap-guest -b " + distro + "-base -t " + target
  {
    JoinThree("snap-guest", "-b " + distro + "-base", "-t " + target, " ");
    assert "snap-guest -b " == "snap-guest" + " " + "-b ";
    assert "-base -t " == "-base" + " " + "-t ";
  }

  lemma JoinBackArgs(m: string, c: string)
    ensures Join(["-m " + m, "-c " + c, "-n bridge=br0 -f"], " ") ==
            "-m " + m + " -c " + c + " -n bridge=br0 -f"
  {
    JoinThree("-m " + m, "-c " + c, "-n bridge=br0 -f", " ");
    assert " -c " == " " + "-c ";
    assert " -n bridge=br0 -f" == " " + "-n bridge=br0 -f";
  }

  /** The reachability probe whose output carries the address. */
  function PingCommand(target: string): string
  {
    "ping -c 1 " + target + ".local"
  }

  function VirshDestroyCommand(hostname: string): string
  {
    "virsh destroy " + hostname
  }

  function VirshUndefineCommand(hostname: string): string
  {
    "virsh undefine " + hostname
  }

  function RemoveImageCommand(imageDir: string, hostname: string): string
  {
    "rm " + PathJoin(imageDir, hostname + ".img")
  }

  /**
   * When the distro, the target name and the image directory hold no space,
   * splitting the `snap-guest` command line on single spaces (Python's
   * `split(' ')`, which keeps empty pieces) gets back exactly the intended
   * words: every flag followed by its own value, and `-p <image_dir>` only
   * when there is an image directory. A shell drops empty words, so for an
   * empty target or image directory it would read the words differently.
   */
  lemma ProvisionCommandWords(distro: string, target: string, ram: int, cpu: int, imageDir: Option<string>)
    requires ' ' !in distro && ' ' !in target
    requires imageDir.Some? ==> ' ' !in imageDir.value
    ensures Split(ProvisionCommand(distro, target, ram, cpu, imageDir), ' ') ==
            ProvisionWords(distro, target, ram, cpu, imageDir)
  {
    var words := ProvisionWords(distro, target, ram, cpu, imageDir);
    assert Join(words, " ") == ProvisionCommand(distro, target, ram, cpu, imageDir) by {
      JoinProvisionWords(distro, target, ram, cpu, imageDir);
    }
    forall i | 0 <= i < |words| ensures ' ' !in words[i] {
      NoSpaceInNumber(ram);
      NoSpaceInNumber(cpu);
    }
    SplitJoin(words, ' ');
  }

  lemma NoSpaceInNumber(n: int)
    ensures ' ' !in IntToString(n)
  {
    var s := IntToString(n);
    forall i | 0 <= i < |s| ensures s[i] != ' ' {
      if i > 0 {
        assert IsDigit(s[i]);
      }
    }
  }

  lemma JoinProvisionWords(distro: string, target: string, ram: int, cpu: int, imageDir: Option<string>)
    ensures Join(ProvisionWords(distro, target, ram, cpu, imageDir), " ") ==
            ProvisionCommand(distro, target, ram, cpu, imageDir)
  {
    var m, c := IntToString(ram), IntToString(cpu);
    var front := ["snap-guest", "-b", distro + "-base", "-t", target, "-m"];
    var back := [m, "-c", c, "-n", "bridge=br0", "-f"];
    JoinFixedWords(distro, target, m, c);
    if imageDir.Some? {
      var dir := imageDir.value;
      assert ProvisionWords(distro, target, ram, cpu, imageDir) == (front + back) + ["-p", dir];
      JoinCons("-p", [dir], " ");
      JoinConcat(front + back, ["-p", dir], " ");
      assert " -p " == " " + "-p" + " ";
    } else {
      assert ProvisionWords(distro, target, ram, cpu, imageDir) == front + back;
    }
  }

  lemma JoinFixedWords(distro: string, target: string, m: string, c: string)
    ensures Join(["snap-guest", "-b", distro + "-base", "-t", target, "-m"] + [m, "-c", c, "-n", "bridge=br0", "-f"], " ") ==
            "snap-guest -b " + distro + "-base -t " + target + " -m " + m + " -c " + c + " -n bridge=br0 -f"
  {
    var front := ["snap-guest", "-b", distro + "-base", "-t", target, "-m"];
    var back := [m, "-c", c, "-n", "bridge=br0", "-f"];
    JoinFrontWords(distro, target);
    JoinBackWords(m, c);
    JoinConcat(front, back, " ");
    assert " -m " == " -m" + " ";
  }

  lemma JoinFrontWords(distro: string, target: string)
    ensures Join(["snap-guest", "-b", distro + "-base", "-t", target, "-m"], " ") ==
            "snap-guest -b " + distro + "-base -t " + target + " -m"
  {
    JoinSix("snap-guest", "-b", distro + "-base", "-t", target, "-m", " ");
    assert "snap-guest -b " == "snap-guest" + " " + "-b" + " ";
    assert "-base -t " == "-base" + " " + "-t" + " ";
    assert " -m" == " " + "-m";
  }

  lemma JoinBackWords(m: string, c: string)
    ensures Join([m, "-c", c, "-n", "bridge=br0", "-f"], " ") == m + " -c " + c + " -n bridge=br0 -f"
  {
    JoinSix(m, "-c", c, "-n", "bridge=br0", "-f", " ");
    JoinBackLiterals();
  }

  lemma JoinBackLiterals()
    ensures " " + "-c" + " " == " -c "
    ensures " " + "-n" + " " + "bridge=br0" + " " + "-f" == " -n bridge=br0 -f"
  {
  }

  // ---------------------------------------------------------------------
  // Reading the address out of the ping output
  // ---------------------------------------------------------------------

  /**
   * `output.split('(')[1].split(')')[0]`: the text after the first `(`, up
   * to the next parenthesis of either kind. Output without any `(` has no
   * second piece, and indexing it raises IndexError.
   */
  function ParseIpAddress(output: string): (r: Result<string>)
    ensures r.Failure? <==> '(' !in output
    ensures r.Failure? ==> r.error == IndexError
    ensures r.Success? ==> '(' !in r.value && ')' !in r.value
  {
    CountZero(output, '(');
    var parts := Split(output, '(');
    if |parts| < 2 then Failure(IndexError)
    else
      SplitKeepsOut(parts[1], ')', '(');
      Success(Split(parts[1], ')')[0])
  }

  /**
   * The address is recovered from any line of the shape
   * `<text without '('> ( <address> ) ...`: whatever follows the address is
   * empty or starts with a parenthesis.
   */
  lemma ParseIpOfProbe(before: string, address: string, after: string)
    requires '(' !in before && '(' !in address && ')' !in address
    requires after == [] || after[0] == '(' || after[0] == ')'
    ensures ParseIpAddress(before + "(" + address + after) == Success(address)
  {
    var output := before + "(" + address + after;
    assert output == before + ['('] + (address + after);
    SplitConcat(before, address + after, '(');
    SplitNoSeparator(before, '(');
    var piece := Split(address + after, '(')[0];
    SplitHeadPrefix(address, after, '(');
    var tail := Split(after, '(')[0];
    assert tail == [] || tail[0] == ')' by {
      if after != [] && after[0] == ')' {
        assert tail == [')'] + Split(after[1..], '(')[0];
      }
    }
    SplitHeadPrefix(address, tail, ')');
    assert piece == address + tail;
    assert Split(piece, ')')[0] == address;
  }

  // ---------------------------------------------------------------------
  // The virtual machine
  // ---------------------------------------------------------------------

  class VirtualMachine {
    const cpu: int
    const ram: int
    const distro: string
    const provisioningServer: string
    const imageDir: Option<string>
    /** The configuration store the helpers consult. */
    const config: Config
    /** The name the clone gets on the provisioning server (`str(id(self))`). */
    const targetImage: string

    var hostname: Option<string>
    var ipAddr: Option<string>
    var created: bool

    /** Every remote call made on behalf of this object, with its result. */
    ghost var log: seq<Exchange>

    /**
     * The distro is a base image; hostname and address are known exactly
     * when the virtual machine was created, the hostname is the clone's name
     * and the address is free of parentheses.
     */
    ghost predicate Valid()
      reads this
    {
      && distro in BaseImages
      && (created ==>
            hostname == Some(targetImage) && ipAddr.Some? &&
            '(' !in ipAddr.value && ')' !in ipAddr.value)
      && (!created ==> hostname == None && ipAddr == None)
    }

    /** The settings this object was constructed with. */
    function Configured(): Settings
    {
      Settings(cpu, ram, distro, provisioningServer, imageDir)
    }

    /** Nothing created, nothing known, nothing sent. */
    ghost predicate IsFresh()
      reads this
    {
      hostname == None && ipAddr == None && !created && log == []
    }

    constructor (settings: Settings, config: Config, targetImage: string)
      requires settings.distro in BaseImages
      ensures Valid() && IsFresh()
      ensures Configured() == settings
      ensures this.config == config && this.targetImage == targetImage
    {
      cpu := settings.cpu;
      ram := settings.ram;
      distro := settings.distro;
      provisioningServer := settings.provisioningServer;
      imageDir := settings.imageDir;
      this.config := config;
      this.targetImage := targetImage;
      hostname := None;
      ipAddr := None;
      created := false;
      log := [];
    }

    /**
     * `VirtualMachine(...)`: resolves the settings and raises before any
     * object exists, so before any remote command, when they are invalid.
     */
    static method Init(config: Config, targetImage: string, cpu: int := 1, ram: int := 512,
                       distro: Option<string> := None, provisioningServer: Option<string> := None,
                       imageDir: Option<string> := None)
      returns (r: Result<VirtualMachine>)
      ensures r.Failure? ==>
                ResolveSettings(cpu, ram, distro, provisioningServer, imageDir, config) == Failure(r.error)
      ensures r.Success? ==>
                && fresh(r.value) && r.value.Valid() && r.value.IsFresh()
                && ResolveSettings(cpu, ram, distro, provisioningServer, imageDir, config) == Success(r.value.Configured())
                && r.value.config == config && r.value.targetImage == targetImage
    {
      var settings := ResolveSettings(cpu, ram, distro, provisioningServer, imageDir, config);
      if settings.Failure? {
        return Failure(settings.error);
      }
      var vm := new VirtualMachine(settings.value, config, targetImage);
      return Success(vm);
    }

    /** `ssh.command(command, hostname=host)`: any result may come back. */
    method Command(command: string, host: string) returns (result: CommandResult)
      modifies this`log
      ensures log == old(log) + [Exchange(Call(command, host), result)]
    {
      result := *;
      log := log + [Exchange(Call(command, host), result)];
    }

    /** Since the pre-state, exactly `calls` have been sent, in this order. */
    twostate predicate Sent(calls: seq<Call>)
      reads this
    {
      |old(log)| <= |log| && log[..|old(log)|] == old(log) && Calls(log[|old(log)|..]) == calls
    }

    /** The result of the most recent remote call. */
    ghost function LastResult(): CommandResult
      reads this
      requires |log| > 0
    {
      log[|log| - 1].result
    }

    /**
     * What `create` does. Once created, nothing: no command, no change.
     * Otherwise it sends the `snap-guest` command to the provisioning
     * server, and only when that succeeds the ping probe; any failure there,
     * or ping output without an address, is raised and leaves the object as
     * it was. On success the address is read from the joined ping output,
     * the hostname becomes the clone's name and the object is created.
     */
    twostate predicate CreateEffect(r: Outcome)
      reads this
    {
      var n := |old(log)|;
      if old(created) then
        r == Pass && log == old(log) && created && hostname == old(hostname) && ipAddr == old(ipAddr)
      else
        && n < |log| && log[..n] == old(log)
        && log[n].call == Call(ProvisionCommand(distro, targetImage, ram, cpu, imageDir), provisioningServer)
        && var snap := log[n].result;
        if snap.returnCode != 0 then
          && |log| == n + 1
          && r == Fail(VirtualMachineError(SnapGuestFailureMessage(snap.stderr)))
          && !created && hostname == old(hostname) && ipAddr == old(ipAddr)
        else
          && |log| == n + 2
          && log[n + 1].call == Call(PingCommand(targetImage), provisioningServer)
          && var ping := log[n + 1].result;
          if ping.returnCode != 0 then
            && r == Fail(VirtualMachineError(IpLookupFailureMessage))
            && !created && hostname == old(hostname) && ipAddr == old(ipAddr)
          else
            match ParseIpAddress(Join(ping.stdout, ""))
            case Failure(e) =>
              r == Fail(e) && !created && hostname == old(hostname) && ipAddr == old(ipAddr)
            case Success(address) =>
              r == Pass && created && hostname == Some(targetImage) && ipAddr == Some(address)
    }

    /** The `snap-guest` command line `create` assembles from its arguments. */
    method BuildProvisionCommand() returns (command: string)
      ensures command == ProvisionCommand(distro, targetImage, ram, cpu, imageDir)
    {
      var commandArgs := [
        "snap-guest",
        "-b " + distro + "-base",
        "-t " + targetImage,
        "-m " + IntToString(ram),
        "-c " + IntToString(cpu),
        "-n bridge=br0 -f"
      ];
      if imageDir.Some? {
        commandArgs := commandArgs + ["-p " + imageDir.value];
      }
      command := Join(commandArgs, " ");
      assert command == ProvisionCommand(distro, targetImage, ram, cpu, imageDir) by {
        var base := commandArgs[..6];
        JoinCommandArgs(distro, targetImage, ram, cpu);
        if imageDir.Some? {
          assert commandArgs == base + ["-p " + imageDir.value];
          JoinSnoc(base, "-p " + imageDir.value, " ");
          assert " -p " == " " + "-p ";
        } else {
          assert commandArgs == base;
        }
      }
    }

    method Create() returns (r: Outcome)
      requires Valid()
      modifies this`hostname, this`ipAddr, this`created, this`log
      ensures Valid()
      ensures CreateEffect(r)
    {
      if created {
        return Pass;
      }
      var command := BuildProvisionCommand();
      var snap := Command(command, provisioningServer);
      if snap.returnCode != 0 {
        return Fail(VirtualMachineError(SnapGuestFailureMessage(snap.stderr)));
      }
      var ping := Command(PingCommand(targetImage), provisioningServer);
      if ping.returnCode != 0 {
        return Fail(VirtualMachineError(IpLookupFailureMessage));
      }
      var output := Join(ping.stdout, "");
      var address := ParseIpAddress(output);
      if address.Failure? {
        return Fail(address.error);
      }
      ipAddr := Some(address.value);
      hostname := Some(targetImage);
      created := true;
      r := Pass;
    }

    /**
     * What `destroy` does. Never created: nothing. Otherwise it sends, to
     * the provisioning server and whatever they return, `virsh destroy`,
     * `virsh undefine` and the removal of the clone's image; without an
     * image directory the path cannot be built and TypeError is raised
     * before the removal. It never resets `created`.
     */
    twostate predicate DestroyEffect(r: Outcome)
      reads this
    {
      if !old(created) then
        r == Pass && log == old(log)
      else
        hostname.Some? &&
        var h := hostname.value;
        var teardown := [Call(VirshDestroyCommand(h), provisioningServer),
                         Call(VirshUndefineCommand(h), provisioningServer)];
        match imageDir
        case None =>
          r == Fail(TypeError) && Sent(teardown)
        case Some(dir) =>
          r == Pass && Sent(teardown + [Call(RemoveImageCommand(dir, h), provisioningServer)])
    }

    method Destroy() returns (r: Outcome)
      requires Valid()
      modifies this`log
      ensures Valid()
      ensures DestroyEffect(r)
    {
      if !created {
        return Pass;
      }
      var h := hostname.value;
      var stop := Call(VirshDestroyCommand(h), provisioningServer);
      var undefine := Call(VirshUndefineCommand(h), provisioningServer);
      var stopped := Command(stop.command, stop.host);
      var undefined := Command(undefine.command, undefine.host);
      ghost var sent := [Exchange(stop, stopped), Exchange(undefine, undefined)];
      assert log == old(log) + sent;
      if imageDir.None? {
        assert log[|old(log)|..] == sent;
        assert Calls(sent) == [stop, undefine];
        return Fail(TypeError);
      }
      var remove := Call(RemoveImageCommand(imageDir.value, h), provisioningServer);
      var removed := Command(remove.command, remove.host);
      sent := sent + [Exchange(remove, removed)];
      assert log[|old(log)|..] == sent;
      assert Calls(sent) == [stop, undefine, remove];
      r := Pass;
    }

    /**
     * What `run(cmd)` does: refuses, sending nothing, unless created;
     * otherwise sends `cmd` unchanged to the virtual machine's address and
     * returns what came back.
     */
    twostate predicate RunEffect(new cmd: string, new r: Result<CommandResult>)
      reads this
    {
      if !created then
        r == Failure(VirtualMachineError(NotCreatedMessage)) && log == old(log)
      else
        ipAddr.Some? && r.Success? && log == old(log) + [Exchange(Call(cmd, ipAddr.value), r.value)]
    }

    method Run(cmd: string) returns (r: Result<CommandResult>)
      requires Valid()
      modifies this`log
      ensures Valid()
      ensures RunEffect(cmd, r)
    {
      if !created {
        return Failure(VirtualMachineError(NotCreatedMessage));
      }
      var result := Command(cmd, ipAddr.value);
      r := Success(result);
    }

    // -------------------------------------------------------------------
    // Bootstrap helpers, each made of `run` calls
    // -------------------------------------------------------------------

    /**
     * `download_install_rpm`: fetch the package, install it, query it; only
     * the query's status decides.
     */
    method DownloadInstallRpm(repoUrl: string, packageName: string) returns (r: Outcome)
      requires Valid()
      modifies this`log
      ensures Valid()
      ensures !created ==> r == Fail(VirtualMachineError(NotCreatedMessage)) && log == old(log)
      ensures created ==>
                && Sent([Call("wget -nd -r -l1 --no-parent -A '" + packageName + ".rpm' " + repoUrl, ipAddr.value),
                         Call("rpm -i " + packageName + ".rpm", ipAddr.value),
                         Call("rpm -q " + packageName, ipAddr.value)])
                && r == if LastResult().returnCode == 0 then Pass
                        else Fail(VirtualMachineError("Failed to install " + packageName + " rpm."))
    {
      var fetch := Run("wget -nd -r -l1 --no-parent -A '" + packageName + ".rpm' " + repoUrl);
      if fetch.Failure? {
        return Fail(fetch.error);
      }
      var _ := Run("rpm -i " + packageName + ".rpm");
      var query := Run("rpm -q " + packageName);
      if query.value.returnCode != 0 {
        r := Fail(VirtualMachineError("Failed to install " + packageName + " rpm."));
      } else {
        r := Pass;
      }
      assert Calls(log[|old(log)|..]) ==
             [Call("wget -nd -r -l1 --no-parent -A '" + packageName + ".rpm' " + repoUrl, ipAddr.value),
              Call("rpm -i " + packageName + ".rpm", ipAddr.value),
              Call("rpm -q " + packageName, ipAddr.value)];
    }

    /** `enable_repo`: one enabling command, its result ignored. */
    method EnableRepo(repo: string) returns (r: Outcome)
      requires Valid()
      modifies this`log
      ensures Valid()
      ensures !created ==> r == Fail(VirtualMachineError(NotCreatedMessage)) && log == old(log)
      ensures created ==>
                r == Pass && Sent([Call("subscription-manager repos --enable " + repo, ipAddr.value)])
    {
      var enable := Run("subscription-manager repos --enable " + repo);
      if enable.Failure? {
        return Fail(enable.error);
      }
      assert log[|old(log)|..] == [log[|log| - 1]];
      r := Pass;
    }

    /** `install_katello_agent`: install the agent, then check it is there. */
    method InstallKatelloAgent() returns (r: Outcome)
      requires Valid()
      modifies this`log
      ensures Valid()
      ensures !created ==> r == Fail(VirtualMachineError(NotCreatedMessage)) && log == old(log)
      ensures created ==>
                && Sent([Call("yum install -y katello-agent", ipAddr.value),
                         Call("rpm -q katello-agent", ipAddr.value)])
                && r == if LastResult().returnCode == 0 then Pass
                        else Fail(VirtualMachineError("Failed to install katello-agent"))
    {
      var install := Run("yum install -y katello-agent");
      if install.Failure? {
        return Fail(install.error);
      }
      var query := Run("rpm -q katello-agent");
      if query.value.returnCode != 0 {
        r := Fail(VirtualMachineError("Failed to install katello-agent"));
      } else {
        r := Pass;
      }
      assert Calls(log[|old(log)|..]) ==
             [Call("yum install -y katello-agent", ipAddr.value), Call("rpm -q katello-agent", ipAddr.value)];
    }

    /**
     * `install_katello_cert`: install the server's certificate package from
     * `certRpmUrl` (what `get_server_cert_rpm_url()` returns), then check for
     * the consumer package named after the server's hostname, which the
     * configuration must hold.
     */
    method InstallKatelloCert(certRpmUrl: string) returns (r: Outcome)
      requires Valid()
      modifies this`log
      ensures Valid()
      ensures !created ==> r == Fail(VirtualMachineError(NotCreatedMessage)) && log == old(log)
      ensures created ==>
                |log| == |old(log)| + 1 || |log| == |old(log)| + 2
      ensures created && |log| == |old(log)| + 1 ==>
                && Sent([Call("rpm -Uvh " + certRpmUrl, ipAddr.value)])
                && if LastResult().returnCode != 0
                   then r == Fail(VirtualMachineError("Failed to download and install the katello-ca rpm"))
                   else ServerHostnameKey !in config && r == Fail(KeyError(ServerHostnameKey))
      ensures created && |log| == |old(log)| + 2 ==>
                && ServerHostnameKey in config
                && Sent([Call("rpm -Uvh " + certRpmUrl, ipAddr.value),
                         Call("rpm -q katello-ca-consumer-" + config[ServerHostnameKey], ipAddr.value)])
                && log[|old(log)|].result.returnCode == 0
                && r == if LastResult().returnCode == 0 then Pass
                        else Fail(VirtualMachineError("Failed to find the katello-ca rpm"))
    {
      var install := Run("rpm -Uvh " + certRpmUrl);
      if install.Failure? {
        return Fail(install.error);
      }
      assert log[|old(log)|..] == [log[|log| - 1]];
      if install.value.returnCode != 0 {
        return Fail(VirtualMachineError("Failed to download and install the katello-ca rpm"));
      }
      if ServerHostnameKey !in config {
        return Fail(KeyError(ServerHostnameKey));
      }
      var query := Run("rpm -q katello-ca-consumer-" + config[ServerHostnameKey]);
      if query.value.returnCode != 0 {
        r := Fail(VirtualMachineError("Failed to find the katello-ca rpm"));
      } else {
        r := Pass;
      }
      assert Calls(log[|old(log)|..]) ==
             [Call("rpm -Uvh " + certRpmUrl, ipAddr.value),
              Call("rpm -q katello-ca-consumer-" + config[ServerHostnameKey], ipAddr.value)];
    }

    /** `register_contenthost`: one registration command, its result returned as is. */
    method RegisterContenthost(activationKey: string, org: string) returns (r: Result<CommandResult>)
      requires Valid()
      modifies this`log
      ensures Valid()
      ensures RunEffect("subscription-manager register --activationkey " + activationKey +
                        " --org " + org + " --force", r)
    {
      r := Run("subscription-manager register --activationkey " + activationKey +
               " --org " + org + " --force");
    }

    /** `__enter__`: creates the virtual machine (the object itself is returned). */
    method Enter() returns (r: Outcome)
      requires Valid()
      modifies this`hostname, this`ipAddr, this`created, this`log
      ensures Valid()
      ensures CreateEffect(r)
    {
      r := Create();
    }

    /** `__exit__`: always destroys; an error of `destroy` propagates. */
    method Exit() returns (r: Outcome)
      requires Valid()
      modifies this`log
      ensures Valid()
      ensures DestroyEffect(r)
    {
      r := Destroy();
    }
  }
}
