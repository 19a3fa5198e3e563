/** The NVMe-oF initiator connector (`NVMeConnector`): it attaches a remote volume by
    running `nvme list`, `nvme discover`, `nvme connect` and `nvme list` again and
    taking the device the second listing adds, and detaches it with `nvme disconnect`.

    Privileged command execution is an oracle: the host answers each command line,
    seeing every command issued before it. The connector keeps the log of the command
    lines it has issued. Each effectful operation is specified by a function that
    gives its result and the log it leaves (the `...Run` functions), and the
    properties of the connector are proved about those functions. */
module NvmeConnector {
  import opened Wrappers
  import opened Text

  const Nvme := "/usr/local/sbin/nvme"

  /** One element of a command line handed to `_execute`: a string, or Python's None. */
  datatype Arg = Str(s: string) | NoneValue

  type Argv = seq<Arg>

  /** The connection properties of one fabric target: 'target_portal', 'target_port',
      'nqn' and the optional 'device_path'. A numeric port is given by its decimal text. */
  type Props = map<string, string>

  /** What `_execute` does with one command line: it returns `(stdout, stderr)`, or it
      raises a process error. */
  datatype Exec = Completed(stdout: string) | ProcessFailed

  /** The host: its answer to a command line, given every command line issued before. */
  type Host = (seq<Argv>, Argv) -> Exec

  datatype Error =
    | CommandFailed(argv: Argv)   // `_execute` raised for this command line
    | KeyError(key: string)       // a required connection property is missing
    | IndexError                  // no new device appeared after the connect
    | NotImplemented              // NotImplementedError

  /** The result of an effectful run and the command log it leaves. */
  datatype Run<T> = Run(value: Result<T, Error>, log: seq<Argv>)

  const ListArgv: Argv := [Str(Nvme), Str("list")]

  /** The discovery command line. In the source, `'-t' 'rdma'` is one string literal,
      so the command has seven elements and its third is "-trdma". */
  function DiscoverArgv(portal: string, port: string): Argv
  {
    [Str(Nvme), Str("discover"), Str("-t" + "rdma"), Str("-a"), Str(portal), Str("-s"), Str(port)]
  }

  lemma DiscoverArgvShape(portal: string, port: string)
    ensures var argv := DiscoverArgv(portal, port);
      |argv| == 7 && argv[2] == Str("-trdma") && argv[4] == Str(portal) && argv[6] == Str(port)
  {
    assert "-t" + "rdma" == "-trdma";
  }

  function ConnectArgv(nqn: string, portal: string, port: string): Argv
  {
    [Str(Nvme), Str("connect"), Str("-t"), Str("rdma"), Str("-n"), Str(nqn), Str("-a"), Str(portal), Str("-s"), Str(port)]
  }

  function DisconnectDeviceArgv(deviceName: string): Argv
  {
    [Str(Nvme), Str("disconnect"), Str("-d"), Str(deviceName)]
  }

  function DisconnectNqnArgv(nqn: Arg): Argv
  {
    [Str(Nvme), Str("disconnect"), Str("-n"), nqn]
  }

  // ---------------------------------------------------------------- parsing

  /** `re.match(r'subnqn:(.*)', line)` succeeds: the match is anchored at the start of
      the line, so a line with leading whitespace does not match. */
  predicate IsSubnqnLine(line: string)
  {
    |line| >= 7 && line[..7] == "subnqn:"
  }

  /** `_get_nvme_portals_from_output` on the lines of the output. */
  function NqnFromLines(lines: seq<string>): Option<string>
  {
    if lines == [] then None
    else if IsSubnqnLine(lines[0]) then Some(Strip(lines[0][7..]))
    else NqnFromLines(lines[1..])
  }

  /** The result is the NQN on the first line that begins with "subnqn:", the text
      after the colon stripped of surrounding whitespace; it is None exactly when no
      line begins so. */
  lemma {:induction false} NqnFromFirstMatch(lines: seq<string>)
    ensures NqnFromLines(lines).None? <==> forall i :: 0 <= i < |lines| ==> !IsSubnqnLine(lines[i])
    ensures NqnFromLines(lines).Some? ==>
      exists i :: 0 <= i < |lines| && IsSubnqnLine(lines[i]) &&
        (forall j :: 0 <= j < i ==> !IsSubnqnLine(lines[j])) &&
        NqnFromLines(lines).value == Strip(lines[i][7..])
  {
    if lines == [] {
    } else if IsSubnqnLine(lines[0]) {
      assert NqnFromLines(lines).value == Strip(lines[0][7..]);
    } else {
      var tail := lines[1..];
      NqnFromFirstMatch(tail);
      assert NqnFromLines(lines) == NqnFromLines(tail);
      if NqnFromLines(tail).Some? {
        var i :| 0 <= i < |tail| && IsSubnqnLine(tail[i]) &&
          (forall j :: 0 <= j < i ==> !IsSubnqnLine(tail[j])) &&
          NqnFromLines(tail).value == Strip(tail[i][7..]);
        assert lines[i + 1] == tail[i];
        forall j | 0 <= j < i + 1
          ensures !IsSubnqnLine(lines[j])
        {
          if j > 0 {
            assert lines[j] == tail[j - 1];
          }
        }
      } else {
        forall i | 0 <= i < |lines|
          ensures !IsSubnqnLine(lines[i])
        {
          if i > 0 {
            assert lines[i] == tail[i - 1];
          }
        }
      }
    }
  }

  /** Lines before the first "subnqn:" line play no part. */
  lemma {:induction false} NqnFromLinesSkips(lines: seq<string>, k: nat)
    requires k <= |lines|
    requires forall i :: 0 <= i < k ==> !IsSubnqnLine(lines[i])
    ensures NqnFromLines(lines) == NqnFromLines(lines[k..])
  {
    if k > 0 {
      assert lines[1..][k - 1..] == lines[k..];
      NqnFromLinesSkips(lines[1..], k - 1);
    }
  }

  /** A "subnqn:" line yields its value without the whitespace before it. */
  lemma NqnOfPaddedLine(p: string, nqn: string, rest: seq<string>)
    requires AllSpaces(p)
    requires nqn != [] && !IsSpace(nqn[0]) && !IsSpace(nqn[|nqn| - 1])
    ensures NqnFromLines(["subnqn:" + p + nqn] + rest) == Some(nqn)
  {
    var line := "subnqn:" + p + nqn;
    assert line[..7] == "subnqn:" && line[7..] == p + nqn + "";
    StripPadded(p, nqn, "");
  }

  /** `_get_nvme_portals_from_output`: the output is split at newlines and scanned. */
  function GetNvmePortalsFromOutput(output: string): Option<string>
  {
    NqnFromLines(Split(output, '\n'))
  }

  /** `re.match(r'/dev/nvme[0-9]n[0-9]', line)` succeeds: the line starts with
      "/dev/nvme", one digit, "n", one digit. */
  predicate IsDeviceLine(line: string)
  {
    |line| >= 12 && line[..9] == "/dev/nvme" && IsDigit(line[9]) && line[10] == 'n' && IsDigit(line[11])
  }

  /** The devices `_get_nvme_devices` collects from the lines of `nvme list`: for each
      matching line, in order, its 12-character match. */
  function DevicesIn(lines: seq<string>): (devices: seq<string>)
    ensures |devices| <= |lines|
    ensures forall k :: 0 <= k < |devices| ==> |devices[k]| == 12 && IsDeviceLine(devices[k])
  {
    if lines == [] then []
    else
      var last := lines[|lines| - 1];
      DevicesIn(lines[..|lines| - 1]) + (if IsDeviceLine(last) then [last[..12]] else [])
  }

  /** Devices are collected line by line, in line order. */
  lemma {:induction false} DevicesInAppend(a: seq<string>, b: seq<string>)
    ensures DevicesIn(a + b) == DevicesIn(a) + DevicesIn(b)
    decreases |b|
  {
    if b == [] {
      assert a + b == a;
    } else {
      var b' := b[..|b| - 1];
      assert (a + b)[..|a + b| - 1] == a + b';
      DevicesInAppend(a, b');
    }
  }

  /** A name is collected exactly when some line starts with it and matches. */
  lemma {:induction false} DevicesInMembers(lines: seq<string>, d: string)
    ensures d in DevicesIn(lines) <==>
      exists i :: 0 <= i < |lines| && IsDeviceLine(lines[i]) && lines[i][..12] == d
  {
    if lines != [] {
      var init := lines[..|lines| - 1];
      DevicesInMembers(init, d);
      assert forall i :: 0 <= i < |init| ==> init[i] == lines[i];
    }
  }

  /** A listing that is just device names, one per line, reads back as those names. */
  lemma {:induction false} DevicesOfListing(names: seq<string>)
    requires |names| > 0
    requires forall k :: 0 <= k < |names| ==> |names[k]| == 12 && IsDeviceLine(names[k])
    ensures DevicesIn(Split(Join(names, '\n'), '\n')) == names
  {
    assert forall k :: 0 <= k < |names| ==> '\n' !in names[k] by {
      forall k | 0 <= k < |names|
        ensures '\n' !in names[k]
      {
        assert names[k][..9] == "/dev/nvme";
        assert forall j :: 9 <= j < 12 ==> names[k][j] != '\n';
        assert forall j :: 0 <= j < 9 ==> names[k][j] == names[k][..9][j];
      }
    }
    SplitJoin(names, '\n');
    DevicesOfNames(names);
  }

  lemma {:induction false} DevicesOfNames(names: seq<string>)
    requires forall k :: 0 <= k < |names| ==> |names[k]| == 12 && IsDeviceLine(names[k])
    ensures DevicesIn(names) == names
  {
    if names != [] {
      var last := names[|names| - 1];
      assert last[..12] == last;
      DevicesOfNames(names[..|names| - 1]);
    }
  }

  /** The loop of `_get_nvme_devices` over the lines of the listing. */
  method CollectDevices(out: string) returns (devices: seq<string>)
    ensures devices == DevicesIn(Split(out, '\n'))
  {
    var lines := Split(out, '\n');
    devices := [];
    for i := 0 to |lines|
      invariant devices == DevicesIn(lines[..i])
    {
      var line := lines[i];
      assert lines[..i + 1][..i] == lines[..i];
      if IsDeviceLine(line) {
        devices := devices + [line[..12]];
      }
    }
    assert lines[..|lines|] == lines;
  }

  // ---------------------------------------------------------------- effectful runs

  /** `_get_nvme_devices`: one `nvme list`, its output parsed. */
  function DevicesRun(host: Host, log: seq<Argv>): Run<seq<string>>
  {
    match host(log, ListArgv)
    case Completed(out) => Run(Ok(DevicesIn(Split(out, '\n'))), log + [ListArgv])
    case ProcessFailed => Run(Err(CommandFailed(ListArgv)), log + [ListArgv])
  }

  /** `_discover_nvme_portals`: reads the portal and port, runs discovery, and parses
      the NQN out of its output. */
  function DiscoverRun(host: Host, log: seq<Argv>, props: Props): (run: Run<Option<string>>)
    ensures run.value.Ok? ==> "target_portal" in props && "target_port" in props
  {
    if "target_portal" !in props then Run(Err(KeyError("target_portal")), log)
    else if "target_port" !in props then Run(Err(KeyError("target_port")), log)
    else
      var argv := DiscoverArgv(props["target_portal"], props["target_port"]);
      match host(log, argv)
      case Completed(out) => Run(Ok(GetNvmePortalsFromOutput(out)), log + [argv])
      case ProcessFailed => Run(Err(CommandFailed(argv)), log + [argv])
  }

  /** The device names in `s`, as a set. */
  function AsSet(s: seq<string>): set<string>
  {
    set d | d in s
  }

  /** `connect_volume`, with the value it succeeds with being the set it picks from:
      the devices of the second listing that were not in the first. */
  function AttachRun(host: Host, log: seq<Argv>, props: Props): Run<set<string>>
  {
    var current := DevicesRun(host, log);
    if current.value.Err? then Run(Err(current.value.error), current.log)
    else if "nqn" !in props then Run(Err(KeyError("nqn")), current.log)
    else
      var discovered := DiscoverRun(host, current.log, props);
      if discovered.value.Err? then Run(Err(discovered.value.error), discovered.log)
      else
        var argv := ConnectArgv(props["nqn"], props["target_portal"], props["target_port"]);
        match host(discovered.log, argv)
        case ProcessFailed => Run(Err(CommandFailed(argv)), discovered.log + [argv])
        case Completed(_) =>
          var all := DevicesRun(host, discovered.log + [argv]);
          if all.value.Err? then Run(Err(all.value.error), all.log)
          else
            var newDevices := AsSet(all.value.value) - AsSet(current.value.value);
            if newDevices == {} then Run(Err(IndexError), all.log) else Run(Ok(newDevices), all.log)
  }

  /** `disconnect_volume`: discovery always runs first; then the device named by the
      last component of 'device_path' is disconnected if that property is present,
      and otherwise the discovered NQN (None if discovery found none). */
  function DetachRun(host: Host, log: seq<Argv>, props: Props): Run<()>
  {
    var discovered := DiscoverRun(host, log, props);
    if discovered.value.Err? then Run(Err(discovered.value.error), discovered.log)
    else
      var argv :=
        if "device_path" in props then DisconnectDeviceArgv(LastComponent(props["device_path"], '/'))
        else DisconnectNqnArgv(match discovered.value.value case Some(nqn) => Str(nqn) case None => NoneValue);
      match host(discovered.log, argv)
      case Completed(_) => Run(Ok(()), discovered.log + [argv])
      case ProcessFailed => Run(Err(CommandFailed(argv)), discovered.log + [argv])
  }

  // ---------------------------------------------------------------- properties of the runs

  /** The four commands of a complete attach, in order. */
  function AttachCommands(props: Props): seq<Argv>
    requires "nqn" in props && "target_portal" in props && "target_port" in props
  {
    var portal := props["target_portal"];
    var port := props["target_port"];
    [ListArgv, DiscoverArgv(portal, port), ConnectArgv(props["nqn"], portal, port), ListArgv]
  }

  /** Whatever the host answers, an attach issues a prefix of the four commands, in order;
      and it succeeds only after issuing all four. Which prefix, and the error, are stated
      by `AttachStopsAtFirstFailure`. */
  lemma AttachIssuesCommandsInOrder(host: Host, log: seq<Argv>, props: Props)
    requires "nqn" in props && "target_portal" in props && "target_port" in props
    ensures var run := AttachRun(host, log, props);
      exists n :: 1 <= n <= 4 && run.log == log + AttachCommands(props)[..n] &&
        (run.value.Ok? ==> n == 4)
  {
    var cmds := AttachCommands(props);
    var run := AttachRun(host, log, props);
    var current := DevicesRun(host, log);
    if current.value.Err? {
      assert run.log == log + cmds[..1];
    } else {
      var discovered := DiscoverRun(host, current.log, props);
      if discovered.value.Err? {
        assert run.log == log + cmds[..2];
      } else {
        var argv := ConnectArgv(props["nqn"], props["target_portal"], props["target_port"]);
        if host(discovered.log, argv).ProcessFailed? {
          assert run.log == log + cmds[..3];
        } else {
          assert run.log == log + cmds[..4];
        }
      }
    }
  }

  /** The attach stops at the first command the host fails: if the first `n - 1`
      commands complete and command `n - 1` fails, exactly the first `n` commands
      have been issued and the error names the failed command line. */
  lemma AttachStopsAtFirstFailure(host: Host, log: seq<Argv>, props: Props, n: nat)
    requires "nqn" in props && "target_portal" in props && "target_port" in props
    requires 1 <= n <= 4
    requires forall i :: 0 <= i < n - 1 ==>
      host(log + AttachCommands(props)[..i], AttachCommands(props)[i]).Completed?
    requires host(log + AttachCommands(props)[..n - 1], AttachCommands(props)[n - 1]).ProcessFailed?
    ensures AttachRun(host, log, props) ==
      Run(Err(CommandFailed(AttachCommands(props)[n - 1])), log + AttachCommands(props)[..n])
  {
    var c := AttachCommands(props);
    assert log + c[..0] == log;
    if n > 1 {
      assert host(log, c[0]).Completed?;
      assert log + c[..1] == log + [c[0]];
    }
    if n > 2 {
      assert log + c[..2] == log + [c[0]] + [c[1]];
      assert host(log + c[..1], c[1]).Completed?;
    }
    if n > 3 {
      assert log + c[..3] == log + [c[0]] + [c[1]] + [c[2]];
      assert host(log + c[..2], c[2]).Completed?;
    }
    assert log + c[..4] == log + [c[0]] + [c[1]] + [c[2]] + [c[3]];
  }

  /** When the host completes all four commands, all four are issued, and the attach
      ends either with the new devices or, when there are none, with IndexError. */
  lemma AttachAllCompleted(host: Host, log: seq<Argv>, props: Props)
    requires "nqn" in props && "target_portal" in props && "target_port" in props
    requires forall i :: 0 <= i < 4 ==>
      host(log + AttachCommands(props)[..i], AttachCommands(props)[i]).Completed?
    ensures AttachRun(host, log, props).log == log + AttachCommands(props)
    ensures AttachRun(host, log, props).value.Ok? || AttachRun(host, log, props).value == Err(IndexError)
  {
    var c := AttachCommands(props);
    assert log + c[..0] == log;
    assert host(log, c[0]).Completed?;
    assert log + c[..1] == log + [c[0]];
    assert host(log + c[..1], c[1]).Completed?;
    assert log + c[..2] == log + [c[0]] + [c[1]];
    assert host(log + c[..2], c[2]).Completed?;
    assert log + c[..3] == log + [c[0]] + [c[1]] + [c[2]];
    assert host(log + c[..3], c[3]).Completed?;
    assert c == c[..4];
  }

  /** A successful attach had all three properties and found at least one new device. */
  lemma AttachSucceedsOnlyWithNewDevice(host: Host, log: seq<Argv>, props: Props)
    ensures AttachRun(host, log, props).value.Ok? ==>
      "nqn" in props && "target_portal" in props && "target_port" in props &&
      AttachRun(host, log, props).value.value != {}
  {
  }

  /** A successful detach had the portal and the port. */
  lemma DetachSucceedsOnlyWithPortal(host: Host, log: seq<Argv>, props: Props)
    ensures DetachRun(host, log, props).value.Ok? ==> "target_portal" in props && "target_port" in props
  {
  }

  /** A missing property fails the attach with that key, before any command that needs
      it: 'nqn' is looked up after the first listing, the portal and port before discovery. */
  lemma AttachMissingProperty(host: Host, log: seq<Argv>, props: Props)
    requires host(log, ListArgv).Completed?
    ensures "nqn" !in props ==>
      AttachRun(host, log, props) == Run(Err(KeyError("nqn")), log + [ListArgv])
    ensures "nqn" in props && "target_portal" !in props ==>
      AttachRun(host, log, props) == Run(Err(KeyError("target_portal")), log + [ListArgv])
    ensures "nqn" in props && "target_portal" in props && "target_port" !in props ==>
      AttachRun(host, log, props) == Run(Err(KeyError("target_port")), log + [ListArgv])
  {
  }

  /** The NQN that discovery parses plays no part in the attach: the connect uses the
      'nqn' property. Two hosts that differ only in what discovery prints attach alike. */
  lemma AttachIgnoresDiscoveredNqn(h1: Host, h2: Host, log: seq<Argv>, props: Props)
    requires "target_portal" in props && "target_port" in props
    requires forall l, a :: a != DiscoverArgv(props["target_portal"], props["target_port"]) ==> h1(l, a) == h2(l, a)
    requires forall l :: h1(l, DiscoverArgv(props["target_portal"], props["target_port"])).Completed? &&
                         h2(l, DiscoverArgv(props["target_portal"], props["target_port"])).Completed?
    ensures AttachRun(h1, log, props) == AttachRun(h2, log, props)
  {
    assert h1(log, ListArgv) == h2(log, ListArgv);
    var l1 := DevicesRun(h1, log).log;
    var d1 := DiscoverRun(h1, l1, props);
    var d2 := DiscoverRun(h2, l1, props);
    assert d1.log == d2.log;
    if "nqn" in props {
      var argv := ConnectArgv(props["nqn"], props["target_portal"], props["target_port"]);
      assert h1(d1.log, argv) == h2(d1.log, argv);
      assert h1(d1.log + [argv], ListArgv) == h2(d1.log + [argv], ListArgv);
    }
  }

  /** When every command completes, the attach resolves to the devices the second
      listing shows that the first did not, and fails with IndexError when there are none. */
  lemma AttachResolvesNewDevices(host: Host, log: seq<Argv>, props: Props, before: string, discovery: string, after: string)
    requires "nqn" in props && "target_portal" in props && "target_port" in props
    requires var c := AttachCommands(props);
      host(log, c[0]) == Completed(before) &&
      host(log + c[..1], c[1]) == Completed(discovery) &&
      host(log + c[..2], c[2]).Completed? &&
      host(log + c[..3], c[3]) == Completed(after)
    ensures var newDevices := AsSet(DevicesIn(Split(after, '\n'))) - AsSet(DevicesIn(Split(before, '\n')));
      AttachRun(host, log, props) ==
        Run(if newDevices == {} then Err(IndexError) else Ok(newDevices), log + AttachCommands(props))
  {
    var c := AttachCommands(props);
    assert log + c[..1] == log + [c[0]];
    assert log + c[..2] == log + [c[0]] + [c[1]];
    assert log + c[..3] == log + [c[0]] + [c[1]] + [c[2]];
    assert log + c == log + [c[0]] + [c[1]] + [c[2]] + [c[3]];
  }

  /** A detach always runs discovery first, so it needs the portal and port even when
      it is given the device path. */
  lemma DetachDiscoversFirst(host: Host, log: seq<Argv>, props: Props)
    ensures "target_portal" !in props ==> DetachRun(host, log, props) == Run(Err(KeyError("target_portal")), log)
    ensures "target_portal" in props && "target_port" !in props ==>
      DetachRun(host, log, props) == Run(Err(KeyError("target_port")), log)
    ensures "target_portal" in props && "target_port" in props ==>
      var run := DetachRun(host, log, props);
      |run.log| > |log| && run.log[..|log|] == log &&
      run.log[|log|] == DiscoverArgv(props["target_portal"], props["target_port"])
  {
  }

  /** Given 'device_path', the detach disconnects the device named by its last path
      component, whatever discovery printed. */
  lemma DetachByDevicePath(host: Host, log: seq<Argv>, props: Props)
    requires "target_portal" in props && "target_port" in props && "device_path" in props
    requires host(log, DiscoverArgv(props["target_portal"], props["target_port"])).Completed?
    ensures var name := LastComponent(props["device_path"], '/');
      '/' !in name &&
      DetachRun(host, log, props).log ==
        log + [DiscoverArgv(props["target_portal"], props["target_port"]), DisconnectDeviceArgv(name)]
  {
    LastComponentIsSuffix(props["device_path"], '/');
  }

  /** Without 'device_path', the detach disconnects by the NQN discovery found, and
      passes None when discovery found none. */
  lemma DetachByDiscoveredNqn(host: Host, log: seq<Argv>, props: Props, out: string)
    requires "target_portal" in props && "target_port" in props && "device_path" !in props
    requires host(log, DiscoverArgv(props["target_portal"], props["target_port"])) == Completed(out)
    ensures var nqn := GetNvmePortalsFromOutput(out);
      DetachRun(host, log, props).log ==
        log + [DiscoverArgv(props["target_portal"], props["target_port"]),
               DisconnectNqnArgv(if nqn.Some? then Str(nqn.value) else NoneValue)]
  {
  }

  // ---------------------------------------------------------------- examples

  /** A "subnqn:" line after lines that do not begin with "subnqn:" yields its value,
      whatever follows it. */
  lemma NqnAfterHeader(header: seq<string>, p: string, nqn: string, rest: seq<string>)
    requires forall i :: 0 <= i < |header| ==> !IsSubnqnLine(header[i])
    requires AllSpaces(p)
    requires nqn != [] && !IsSpace(nqn[0]) && !IsSpace(nqn[|nqn| - 1])
    ensures NqnFromLines(header + ["subnqn:" + p + nqn] + rest) == Some(nqn)
  {
    NqnOfPaddedLine(p, nqn, rest);
    var lines := header + ["subnqn:" + p + nqn] + rest;
    assert forall i :: 0 <= i < |header| ==> lines[i] == header[i];
    NqnFromLinesSkips(lines, |header|);
    assert lines[|header|..] == ["subnqn:" + p + nqn] + rest;
  }

  const SampleNqn := "nvme-subsystem-name"

  /** The discovery log of the connector's unit test yields "nvme-subsystem-name". */
  lemma DiscoverOutputExample(header: seq<string>, rest: seq<string>)
    requires forall i :: 0 <= i < |header| ==> !IsSubnqnLine(header[i])
    ensures NqnFromLines(header + ["subnqn:" + "  " + SampleNqn] + rest) == Some(SampleNqn)
  {
    assert AllSpaces("  ") && !IsSpace(SampleNqn[0]) && !IsSpace(SampleNqn[|SampleNqn| - 1]);
    NqnAfterHeader(header, "  ", SampleNqn, rest);
  }

  /** A "subnqn:" line with leading whitespace is not recognised. */
  lemma IndentedSubnqnIgnored()
    ensures NqnFromLines(["  subnqn: nvme-subsystem-name"]) == None
  {
    assert "  subnqn: nvme-subsystem-name"[..7][0] == ' ';
  }

  /** The lines of the device listing in the connector's unit test: the text opens
      and ends with a newline, and the device line is followed by an empty line. The
      long lines are written in pieces. */
  function ListHeader(): string
  {
    "Node" + ("             Model                Versio" + "n  Namepace Usage                      F" + "ormat           FW Rev  ")
  }

  function ListRule(): string
  {
    "----" + ("------------ -------------------- ------" + "-- -------- -------------------------- -" + "--------------- --------")
  }

  function ListDevice(): string
  {
    "/dev/nvme0n1" + ("     Vendor SSD 950 PRO   1.1      1    " + "     62.44  GB / 256.06  GB    512   B +" + "  0 B   XXXXXXXX")
  }

  function ListOutputLines(): seq<string>
  {
    ["", ListHeader(), ListRule(), ListDevice(), "", ""]
  }

  /** A single line gives its 12-character device name, or nothing. */
  lemma DevicesOfOneLine(line: string)
    ensures DevicesIn([line]) == if IsDeviceLine(line) then [line[..12]] else []
  {
    assert [line][..0] == [];
  }

  /** A listing shaped like `nvme list` output with one device: an empty line, a
      header and a rule that are not device lines, the device line, two empty lines. */
  lemma DevicesOfOneDeviceListing(header: string, rule: string, device: string)
    requires !IsDeviceLine(header) && !IsDeviceLine(rule) && IsDeviceLine(device)
    ensures DevicesIn(["", header, rule, device, "", ""]) == [device[..12]]
  {
    var l1 := [""];
    assert DevicesIn(l1) == [] by { DevicesOfOneLine(""); }
    var l2 := l1 + [header];
    assert DevicesIn(l2) == [] by { DevicesInAppend(l1, [header]); DevicesOfOneLine(header); }
    var l3 := l2 + [rule];
    assert DevicesIn(l3) == [] by { DevicesInAppend(l2, [rule]); DevicesOfOneLine(rule); }
    var l4 := l3 + [device];
    assert DevicesIn(l4) == [device[..12]] by { DevicesInAppend(l3, [device]); DevicesOfOneLine(device); }
    var l5 := l4 + [""];
    assert DevicesIn(l5) == [device[..12]] by { DevicesInAppend(l4, [""]); DevicesOfOneLine(""); }
    var l6 := l5 + [""];
    assert DevicesIn(l6) == [device[..12]] by { DevicesInAppend(l5, [""]); DevicesOfOneLine(""); }
    assert l6 == ["", header, rule, device, "", ""];
  }

  /** A line that does not start with '/' is not a device line. */
  lemma NotDeviceLine(line: string)
    requires |line| > 0 && line[0] != '/'
    ensures !IsDeviceLine(line)
  {
    if |line| >= 9 {
      assert line[..9][0] == line[0];
    }
  }

  /** A device name followed by anything is a device line naming that device. */
  lemma DeviceLineOf(name: string, rest: string)
    requires |name| == 12 && IsDeviceLine(name)
    ensures IsDeviceLine(name + rest) && (name + rest)[..12] == name
  {
    assert (name + rest)[..12] == name;
    assert (name + rest)[..9] == name[..9];
  }

  /** Of the sample listing's lines, only the device line matches. */
  lemma SampleListingLines()
    ensures !IsDeviceLine(ListHeader()) && !IsDeviceLine(ListRule())
    ensures IsDeviceLine(ListDevice()) && ListDevice()[..12] == "/dev/nvme0n1"
  {
    NotDeviceLine(ListHeader());
    NotDeviceLine(ListRule());
    assert IsDeviceLine("/dev/nvme0n1");
    DeviceLineOf("/dev/nvme0n1", ListDevice()[12..]);
    assert ListDevice() == "/dev/nvme0n1" + ListDevice()[12..];
  }

  /** The sample listing shows exactly one device, /dev/nvme0n1. */
  lemma ListOutputExample()
    ensures |ListOutputLines()| == 6
    ensures DevicesIn(ListOutputLines()) == ["/dev/nvme0n1"]
  {
    SampleListingLines();
    DevicesOfOneDeviceListing(ListHeader(), ListRule(), ListDevice());
  }

  /** Only the first digit after "nvme" and after "n" is matched: a two-digit
      controller number is not recognised, and a two-digit namespace is cut short. */
  lemma DeviceNameWidthExample()
    ensures DevicesIn(["/dev/nvme10n1"]) == []
    ensures DevicesIn(["/dev/nvme0n12"]) == ["/dev/nvme0n1"]
  {
    assert !IsDigit('n');
    assert ["/dev/nvme10n1"][..0] == [];
    assert ["/dev/nvme0n12"][..0] == [];
    assert "/dev/nvme0n12"[..9] == "/dev/nvme";
    assert "/dev/nvme0n12"[..12] == "/dev/nvme0n1";
  }

  const Device0 := "/dev/nvme0n1"
  const Device1 := "/dev/nvme0n2"

  /** The listings of the attach example read back as the devices they show: the
      first shows /dev/nvme0n1, the second /dev/nvme0n2 alone; a listing that keeps
      /dev/nvme0n1 beside /dev/nvme0n2 reads back as both. */
  lemma ExampleListings()
    ensures DevicesIn(Split(Join([Device0], '\n'), '\n')) == [Device0]
    ensures DevicesIn(Split(Join([Device1], '\n'), '\n')) == [Device1]
    ensures DevicesIn(Split(Join([Device0, Device1], '\n'), '\n')) == [Device0, Device1]
  {
    assert IsDeviceLine(Device0) && IsDeviceLine(Device1);
    assert DevicesIn(Split(Join([Device0], '\n'), '\n')) == [Device0] by {
      DevicesOfListing([Device0]);
    }
    assert DevicesIn(Split(Join([Device1], '\n'), '\n')) == [Device1] by {
      DevicesOfListing([Device1]);
    }
    DevicesOfListing([Device0, Device1]);
  }

  /** Of two listings of distinct device names, the second adding one name to the
      first, exactly that name is new. */
  lemma NewDeviceBetweenListings(d0: string, d1: string)
    requires |d0| == 12 && IsDeviceLine(d0) && |d1| == 12 && IsDeviceLine(d1) && d0 != d1
    ensures AsSet(DevicesIn(Split(Join([d0, d1], '\n'), '\n'))) -
      AsSet(DevicesIn(Split(Join([d0], '\n'), '\n'))) == {d1}
  {
    DevicesOfListing([d0]);
    DevicesOfListing([d0, d1]);
    assert AsSet([d0]) == {d0};
    assert AsSet([d0, d1]) == {d0, d1};
  }

  /** Of two one-device listings naming distinct devices, the second device is new:
      the set difference ignores the device that disappeared. */
  lemma ReplacedDevice(d0: string, d1: string)
    requires |d0| == 12 && IsDeviceLine(d0) && |d1| == 12 && IsDeviceLine(d1) && d0 != d1
    ensures AsSet(DevicesIn(Split(Join([d1], '\n'), '\n'))) -
      AsSet(DevicesIn(Split(Join([d0], '\n'), '\n'))) == {d1}
  {
    DevicesOfListing([d0]);
    DevicesOfListing([d1]);
    assert AsSet([d0]) == {d0};
    assert AsSet([d1]) == {d1};
  }

  /** Between the two listings of the attach example (/dev/nvme0n1, then /dev/nvme0n2
      alone) exactly /dev/nvme0n2 is new; so it is when the second listing keeps
      /dev/nvme0n1 as well. */
  lemma ExampleNewDevices()
    ensures AsSet(DevicesIn(Split(Join([Device1], '\n'), '\n'))) -
      AsSet(DevicesIn(Split(Join([Device0], '\n'), '\n'))) == {Device1}
    ensures AsSet(DevicesIn(Split(Join([Device0, Device1], '\n'), '\n'))) -
      AsSet(DevicesIn(Split(Join([Device0], '\n'), '\n'))) == {Device1}
  {
    assert Device0 != Device1 by { assert Device0[11] != Device1[11]; }
    assert IsDeviceLine(Device0) && IsDeviceLine(Device1);
    ReplacedDevice(Device0, Device1);
    NewDeviceBetweenListings(Device0, Device1);
  }

  /** The attach example: the first listing shows /dev/nvme0n1 and the listing after
      the connect shows /dev/nvme0n2 alone; the attach issues the four commands and
      resolves to /dev/nvme0n2. */
  lemma AttachExample(host: Host, log: seq<Argv>, props: Props)
    requires "nqn" in props && "target_portal" in props && "target_port" in props
    requires var c := AttachCommands(props);
      host(log, c[0]) == Completed(Join([Device0], '\n')) &&
      host(log + c[..1], c[1]).Completed? &&
      host(log + c[..2], c[2]).Completed? &&
      host(log + c[..3], c[3]) == Completed(Join([Device1], '\n'))
    ensures AttachRun(host, log, props) == Run(Ok({Device1}), log + AttachCommands(props))
  {
    var c := AttachCommands(props);
    AttachResolvesNewDevices(host, log, props, Join([Device0], '\n'), host(log + c[..1], c[1]).stdout,
                             Join([Device1], '\n'));
    ExampleNewDevices();
  }

  /** A variant of the attach example in which the second listing keeps /dev/nvme0n1
      beside /dev/nvme0n2: /dev/nvme0n2 is again the one device the attach can pick. */
  lemma AttachAddedDeviceExample(host: Host, log: seq<Argv>, props: Props)
    requires "nqn" in props && "target_portal" in props && "target_port" in props
    requires var c := AttachCommands(props);
      host(log, c[0]) == Completed(Join([Device0], '\n')) &&
      host(log + c[..1], c[1]).Completed? &&
      host(log + c[..2], c[2]).Completed? &&
      host(log + c[..3], c[3]) == Completed(Join([Device0, Device1], '\n'))
    ensures AttachRun(host, log, props) == Run(Ok({Device1}), log + AttachCommands(props))
  {
    var c := AttachCommands(props);
    AttachResolvesNewDevices(host, log, props, Join([Device0], '\n'), host(log + c[..1], c[1]).stdout,
                             Join([Device0, Device1], '\n'));
    ExampleNewDevices();
  }

  // ---------------------------------------------------------------- the connector

  class Connector {
    const host: Host
    /** The command lines issued so far, oldest first. */
    var log: seq<Argv>

    constructor(host: Host)
      ensures this.host == host && log == []
    {
      this.host := host;
      log := [];
    }

    /** `self._execute(*argv, ...)`. */
    method Execute(argv: Argv) returns (e: Exec)
      modifies this`log
      ensures log == old(log) + [argv]
      ensures e == host(old(log), argv)
    {
      e := host(log, argv);
      log := log + [argv];
    }

    method GetNvmeDevices() returns (r: Result<seq<string>, Error>)
      modifies this`log
      ensures log == DevicesRun(host, old(log)).log
      ensures r == DevicesRun(host, old(log)).value
    {
      var e := Execute(ListArgv);
      if e.ProcessFailed? {
        return Err(CommandFailed(ListArgv));
      }
      var devices := CollectDevices(e.stdout);
      return Ok(devices);
    }

    method DiscoverNvmePortals(props: Props) returns (r: Result<Option<string>, Error>)
      modifies this`log
      ensures log == DiscoverRun(host, old(log), props).log
      ensures r == DiscoverRun(host, old(log), props).value
    {
      if "target_portal" !in props {
        return Err(KeyError("target_portal"));
      }
      var targetPortal := props["target_portal"];
      if "target_port" !in props {
        return Err(KeyError("target_port"));
      }
      var port := props["target_port"];
      var cmd := DiscoverArgv(targetPortal, port);
      var e := Execute(cmd);
      if e.ProcessFailed? {
        return Err(CommandFailed(cmd));
      }
      return Ok(GetNvmePortalsFromOutput(e.stdout));
    }

    /** Returns `device_info`, the mapping {'type': 'block', 'path': p}, where `p` is an
        arbitrary member of the new devices; fails with IndexError when there is none. */
    method ConnectVolume(props: Props) returns (r: Result<map<string, string>, Error>)
      modifies this`log
      ensures log == AttachRun(host, old(log), props).log
      ensures r.Err? <==> AttachRun(host, old(log), props).value.Err?
      ensures r.Err? ==> r.error == AttachRun(host, old(log), props).value.error
      ensures r.Ok? ==>
        r.value.Keys == {"type", "path"} && r.value["type"] == "block" &&
        r.value["path"] in AttachRun(host, old(log), props).value.value
    {
      var current := GetNvmeDevices();
      if current.Err? {
        return Err(current.error);
      }
      var deviceInfo := map["type" := "block"];
      if "nqn" !in props {
        return Err(KeyError("nqn"));
      }
      var nqn := props["nqn"];
      var discovered := DiscoverNvmePortals(props);
      if discovered.Err? {
        return Err(discovered.error);
      }
      var targetPortal := props["target_portal"];
      var port := props["target_port"];
      var cmd := ConnectArgv(nqn, targetPortal, port);
      var e := Execute(cmd);
      if e.ProcessFailed? {
        return Err(CommandFailed(cmd));
      }
      var all := GetNvmeDevices();
      if all.Err? {
        return Err(all.error);
      }
      var path := AsSet(all.value) - AsSet(current.value);
      if path == {} {
        return Err(IndexError);
      }
      var p :| p in path;
      deviceInfo := deviceInfo["path" := p];
      return Ok(deviceInfo);
    }

    /** `device_info` is not used. */
    method DisconnectVolume(props: Props, deviceInfo: Option<map<string, string>>) returns (r: Result<(), Error>)
      modifies this`log
      ensures log == DetachRun(host, old(log), props).log
      ensures r == DetachRun(host, old(log), props).value
    {
      var nqn := DiscoverNvmePortals(props);
      if nqn.Err? {
        return Err(nqn.error);
      }
      var cmd;
      if "device_path" in props {
        var deviceName := LastComponent(props["device_path"], '/');
        cmd := DisconnectDeviceArgv(deviceName);
      } else {
        cmd := DisconnectNqnArgv(match nqn.value case Some(n) => Str(n) case None => NoneValue);
      }
      var e := Execute(cmd);
      if e.ProcessFailed? {
        return Err(CommandFailed(cmd));
      }
      return Ok(());
    }
  }

  // ---------------------------------------------------------------- unsupported operations

  /** `get_connector_properties`: this connector contributes no properties. */
  function GetConnectorProperties(rootHelper: string): (props: map<string, string>)
    ensures props == map[]
  {
    map[]
  }

  function GetSearchPath(): (path: string)
    ensures path == "/dev  "
  {
    "/dev  "
  }

  function GetVolumePaths(props: Props): (r: Result<seq<string>, Error>)
    ensures r == Err(NotImplemented)
  {
    Err(NotImplemented)
  }

  function ExtendVolume(props: Props): (r: Result<int, Error>)
    ensures r == Err(NotImplemented)
  {
    Err(NotImplemented)
  }
}
