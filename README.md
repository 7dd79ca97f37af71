# Client virtual machines of robottelo, in Dafny

robottelo's `VirtualMachine` (`robottelo/vm.py`) manages one disposable
client virtual machine on a remote provisioning server. Construction picks
a base image and resolves the provisioning server and the image directory
from the arguments and the configuration. `create` clones and boots the
machine with `snap-guest`, then finds its address with `ping`. `run` sends
commands to the machine. `destroy` tears it down with `virsh` and `rm`. A
few bootstrap helpers (install a package, enable a repository, install the
agent, install the certificate, register the host) are made of `run` calls.

The model is imperative, like the source:

- `text.dfy` (module `Text`): the Python string behaviour the code relies
  on. This covers `str.join`, `str.split` on one character, `str(int)` and
  a two-argument `os.path.join`, with round trips for join/split and
  `str(int)`, and the parts of a joined path.
- `ssh.dfy` (module `Ssh`): what a remote call sends (`Call`: command and
  host) and what comes back (`CommandResult`: return code, stdout lines,
  stderr).
- `wrappers.dfy` (module `Wrappers`): `Option`, standing for Python's `None`.
- `vm.dfy` (module `Vm`): the constants, the settings resolution of
  `__init__`, the command lines, the parsing of the ping output, and the
  class `VirtualMachine`. Its fields `hostname`, `ipAddr` and `created` are
  updated in place.

The remote channel `ssh.command` is `VirtualMachine.Command`. It is an
oracle that may return any result, and it records the call and its result
in the ghost field `log`. The contracts therefore state which commands are
sent, in which order and to which host. When "nothing is sent", the log is
unchanged. The global `conf.properties` is a `Config` map given at
construction. The clone's name `str(id(self))` is a `targetImage` string
given at construction. Raised exceptions become returned values: `Outcome`
(`Pass` or `Fail(error)`) for operations that return nothing, `Result` for
those that return something. The error kinds are `VirtualMachineError`
with the source's exact message, and three Python runtime errors the code
can hit: `IndexError`, `TypeError` and `KeyError`.

Consequences of the code as written:

- Every failure the code reports itself is a `VirtualMachineError` with
  the message the code writes. The helpers' messages name the package.
- When snap-guest succeeds but the ping fails (`robottelo/vm.py:121-136`),
  `created` stays false. A later `destroy` then sends nothing, so the clone
  stays on the provisioning server. A later `create` sends snap-guest again.
  `CreateEffect` and `DestroyEffect` state both.
- The address read from the ping output may be empty (`PING x.local () ...`).
  Nothing in the code makes it non-empty.
- Ping output without any `(` makes `create` raise `IndexError`, not a
  `VirtualMachineError`.
- `destroy` does not reset `created`. A second `destroy` sends the three
  teardown commands again, and `run` still goes to the old address.
- `__exit__` only calls `destroy`. When `create` fails inside `__enter__`,
  Python never calls `__exit__`.
- In `destroy` with `image_dir` None, `os.path.join` raises `TypeError` after
  the two `virsh` commands have been sent.

## Model

| member | source | states |
|---|---|---|
| `Vm.ResolveSettings` | robottelo/vm.py:56-83 | Construction succeeds exactly when the chosen distro is a base image and a provisioning server comes from the argument or the configuration. An unsupported distro is reported first, with the supported list in the message. A missing server gets its own message. On success, cpu and ram are kept, the argument wins over the configuration for both settings, and the image directory falls back to `/var/lib/libvirt/images/`, so it is always set. |
| `Vm.Resolve` | robottelo/vm.py:67-83 | A setting is the argument when given, else the configuration value, else the default. |
| `Vm.DefaultDistro` | robottelo/vm.py:20-25 | Without a distro, the machine is cloned from `rhel71`, the last base image. |
| `Vm.VirtualMachine.Init` | robottelo/vm.py:56-88 | An error from the settings check is returned before any object (or remote call) exists. Otherwise the new object holds the resolved settings, the config and the target name. It is uncreated, with hostname and address None and an empty log. |
| `Vm.VirtualMachine.constructor` | robottelo/vm.py:85-88 | Given the resolved settings, the fresh object is not created, has no hostname or address, and has sent nothing. |
| `Vm.VirtualMachine.BuildProvisionCommand` | robottelo/vm.py:101-119 | Building the argument list (appending `-p <image_dir>` only when there is an image directory) and joining it with spaces gives exactly `snap-guest -b <distro>-base -t <target> -m <ram> -c <cpu> -n bridge=br0 -f`, followed by ` -p <image_dir>` when set. |
| `Vm.ProvisionCommandWords` | robottelo/vm.py:101-119 | When the distro, target and image directory contain no space, splitting that command line on spaces gives back the flags, each followed by its own value. |
| `Vm.VirtualMachine.Command` | robottelo/vm.py:121-133 | A remote call appends exactly its command, its host and the result returned to the log. |
| `Vm.VirtualMachine.Create` | robottelo/vm.py:90-140 | Once created, create sends nothing and changes nothing. Otherwise it sends the snap-guest command to the provisioning server. A non-zero status raises `Failed to run snap-guest: <stderr>`, and nothing else is sent. Otherwise it sends `ping -c 1 <target>.local` to the same server. A non-zero status there raises the address error, and output without `(` raises IndexError; both leave `created`, hostname and address unchanged. On success, the address is the one parsed from the joined stdout, the hostname becomes the target name and the object is created. |
| `Vm.ParseIpAddress` | robottelo/vm.py:137-138 | Parsing fails (IndexError) exactly when the output has no `(`. A parsed address contains neither `(` nor `)`. |
| `Vm.ParseIpOfProbe` | robottelo/vm.py:137-138 | For output `<text without '('>(<address>` followed by nothing or a parenthesis, the address parsed is exactly `<address>`. |
| `Vm.VirtualMachine.Destroy` | robottelo/vm.py:142-159 | An uncreated machine sends nothing. Otherwise destroy sends exactly `virsh destroy <hostname>`, `virsh undefine <hostname>` and `rm <image_dir>/<hostname>.img` to the provisioning server, in this order, and ignores their results. With no image directory, TypeError is raised before the `rm`. `created` is not reset. |
| `Vm.VirtualMachine.Run` | robottelo/vm.py:240-257 | An uncreated machine refuses with the not-created error and sends nothing. Otherwise `cmd` goes unchanged to the machine's address, and the result is returned as is. |
| `Vm.VirtualMachine.DownloadInstallRpm` | robottelo/vm.py:161-179 | Refuses when not created. Otherwise sends exactly the `wget`, `rpm -i` and `rpm -q` commands to the machine. It fails with `Failed to install <package> rpm.` exactly when the query's status is non-zero. |
| `Vm.VirtualMachine.EnableRepo` | robottelo/vm.py:181-188 | Refuses when not created. Otherwise sends exactly the `subscription-manager repos --enable <repo>` command and succeeds whatever it returns. |
| `Vm.VirtualMachine.InstallKatelloAgent` | robottelo/vm.py:190-201 | Refuses when not created. Otherwise sends `yum install -y katello-agent`, then `rpm -q katello-agent`. It fails exactly when the query's status is non-zero. |
| `Vm.VirtualMachine.InstallKatelloCert` | robottelo/vm.py:203-222 | Refuses when not created. Otherwise sends `rpm -Uvh <url>`. A non-zero status fails at once with the download message. A configuration without `main.server.hostname` raises KeyError after that one command. Otherwise it sends `rpm -q katello-ca-consumer-<server hostname>` and fails exactly when that query's status is non-zero. |
| `Vm.VirtualMachine.RegisterContenthost` | robottelo/vm.py:224-238 | Behaves as `run` of `subscription-manager register --activationkey <key> --org <org> --force` and returns its result unjudged. |
| `Vm.VirtualMachine.Enter` | robottelo/vm.py:259-261 | Entering a `with` block has exactly the effect of `create`. |
| `Vm.VirtualMachine.Exit` | robottelo/vm.py:263-264 | Leaving a `with` block has exactly the effect of `destroy`. |
| `Text.Split` | robottelo/vm.py:138 | `split` on one character gives one more piece than there are separators, and no piece contains the separator. |
| `Text.JoinSplit` | robottelo/vm.py:138 | Joining the pieces of a split with the separator gives back the original text. |
| `Text.SplitJoin` | robottelo/vm.py:113 | Joining separator-free pieces and splitting again gives back the pieces. |
| `Text.IntToStringRoundTrip` | robottelo/vm.py:113-119 | The decimal text of ram and cpu in the command reads back as the same number. |
| `Text.PathJoinParts` | robottelo/vm.py:155-157 | The image name ends the joined path. An absolute name replaces the directory. A relative name keeps the directory in front, with a single `/` between them exactly when the directory is non-empty and does not already end in `/`. |

## Left out

- `time.sleep(60)` in `create`: a wall-clock wait with no logical effect.
- Logging (`logger`) is left out: the module never writes to it.
- The SSH transport (connections, authentication, timeouts) is left out. A remote call is an oracle that may return any result, and connection failures look like any other result.
- `get_server_cert_rpm_url()` is a call into the rest of robottelo. Its value is the `certRpmUrl` parameter of `InstallKatelloCert`.
- `str(id(self))` depends on the Python runtime. The clone's name is the `targetImage` parameter, and the model does not require it to be unique or non-empty.
- `conf.properties`, the process-wide configuration, is the `Config` map given at construction. Its values are strings, so after `Init` the image directory is always set. The `image_dir is None` paths of `create` and `destroy` are reachable only through the constructor, which accepts any settings.
- `cpu` and `ram` are integers. Python would format any object there.
- The body of a `with` block is left out. Only `__enter__` and `__exit__` are modelled, as `Enter` and `Exit`. That `__exit__` runs when the body raises is Python's guarantee, not the code's.
- `os.path.join` is modelled for two POSIX paths only.
- Everything outside `robottelo/vm.py` is left out: the API, CLI and UI test modules and the fixtures. They drive the remote product and hold no logic of their own here.
