# NVMe-oF support of os-brick, in Dafny

This project models the NVMe over Fabrics code of os-brick and proves properties of the model. It has three parts.

- **The target resource API** (`NVMeTargetObject`, module `TargetResources`). Each operation checks its arguments, then makes exactly one JSON-RPC call to the target daemon. An operation is a pure function from its arguments to an `Outcome`:
  - `Rejected(message)` when a guard raises `NVMeParamException`;
  - `Call(rpc, params)` for the single `client.call` it makes. `params == None` means the argument is left out.
- **The JSON-RPC client** (`NVMeRPCClient`, module `JsonRpc`). It is a class with the `payload` field that `call` updates, plus a log of the requests written to the socket.
  - The request is the object of section 4 of the JSON-RPC 2.0 Specification.
  - The read loop is a `while` loop. It is proved equal to the function `Frame`, which specifies framing.
  - The handling of `error` and `result` follows section 5 and section 5.1 of the JSON-RPC 2.0 Specification.
- **The initiator connector** (`NVMeConnector`, module `NvmeConnector`). It is a class holding the log of the command lines it has issued.
  - Each command line is answered by a host oracle.
  - Each operation is proved against a `...Run` function. That function gives the operation's result and the log it leaves.
  - The two line parsers are pure functions. The device-collecting loop is a method.

Supporting modules:

- `Wrappers`: `Option` and `Result`.
- `Text`: Python's `str.split`, `str.strip` and decimal formatting, with their round trips.
- `JsonValues`: decoded JSON values, Python truthiness, and JSON lists of strings and ints.

Inputs the code takes from outside become parameters:

- The stream of `recv(4096)` results is a finite sequence of chunks, after which the peer reads as closed. A peer that never closes and never completes a message is therefore not represented (see "## Left out").
- `json.loads` is a parameter `parse: string -> Option<Json>`.
- The answer of `_execute` to a command line is the `Host` function of the log so far and the command line.

## Model

| member | source | states |
|---|---|---|
| Text.Split | os_brick/initiator/connectors/nvme.py:54 | `split('\n')` gives at least one piece, and no piece contains a newline |
| Text.JoinSplit | os_brick/initiator/connectors/nvme.py:54 | splitting loses nothing: joining the pieces with the separator gives back the text |
| Text.SplitJoin | os_brick/initiator/connectors/nvme.py:74 | splitting a newline-join of newline-free lines gives back exactly those lines |
| Text.LastComponentIsSuffix | os_brick/initiator/connectors/nvme.py:136 | `split('/')[-1]` is the longest '/'-free suffix: it has no '/', it is a suffix, and it is the whole text or follows a '/' |
| Text.TrimLeft | os_brick/initiator/connectors/nvme.py:57 | the result is a suffix of the input; the removed characters are all whitespace; the result does not start with whitespace |
| Text.TrimRight | os_brick/initiator/connectors/nvme.py:57 | the result is a prefix of the input; the removed characters are all whitespace; the result does not end with whitespace |
| Text.Strip | os_brick/initiator/connectors/nvme.py:57 | `strip()` is no longer than its input, neither starts nor ends with whitespace, and keeps only characters of the input |
| Text.StripPadded | os_brick/initiator/connectors/nvme.py:57 | `strip()` removes exactly the whitespace around a word whose ends are not whitespace |
| Text.NatToDecimal | os_brick/target/nvme/client.py:25-26 | the decimal text of a port is a non-empty string of digits |
| Text.DecimalRoundTrip | os_brick/target/nvme/client.py:25-26 | the decimal text of any int reads back as that int |
| JsonValues.Truthy | os_brick/target/nvme/client.py:36 | Python's truth value of a decoded value: None, False, 0, the empty string, list and mapping are false, all else true |
| JsonValues.Given | os_brick/target/nvme/client.py:45 | `if params:` holds exactly when the parameters were passed and are truthy; `BuildRequest` states its effect on the request |
| JsonValues.Strings | os_brick/target/nvme/rpc/resources.py:51-56 | a list of strings sent as JSON decodes back to the same list |
| JsonValues.Ints | os_brick/target/nvme/rpc/resources.py:167-180 | a list of ints sent as JSON decodes back to the same list |
| JsonRpc.Url | os_brick/target/nvme/client.py:25-26 | the address `http://<ip>:<port>/jsonrpc`; `UrlNamesPort` states that the port reads back from it |
| JsonRpc.UrlNamesPort | os_brick/target/nvme/client.py:25-26 | the URL `http://<ip>:<port>/jsonrpc` names its port: reading the port back from the URL gives it, whatever the address |
| JsonRpc.RpcClient.constructor | os_brick/target/nvme/client.py:24-32 | the URL is built on `port + instance_id`; the address, port, id and headers are stored; the payload starts as `{'jsonrpc': '2.0', 'id': 1}` |
| JsonRpc.BuildRequest | os_brick/target/nvme/client.py:41-46 | the request has keys jsonrpc='2.0', method, id=1, and 'params' if and only if the parameters are truthy, holding them |
| JsonRpc.EnvelopeUnique | os_brick/target/nvme/client.py:41-46 | the method and the parameters determine the request completely |
| JsonRpc.Frame | os_brick/target/nvme/client.py:49-62 | the framing of the read loop: receive, stop on an empty receive with the response unchanged, stop at the first buffer that parses; `FrameFirstParse`, `FrameClosedFirst` and `FragmentationInvariant` characterise it |
| JsonRpc.ReadResponse | os_brick/target/nvme/client.py:49-62 | the read loop ends with the response that `Frame` specifies |
| JsonRpc.FrameFirstParse | os_brick/target/nvme/client.py:53-62 | the response is the parse of everything received up to the first receive after which the buffer parses |
| JsonRpc.FrameClosedFirst | os_brick/target/nvme/client.py:50-74 | a close before any buffer parses leaves the response `{}`, so `call` fails looking up 'result' and does not raise NVMeRPCException |
| JsonRpc.FragmentationInvariant | os_brick/target/nvme/client.py:53-62 | a message in two fragments, the first of which does not parse alone, gives the same response as the whole message in one receive |
| JsonRpc.Interpret | os_brick/target/nvme/client.py:70-74 | each outcome with its exact condition, as an if-and-only-if: NVMeRPCException with `error['message']` when 'error' is a mapping with a message; KeyError('message') when 'error' is a mapping without one; TypeError when the response, or its 'error', is not a mapping; `result` returned when there is no 'error' but a 'result'; KeyError('result') when there is neither |
| JsonRpc.InterpretExample | os_brick/tests/target/nvme/test_client.py:47-65 | a response carrying `{'message': 'Some error'}` raises it; a response without 'error' returns its result |
| JsonRpc.BindsAsWritten | os_brick/target/nvme/client.py:34 | `call(method, params)` binds if and only if `params` is passed |
| JsonRpc.RpcClient.Call | os_brick/target/nvme/client.py:34-74 | `payload['method']` is overwritten; `payload['params']` is overwritten only by truthy parameters, so earlier parameters persist; jsonrpc and id stay '2.0' and 1; one request goes to `(ip, port + instance_id)` with the envelope above; the result is the interpreted response of the read loop |
| TargetResources.FirstNonPositive | os_brick/target/nvme/rpc/resources.py:157-160 | the tag loop stops at the first tag ≤ 0; every tag before it is positive |
| TargetResources.GetInitiatorGroups | os_brick/target/nvme/rpc/resources.py:24-30 | one 'get_initiator_groups' call, parameters left out |
| TargetResources.AddInitiatorGroup | os_brick/target/nvme/rpc/resources.py:32-56 | rejected with 'Tag value must be > 0' if and only if tag ≤ 0; otherwise one 'add_initiator_group' call with exactly tag, initiators and netmasks, each decoding back to its argument |
| TargetResources.DeleteInitiatorGroup | os_brick/target/nvme/rpc/resources.py:58-70 | rejected with the tag message if and only if tag ≤ 0; otherwise one 'delete_initiator_group' call with exactly {tag} |
| TargetResources.GetPortalGroups | os_brick/target/nvme/rpc/resources.py:72-78 | one 'get_portal_groups' call, parameters left out |
| TargetResources.AddPortalGroup | os_brick/target/nvme/rpc/resources.py:80-99 | rejected with the tag message if and only if tag ≤ 0; otherwise one 'add_portal_group' call with exactly tag and portals |
| TargetResources.DeletePortalGroup | os_brick/target/nvme/rpc/resources.py:101-113 | rejected with the tag message if and only if tag ≤ 0; otherwise one 'delete_portal_group' call with exactly {tag} |
| TargetResources.GetTargetNodes | os_brick/target/nvme/rpc/resources.py:115-121 | one 'get_target_nodes' call, parameters left out |
| TargetResources.AddTargetNode | os_brick/target/nvme/rpc/resources.py:123-180 | the tag message if and only if some tag in pg_tags + ig_tags is ≤ 0; the LUN0 message if and only if all tags are positive and 0 ∉ lun_ids; otherwise one 'construct_target_node' call with all eleven arguments unchanged under their own names |
| TargetResources.TargetNodeFieldsKeys | os_brick/target/nvme/rpc/resources.py:168-180 | the `construct_target_node` parameters have exactly the eleven keys |
| TargetResources.TargetNodeFieldsNode | os_brick/target/nvme/rpc/resources.py:169-172 | name, alias_name, pg_tags and ig_tags hold their arguments, the lists decoding back to them |
| TargetResources.TargetNodeFieldsLuns | os_brick/target/nvme/rpc/resources.py:173-174 | lun_names and lun_ids decode back to their arguments |
| TargetResources.TargetNodeFieldsSettings | os_brick/target/nvme/rpc/resources.py:175-179 | queue_depth and the four CHAP settings hold their arguments |
| TargetResources.DeleteTargetNode | os_brick/target/nvme/rpc/resources.py:182-194 | one 'delete_target_node' call with exactly {name} |
| TargetResources.GetActiveLuns | os_brick/target/nvme/rpc/resources.py:196-202 | one call of the daemon method 'get_luns', parameters left out |
| TargetResources.DeleteLun | os_brick/target/nvme/rpc/resources.py:204-212 | one 'delete_lun' call with exactly {name} |
| TargetResources.ConstructAioLun | os_brick/target/nvme/rpc/resources.py:214-222 | one 'construct_aio_lun' call with exactly {fname} |
| TargetResources.ConstructMallocLun | os_brick/target/nvme/rpc/resources.py:224-248 | 'Total size must be > 0' if and only if total ≤ 0, checked first; 'Block size must be > 0' if and only if total > 0 and block ≤ 0; otherwise a call with block_size and num_blocks, which is the largest count of blocks fitting in total_size MB |
| TargetResources.AddIpAddress | os_brick/target/nvme/rpc/resources.py:250-264 | one 'add_ip_address' call with exactly ifc_index and ip_address |
| TargetResources.DeleteIpAddress | os_brick/target/nvme/rpc/resources.py:266-280 | one 'delete_ip_address' call with exactly ifc_index and ip_address |
| TargetResources.GetTraceFlags | os_brick/target/nvme/rpc/resources.py:282-288 | one 'get_trace_flags' call, parameters left out |
| TargetResources.SetTraceFlag | os_brick/target/nvme/rpc/resources.py:290-298 | one 'set_trace_flag' call with exactly {flag} |
| TargetResources.ClearTraceFlag | os_brick/target/nvme/rpc/resources.py:300-308 | one 'clear_trace_flag' call with exactly {flag} |
| TargetResources.GetInterfaces | os_brick/target/nvme/rpc/resources.py:310-316 | one 'get_interfaces' call, parameters left out |
| TargetResources.GetIscsiConnections | os_brick/target/nvme/rpc/resources.py:318-324 | one 'get_iscsi_connections' call, parameters left out |
| TargetResources.GetScsiDevices | os_brick/target/nvme/rpc/resources.py:326-332 | one 'get_scsi_devices' call, parameters left out |
| TargetResources.ConstructNvmfSubsystem | os_brick/target/nvme/rpc/resources.py:334-381 | one 'construct_nvmf_subsystem' call with exactly the eight arguments under their own names, lists decoding back to the arguments |
| TargetResources.DeleteNvmfSubsystem | os_brick/target/nvme/rpc/resources.py:383-395 | one 'delete_nvmf_subsystem' call with exactly {nqn} |
| TargetResources.GetNvmfSubsystems | os_brick/target/nvme/rpc/resources.py:397-403 | one 'get_nvmf_subsystems' call with an explicit None; the argument is not used |
| TargetResources.Kill | os_brick/target/nvme/rpc/resources.py:405-413 | one call of the daemon method 'kill_instance' with exactly {sig_name} |
| TargetResources.GettersDoNotBind | os_brick/target/nvme/rpc/resources.py:24-30 | the eight getters leave the parameter argument out, which the client as written does not accept; `get_nvmf_subsystems` passes one and binds |
| TargetResources.MallocLunExample | os_brick/tests/target/nvme/rpc/test_resources.py:155-171 | (64, 512) gives 131072 blocks; (0, 0) fails on the total size; (32, -512) fails on the block size |
| TargetResources.TargetNodeExample | os_brick/tests/target/nvme/rpc/test_resources.py:116-134 | a bad tag is reported even when LUN0 is missing too; with good tags a missing LUN0 is reported |
| NvmeConnector.ConnectArgv | os_brick/initiator/connectors/nvme.py:102-103 | the connect command line: `nvme connect -t rdma -n <nqn> -a <portal> -s <port>`; `AttachCommands` and `AttachIgnoresDiscoveredNqn` state that the attach issues it with the 'nqn' property |
| NvmeConnector.DisconnectDeviceArgv | os_brick/initiator/connectors/nvme.py:137 | `nvme disconnect -d <name>`; `DetachByDevicePath` states which name the detach passes |
| NvmeConnector.DisconnectNqnArgv | os_brick/initiator/connectors/nvme.py:139 | `nvme disconnect -n <nqn>`, the NQN possibly None; `DetachByDiscoveredNqn` states which value the detach passes |
| NvmeConnector.DiscoverArgvShape | os_brick/initiator/connectors/nvme.py:62-63 | the discovery command has seven elements; its third is "-trdma", then the portal and the port |
| NvmeConnector.NqnFromLines | os_brick/initiator/connectors/nvme.py:54-57 | the first-match loop over the lines; `NqnFromFirstMatch` characterises its result |
| NvmeConnector.GetNvmePortalsFromOutput | os_brick/initiator/connectors/nvme.py:51-57 | the NQN parser applied to the lines of the output; `NqnFromFirstMatch` characterises its result |
| NvmeConnector.NqnFromFirstMatch | os_brick/initiator/connectors/nvme.py:51-57 | None if and only if no line begins with "subnqn:"; otherwise the stripped text after "subnqn:" on the first line that does |
| NvmeConnector.NqnFromLinesSkips | os_brick/initiator/connectors/nvme.py:54-57 | lines before the first "subnqn:" line play no part |
| NvmeConnector.NqnOfPaddedLine | os_brick/initiator/connectors/nvme.py:53-57 | a "subnqn:" line yields its value without the whitespace before it |
| NvmeConnector.NqnAfterHeader | os_brick/initiator/connectors/nvme.py:53-57 | a "subnqn:" line after lines that do not begin with "subnqn:" yields its value, whatever follows it |
| NvmeConnector.DiscoverOutputExample | os_brick/tests/initiator/connectors/test_nvme.py:20-61 | a discovery log shaped like the sample, with "subnqn:  nvme-subsystem-name" after lines that do not begin with "subnqn:", yields "nvme-subsystem-name" |
| NvmeConnector.IndentedSubnqnIgnored | os_brick/initiator/connectors/nvme.py:53-55 | a "subnqn:" line with leading whitespace does not match |
| NvmeConnector.DevicesIn | os_brick/initiator/connectors/nvme.py:70-77 | at most one device per line; each device is a 12-character `/dev/nvme<digit>n<digit>` name |
| NvmeConnector.DevicesInAppend | os_brick/initiator/connectors/nvme.py:74-77 | devices are collected line by line, in line order |
| NvmeConnector.DevicesInMembers | os_brick/initiator/connectors/nvme.py:74-77 | a name is collected if and only if some line matches and starts with it |
| NvmeConnector.DevicesOfNames | os_brick/initiator/connectors/nvme.py:74-77 | lines that are exactly device names are collected unchanged |
| NvmeConnector.DevicesOfListing | os_brick/initiator/connectors/nvme.py:68-79 | a listing of device names, one per line, reads back as those names |
| NvmeConnector.CollectDevices | os_brick/initiator/connectors/nvme.py:69-79 | the loop over the lines of the output collects exactly the devices `DevicesIn` specifies |
| NvmeConnector.NotDeviceLine | os_brick/initiator/connectors/nvme.py:70-75 | the match is anchored: a line that does not start with '/' never matches |
| NvmeConnector.DeviceLineOf | os_brick/initiator/connectors/nvme.py:70-77 | a device name followed by any text matches, and the match is that name |
| NvmeConnector.DevicesOfOneLine | os_brick/initiator/connectors/nvme.py:74-77 | one line yields its 12-character device name if it matches, and nothing otherwise |
| NvmeConnector.DevicesOfOneDeviceListing | os_brick/initiator/connectors/nvme.py:74-77 | an empty line, two non-device lines, a device line and two empty lines yield exactly that device |
| NvmeConnector.SampleListingLines | os_brick/tests/initiator/connectors/test_nvme.py:39-44 | of the sample listing's header, rule and device lines, only the device line matches, naming /dev/nvme0n1 |
| NvmeConnector.ListOutputExample | os_brick/tests/initiator/connectors/test_nvme.py:39-44 | the six lines of the sample listing, taken in full, show exactly /dev/nvme0n1 |
| NvmeConnector.DeviceNameWidthExample | os_brick/initiator/connectors/nvme.py:70-77 | "/dev/nvme10n1" yields nothing and "/dev/nvme0n12" yields "/dev/nvme0n1" |
| NvmeConnector.DevicesRun | os_brick/initiator/connectors/nvme.py:68-79 | one `nvme list` added to the log; the devices of its output, or the failed command; `Connector.GetNvmeDevices` is proved equal to it |
| NvmeConnector.DiscoverRun | os_brick/initiator/connectors/nvme.py:59-66 | discovery succeeds only when both 'target_portal' and 'target_port' are present |
| NvmeConnector.AttachRun | os_brick/initiator/connectors/nvme.py:95-116 | `connect_volume` as a run: list, look up 'nqn', discover, connect, list, then the new devices; the lemmas below fix its commands, log and result |
| NvmeConnector.AttachSucceedsOnlyWithNewDevice | os_brick/initiator/connectors/nvme.py:95-116 | a successful attach had all three properties and found at least one new device |
| NvmeConnector.AttachIssuesCommandsInOrder | os_brick/initiator/connectors/nvme.py:95-111 | whatever the host answers, an attach issues a prefix of list, discover, connect, list, in that order; a success issues all four |
| NvmeConnector.AttachStopsAtFirstFailure | os_brick/initiator/connectors/nvme.py:95-111 | when the first n - 1 commands complete and command n fails, exactly the first n commands are issued and the attach fails with that command |
| NvmeConnector.AttachAllCompleted | os_brick/initiator/connectors/nvme.py:95-116 | when all four commands complete, all four are issued and the attach ends with new devices or IndexError |
| NvmeConnector.AttachMissingProperty | os_brick/initiator/connectors/nvme.py:95-101 | after the first listing, a missing 'nqn', then 'target_portal', then 'target_port' fails with that key before any other command |
| NvmeConnector.AttachIgnoresDiscoveredNqn | os_brick/initiator/connectors/nvme.py:98-103 | what discovery prints plays no part: two hosts that differ only there attach alike, and the connect uses the 'nqn' property |
| NvmeConnector.AttachResolvesNewDevices | os_brick/initiator/connectors/nvme.py:95-116 | when every command completes, the attach resolves to the devices of the second listing not in the first, and fails with IndexError if there are none |
| NvmeConnector.NewDeviceBetweenListings | os_brick/initiator/connectors/nvme.py:111-114 | when the second listing adds one distinct device to the first, exactly that device is new |
| NvmeConnector.ReplacedDevice | os_brick/initiator/connectors/nvme.py:111-114 | when the second listing shows one device other than the first listing's, that device alone is new, though the first one has disappeared |
| NvmeConnector.ExampleNewDevices | os_brick/tests/initiator/connectors/test_nvme.py:72-87 | between the attach example's listings, /dev/nvme0n1 and then /dev/nvme0n2 alone, exactly /dev/nvme0n2 is new; also when the second listing keeps /dev/nvme0n1 |
| NvmeConnector.ExampleListings | os_brick/initiator/connectors/nvme.py:74-77 | the listings /dev/nvme0n1, /dev/nvme0n2, and both together, read back as the devices they show |
| NvmeConnector.AttachExample | os_brick/tests/initiator/connectors/test_nvme.py:72-87 | when the first listing shows /dev/nvme0n1 and the second /dev/nvme0n2 alone, the attach issues the four commands and resolves to /dev/nvme0n2 |
| NvmeConnector.AttachAddedDeviceExample | os_brick/initiator/connectors/nvme.py:95-116 | when the first listing shows /dev/nvme0n1 and the second also /dev/nvme0n2, the attach issues the four commands and can pick only /dev/nvme0n2 |
| NvmeConnector.DetachRun | os_brick/initiator/connectors/nvme.py:132-140 | `disconnect_volume` as a run: discover, then disconnect by device name or by NQN; the lemmas below fix its commands |
| NvmeConnector.DetachSucceedsOnlyWithPortal | os_brick/initiator/connectors/nvme.py:132-140 | a successful detach had the portal and the port |
| NvmeConnector.DetachDiscoversFirst | os_brick/initiator/connectors/nvme.py:132 | a detach needs the portal and the port and runs discovery first, even when given a device path |
| NvmeConnector.DetachByDevicePath | os_brick/initiator/connectors/nvme.py:135-137 | with 'device_path', the detach disconnects `-d` the '/'-free last component of the path |
| NvmeConnector.DetachByDiscoveredNqn | os_brick/initiator/connectors/nvme.py:132-139 | without 'device_path', the detach disconnects `-n` the discovered NQN, or None if there is none |
| NvmeConnector.Connector.constructor | os_brick/initiator/connectors/nvme.py:31-38 | the connector starts with an empty command log |
| NvmeConnector.Connector.Execute | os_brick/initiator/connectors/nvme.py:64-65 | one command is appended to the log and answered by the host given the earlier log |
| NvmeConnector.Connector.GetNvmeDevices | os_brick/initiator/connectors/nvme.py:68-79 | result and new log as `DevicesRun` gives them |
| NvmeConnector.Connector.DiscoverNvmePortals | os_brick/initiator/connectors/nvme.py:59-66 | result and new log as `DiscoverRun` gives them |
| NvmeConnector.Connector.ConnectVolume | os_brick/initiator/connectors/nvme.py:83-116 | the log `AttachRun` gives; fails exactly when it does, with its error; on success `device_info` has exactly 'type' = 'block' and a 'path' among the new devices |
| NvmeConnector.Connector.DisconnectVolume | os_brick/initiator/connectors/nvme.py:120-140 | result and new log as `DetachRun` gives them; `device_info` is not used |
| NvmeConnector.GetConnectorProperties | os_brick/initiator/connectors/nvme.py:40-43 | the connector contributes an empty mapping |
| NvmeConnector.GetSearchPath | os_brick/initiator/connectors/nvme.py:45-46 | the search path is "/dev  ", trailing spaces included |
| NvmeConnector.GetVolumePaths | os_brick/initiator/connectors/nvme.py:48-49 | always NotImplementedError |
| NvmeConnector.ExtendVolume | os_brick/initiator/connectors/nvme.py:142-144 | always NotImplementedError |

## Left out

- Sockets are not modelled: creating, connecting, `sendall` and `close`. The request that `sendall` writes is recorded as a value, together with the address it goes to.
- The commented-out `requests.post` path is not modelled.
- `json.dumps` and `json.loads` are foreign library calls. The request stays a JSON value, and the parser is a parameter. The JSON grammar is not modelled.
- JSON floats are not modelled.
- Privileged command execution is an oracle: `_execute`, `root_helper` and `run_as_root`. The process error it can raise is one `ProcessFailed` outcome. For a command that completes, `stderr` is dropped because the code ignores it. For a command that fails, Python's exception carries the exit code, stdout and stderr to the caller; `CommandFailed` keeps only the command line.
- Text.Strip: removes the six ASCII whitespace characters that `strip()` removes from a byte string, as in Python 2. On a unicode string Python also strips characters such as U+0085 and U+00A0; that is not modelled.
- A None element of a command line (`disconnect -n None`) is kept as `NoneValue`. What the executor then does with it is outside the model.
- The fixed `time.sleep(2)`, oslo logging and the `utils.trace` decorator are not modelled. They do not affect results.
- The `BaseLinuxConnector` constructor is not part of this model. `NVMeConnector.__init__` only forwards to it.
- `NVMeTargetObject.__init__` only constructs the client. The resource functions return the call they would make instead.
- `construct_malloc_lun` uses integer division, as in Python 2. Python 3 would give a float, which is not modelled. Both operands are positive at that point, so Dafny's division and Python's floor division agree.
- A numeric `target_port` is given by its decimal text. The command line holds the port as given.
- NvmeConnector.Connector.ConnectVolume picks an arbitrary member when several new devices appear, as Python's `list(set)[0]` does. The contract says only that the path is one of them.
- A peer that keeps the connection open without ever completing a message makes `call` block in `recv`, or loop forever (os_brick/target/nvme/client.py:53-62). The model's chunk sequence is finite and always ends in a close, so that case is not represented.
- The read loop has no timeout and no distinct error for a connection that closed or a malformed reply, because the code has none. A response document that is not a mapping gives `TypeError`; which Python operation raises it is not distinguished.
- `headers` and `url` are stored by the client's constructor, but `call` does not use them.
- Several source tests disagree with the code; the model follows the code:
  - the `construct_nvmf_subsystem` test (os_brick/tests/target/nvme/rpc/test_resources.py:211-230) passes eleven arguments to an eight-parameter method;
  - the test methods at os_brick/tests/target/nvme/rpc/test_resources.py:203, 232 and 235 have no `test_` prefix;
  - the connect test expects the command `nvme` and no 'nqn' property (os_brick/tests/initiator/connectors/test_nvme.py:89-93). Under the code, those properties fail with KeyError('nqn'), as `AttachMissingProperty` states;
  - the disconnect test's assertion is misspelled (os_brick/tests/initiator/connectors/test_nvme.py:104);
  - the client tests mock `requests.post`, which `call` no longer uses.

## Findings

| source | as written | input that shows it | evidently intended | confidence | as-written member | corrected member |
|---|---|---|---|---|---|---|
| os_brick/target/nvme/client.py:34 | `call(self, method, params)` gives `params` no default, yet eight getters of `NVMeTargetObject` call it with the method name alone (e.g. os_brick/target/nvme/rpc/resources.py:30) | `NVMeTargetObject().get_initiator_groups()` raises TypeError before any request is sent | `params=None`, so that a call without parameters sends a request with no 'params' member | high; not executed | JsonRpc.BindsAsWritten, TargetResources.GettersDoNotBind | JsonRpc.RpcClient.Call |

In the corrected model, `Call` takes parameters that were left out as None. Its contract (`IsEnvelope`) then states that the request has exactly the keys jsonrpc, method and id.
