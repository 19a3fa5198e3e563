/** The target-side resource API (`NVMeTargetObject`): each operation checks its
    arguments locally and then makes exactly one call on the JSON-RPC client.
    An operation is modelled as a function from its arguments to the one thing it
    does: reject with a validation message, or issue one call. */
module TargetResources {
  import opened Wrappers
  import opened JsonValues
  import JsonRpc

  const TagMessage := "Tag value must be > 0"
  const Lun0Message := "LUN0 (id = 0) is required"
  const TotalSizeMessage := "Total size must be > 0"
  const BlockSizeMessage := "Block size must be > 0"

  /** Bytes per megabyte in `construct_malloc_lun`. */
  const MiB := 1024 * 1024

  /** `Rejected(m)`: `NVMeParamException(validation_message=m)` is raised and the
      client is not called. `Call(rpc, params)`: `client.call(rpc, params)` is invoked once;
      `params == None` when the operation leaves the argument out altogether. */
  datatype Outcome = Rejected(message: string) | Call(rpc: string, params: Option<Json>)

  /** A call of `rpc` whose parameter mapping has exactly the keys `keys`. */
  predicate Sends(r: Outcome, rpc: string, keys: set<string>)
  {
    r.Call? && r.rpc == rpc && r.params.Some? && r.params.value.JObject? &&
    r.params.value.fields.Keys == keys
  }

  /** The value the call passes under `key`, as the target daemon reads it. */
  function Param(r: Outcome, key: string): Json
    requires r.Call? && r.params.Some? && r.params.value.JObject?
    requires key in r.params.value.fields
  {
    r.params.value.fields[key]
  }

  /** A call of `rpc` with the parameter argument left out. */
  predicate Query(r: Outcome, rpc: string)
  {
    r.Call? && r.rpc == rpc && r.params.None?
  }

  /** Index of the first tag the check loop of `add_target_node` refuses
      (`|tags|` when it refuses none). */
  function FirstNonPositive(tags: seq<int>): (k: nat)
    ensures k <= |tags|
    ensures forall i :: 0 <= i < k ==> tags[i] > 0
    ensures k < |tags| ==> tags[k] <= 0
  {
    if tags == [] then 0
    else if !(tags[0] > 0) then 0
    else FirstNonPositive(tags[1..]) + 1
  }

  function GetInitiatorGroups(): (r: Outcome)
    ensures Query(r, "get_initiator_groups")
  {
    Call("get_initiator_groups", None)
  }

  function AddInitiatorGroup(tag: int, initiators: seq<string>, netmasks: seq<string>): (r: Outcome)
    ensures r.Rejected? <==> tag <= 0
    ensures r.Rejected? ==> r.message == TagMessage
    ensures r.Call? ==>
      Sends(r, "add_initiator_group", {"tag", "initiators", "netmasks"}) &&
      Param(r, "tag") == JInt(tag) &&
      AsStrings(Param(r, "initiators")) == Some(initiators) &&
      AsStrings(Param(r, "netmasks")) == Some(netmasks)
  {
    if !(tag > 0) then Rejected(TagMessage)
    else
      Call("add_initiator_group", Some(JObject(map[
        "tag" := JInt(tag),
        "initiators" := Strings(initiators),
        "netmasks" := Strings(netmasks)])))
  }

  function DeleteInitiatorGroup(tag: int): (r: Outcome)
    ensures r.Rejected? <==> tag <= 0
    ensures r.Rejected? ==> r.message == TagMessage
    ensures r.Call? ==> Sends(r, "delete_initiator_group", {"tag"}) && Param(r, "tag") == JInt(tag)
  {
    if !(tag > 0) then Rejected(TagMessage)
    else Call("delete_initiator_group", Some(JObject(map["tag" := JInt(tag)])))
  }

  function GetPortalGroups(): (r: Outcome)
    ensures Query(r, "get_portal_groups")
  {
    Call("get_portal_groups", None)
  }

  function AddPortalGroup(tag: int, portals: seq<string>): (r: Outcome)
    ensures r.Rejected? <==> tag <= 0
    ensures r.Rejected? ==> r.message == TagMessage
    ensures r.Call? ==>
      Sends(r, "add_portal_group", {"tag", "portals"}) &&
      Param(r, "tag") == JInt(tag) &&
      AsStrings(Param(r, "portals")) == Some(portals)
  {
    if !(tag > 0) then Rejected(TagMessage)
    else Call("add_portal_group", Some(JObject(map["tag" := JInt(tag), "portals" := Strings(portals)])))
  }

  function DeletePortalGroup(tag: int): (r: Outcome)
    ensures r.Rejected? <==> tag <= 0
    ensures r.Rejected? ==> r.message == TagMessage
    ensures r.Call? ==> Sends(r, "delete_portal_group", {"tag"}) && Param(r, "tag") == JInt(tag)
  {
    if !(tag > 0) then Rejected(TagMessage)
    else Call("delete_portal_group", Some(JObject(map["tag" := JInt(tag)])))
  }

  function GetTargetNodes(): (r: Outcome)
    ensures Query(r, "get_target_nodes")
  {
    Call("get_target_nodes", None)
  }

  /** The keys of a `construct_target_node` call: the eleven argument names. */
  const TargetNodeKeys: set<string> := {
    "name", "alias_name", "pg_tags", "ig_tags", "lun_names", "lun_ids",
    "queue_depth", "chap_disabled", "chap_required", "chap_mutual", "chap_auth_group"}

  /** Every portal-group and initiator-group tag is checked before LUN0 is; a call
      carries all eleven arguments unchanged under their own names. */
  function AddTargetNode(name: string, aliasName: string, pgTags: seq<int>, igTags: seq<int>,
                         lunNames: seq<string>, lunIds: seq<int>, queueDepth: int,
                         chapDisabled: int, chapRequired: int, chapMutual: int,
                         chapAuthGroup: int): (r: Outcome)
    ensures r == Rejected(TagMessage) <==> exists t :: t in pgTags + igTags && t <= 0
    ensures r == Rejected(Lun0Message) <==>
      (forall t :: t in pgTags + igTags ==> t > 0) && 0 !in lunIds
    ensures r.Rejected? ==> r.message in {TagMessage, Lun0Message}
    ensures r.Call? ==>
      Sends(r, "construct_target_node", TargetNodeKeys) &&
      Param(r, "name") == JString(name) &&
      Param(r, "alias_name") == JString(aliasName) &&
      AsInts(Param(r, "pg_tags")) == Some(pgTags) &&
      AsInts(Param(r, "ig_tags")) == Some(igTags) &&
      AsStrings(Param(r, "lun_names")) == Some(lunNames) &&
      AsInts(Param(r, "lun_ids")) == Some(lunIds) &&
      Param(r, "queue_depth") == JInt(queueDepth) &&
      Param(r, "chap_disabled") == JInt(chapDisabled) &&
      Param(r, "chap_required") == JInt(chapRequired) &&
      Param(r, "chap_mutual") == JInt(chapMutual) &&
      Param(r, "chap_auth_group") == JInt(chapAuthGroup)
  {
    var tags := pgTags + igTags;
    var k := FirstNonPositive(tags);
    if k < |tags| then
      assert tags[k] in tags;
      Rejected(TagMessage)
    else if 0 !in lunIds then
      Rejected(Lun0Message)
    else
      TargetNodeFieldsKeys(name, aliasName, pgTags, igTags, lunNames, lunIds, queueDepth,
                           chapDisabled, chapRequired, chapMutual, chapAuthGroup);
      TargetNodeFieldsNode(name, aliasName, pgTags, igTags, lunNames, lunIds, queueDepth,
                           chapDisabled, chapRequired, chapMutual, chapAuthGroup);
      TargetNodeFieldsLuns(name, aliasName, pgTags, igTags, lunNames, lunIds, queueDepth,
                           chapDisabled, chapRequired, chapMutual, chapAuthGroup);
      TargetNodeFieldsSettings(name, aliasName, pgTags, igTags, lunNames, lunIds, queueDepth,
                               chapDisabled, chapRequired, chapMutual, chapAuthGroup);
      Call("construct_target_node", Some(JObject(TargetNodeFields(
        name, aliasName, pgTags, igTags, lunNames, lunIds, queueDepth,
        chapDisabled, chapRequired, chapMutual, chapAuthGroup))))
  }

  /** The parameters of `construct_target_node`, each argument under its own name;
      the four lemmas after it state its keys and values. */
  function TargetNodeFields(name: string, aliasName: string, pgTags: seq<int>, igTags: seq<int>,
                            lunNames: seq<string>, lunIds: seq<int>, queueDepth: int,
                            chapDisabled: int, chapRequired: int, chapMutual: int,
                            chapAuthGroup: int): map<string, Json>
  {
    map[
      "name" := JString(name),
      "alias_name" := JString(aliasName),
      "pg_tags" := Ints(pgTags),
      "ig_tags" := Ints(igTags),
      "lun_names" := Strings(lunNames),
      "lun_ids" := Ints(lunIds),
      "queue_depth" := JInt(queueDepth),
      "chap_disabled" := JInt(chapDisabled),
      "chap_required" := JInt(chapRequired),
      "chap_mutual" := JInt(chapMutual),
      "chap_auth_group" := JInt(chapAuthGroup)]
  }

  lemma TargetNodeFieldsKeys(name: string, aliasName: string, pgTags: seq<int>, igTags: seq<int>,
                             lunNames: seq<string>, lunIds: seq<int>, queueDepth: int,
                             chapDisabled: int, chapRequired: int, chapMutual: int, chapAuthGroup: int)
    ensures TargetNodeFields(name, aliasName, pgTags, igTags, lunNames, lunIds, queueDepth,
                             chapDisabled, chapRequired, chapMutual, chapAuthGroup).Keys == TargetNodeKeys
  {
  }

  lemma TargetNodeFieldsNode(name: string, aliasName: string, pgTags: seq<int>, igTags: seq<int>,
                             lunNames: seq<string>, lunIds: seq<int>, queueDepth: int,
                             chapDisabled: int, chapRequired: int, chapMutual: int, chapAuthGroup: int)
    ensures var fields := TargetNodeFields(name, aliasName, pgTags, igTags, lunNames, lunIds, queueDepth,
                                           chapDisabled, chapRequired, chapMutual, chapAuthGroup);
      "name" in fields && fields["name"] == JString(name) &&
      "alias_name" in fields && fields["alias_name"] == JString(aliasName) &&
      "pg_tags" in fields && AsInts(fields["pg_tags"]) == Some(pgTags) &&
      "ig_tags" in fields && AsInts(fields["ig_tags"]) == Some(igTags)
  {
  }

  lemma TargetNodeFieldsLuns(name: string, aliasName: string, pgTags: seq<int>, igTags: seq<int>,
                             lunNames: seq<string>, lunIds: seq<int>, queueDepth: int,
                             chapDisabled: int, chapRequired: int, chapMutual: int, chapAuthGroup: int)
    ensures var fields := TargetNodeFields(name, aliasName, pgTags, igTags, lunNames, lunIds, queueDepth,
                                           chapDisabled, chapRequired, chapMutual, chapAuthGroup);
      "lun_names" in fields && AsStrings(fields["lun_names"]) == Some(lunNames) &&
      "lun_ids" in fields && AsInts(fields["lun_ids"]) == Some(lunIds)
  {
  }

  lemma TargetNodeFieldsSettings(name: string, aliasName: string, pgTags: seq<int>, igTags: seq<int>,
                                 lunNames: seq<string>, lunIds: seq<int>, queueDepth: int,
                                 chapDisabled: int, chapRequired: int, chapMutual: int, chapAuthGroup: int)
    ensures var fields := TargetNodeFields(name, aliasName, pgTags, igTags, lunNames, lunIds, queueDepth,
                                           chapDisabled, chapRequired, chapMutual, chapAuthGroup);
      "queue_depth" in fields && fields["queue_depth"] == JInt(queueDepth) &&
      "chap_disabled" in fields && fields["chap_disabled"] == JInt(chapDisabled) &&
      "chap_required" in fields && fields["chap_required"] == JInt(chapRequired) &&
      "chap_mutual" in fields && fields["chap_mutual"] == JInt(chapMutual) &&
      "chap_auth_group" in fields && fields["chap_auth_group"] == JInt(chapAuthGroup)
  {
  }

  function DeleteTargetNode(targetNodeName: string): (r: Outcome)
    ensures Sends(r, "delete_target_node", {"name"}) && Param(r, "name") == JString(targetNodeName)
  {
    Call("delete_target_node", Some(JObject(map["name" := JString(targetNodeName)])))
  }

  /** The Python name differs from the daemon's method name. */
  function GetActiveLuns(): (r: Outcome)
    ensures Query(r, "get_luns")
  {
    Call("get_luns", None)
  }

  function DeleteLun(lunName: string): (r: Outcome)
    ensures Sends(r, "delete_lun", {"name"}) && Param(r, "name") == JString(lunName)
  {
    Call("delete_lun", Some(JObject(map["name" := JString(lunName)])))
  }

  function ConstructAioLun(fname: string): (r: Outcome)
    ensures Sends(r, "construct_aio_lun", {"fname"}) && Param(r, "fname") == JString(fname)
  {
    Call("construct_aio_lun", Some(JObject(map["fname" := JString(fname)])))
  }

  /** The total size is checked first; the call carries the number of whole blocks of
      `blockSize` bytes that fit in `totalSize` megabytes. */
  function ConstructMallocLun(totalSize: int, blockSize: int): (r: Outcome)
    ensures r == Rejected(TotalSizeMessage) <==> totalSize <= 0
    ensures r == Rejected(BlockSizeMessage) <==> totalSize > 0 && blockSize <= 0
    ensures r.Call? <==> totalSize > 0 && blockSize > 0
    ensures r.Call? ==>
      Sends(r, "construct_malloc_lun", {"num_blocks", "block_size"}) &&
      Param(r, "block_size") == JInt(blockSize) &&
      Param(r, "num_blocks").JInt? &&
      Param(r, "num_blocks").n * blockSize <= totalSize * MiB < (Param(r, "num_blocks").n + 1) * blockSize
  {
    if !(totalSize > 0) then Rejected(TotalSizeMessage)
    else if !(blockSize > 0) then Rejected(BlockSizeMessage)
    else
      var numBlocks := (totalSize * 1024 * 1024) / blockSize;
      FloorDivision(totalSize * MiB, blockSize);
      Call("construct_malloc_lun", Some(JObject(map[
        "num_blocks" := JInt(numBlocks),
        "block_size" := JInt(blockSize)])))
  }

  /** Integer division rounds down: the quotient is the largest multiple that fits. */
  lemma FloorDivision(x: int, d: int)
    requires x >= 0 && d > 0
    ensures (x / d) * d <= x < (x / d + 1) * d
  {
  }

  function AddIpAddress(ifcIndex: int, ipAddress: string): (r: Outcome)
    ensures Sends(r, "add_ip_address", {"ifc_index", "ip_address"})
    ensures Param(r, "ifc_index") == JInt(ifcIndex) && Param(r, "ip_address") == JString(ipAddress)
  {
    Call("add_ip_address", Some(JObject(map["ifc_index" := JInt(ifcIndex), "ip_address" := JString(ipAddress)])))
  }

  function DeleteIpAddress(ifcIndex: int, ipAddress: string): (r: Outcome)
    ensures Sends(r, "delete_ip_address", {"ifc_index", "ip_address"})
    ensures Param(r, "ifc_index") == JInt(ifcIndex) && Param(r, "ip_address") == JString(ipAddress)
  {
    Call("delete_ip_address", Some(JObject(map["ifc_index" := JInt(ifcIndex), "ip_address" := JString(ipAddress)])))
  }

  function GetTraceFlags(): (r: Outcome)
    ensures Query(r, "get_trace_flags")
  {
    Call("get_trace_flags", None)
  }

  function SetTraceFlag(flag: string): (r: Outcome)
    ensures Sends(r, "set_trace_flag", {"flag"}) && Param(r, "flag") == JString(flag)
  {
    Call("set_trace_flag", Some(JObject(map["flag" := JString(flag)])))
  }

  function ClearTraceFlag(flag: string): (r: Outcome)
    ensures Sends(r, "clear_trace_flag", {"flag"}) && Param(r, "flag") == JString(flag)
  {
    Call("clear_trace_flag", Some(JObject(map["flag" := JString(flag)])))
  }

  function GetInterfaces(): (r: Outcome)
    ensures Query(r, "get_interfaces")
  {
    Call("get_interfaces", None)
  }

  function GetIscsiConnections(): (r: Outcome)
    ensures Query(r, "get_iscsi_connections")
  {
    Call("get_iscsi_connections", None)
  }

  function GetScsiDevices(): (r: Outcome)
    ensures Query(r, "get_scsi_devices")
  {
    Call("get_scsi_devices", None)
  }

  const NvmfSubsystemKeys: set<string> := {
    "core", "mode", "nqn", "listen_addresses", "hosts", "pci_address", "serial_number", "namespaces"}

  /** `listenAddresses` is forwarded as the JSON list of address mappings it is. */
  function ConstructNvmfSubsystem(core: int, mode: string, nqn: string, listenAddresses: Json,
                                  hosts: seq<string>, pciAddress: string, serialNumber: string,
                                  namespaces: seq<string>): (r: Outcome)
    ensures Sends(r, "construct_nvmf_subsystem", NvmfSubsystemKeys)
    ensures Param(r, "core") == JInt(core) && Param(r, "mode") == JString(mode)
    ensures Param(r, "nqn") == JString(nqn) && Param(r, "listen_addresses") == listenAddresses
    ensures AsStrings(Param(r, "hosts")) == Some(hosts)
    ensures Param(r, "pci_address") == JString(pciAddress)
    ensures Param(r, "serial_number") == JString(serialNumber)
    ensures AsStrings(Param(r, "namespaces")) == Some(namespaces)
  {
    Call("construct_nvmf_subsystem", Some(JObject(map[
      "core" := JInt(core),
      "mode" := JString(mode),
      "nqn" := JString(nqn),
      "listen_addresses" := listenAddresses,
      "hosts" := Strings(hosts),
      "pci_address" := JString(pciAddress),
      "serial_number" := JString(serialNumber),
      "namespaces" := Strings(namespaces)])))
  }

  function DeleteNvmfSubsystem(nqnName: string): (r: Outcome)
    ensures Sends(r, "delete_nvmf_subsystem", {"nqn"}) && Param(r, "nqn") == JString(nqnName)
  {
    Call("delete_nvmf_subsystem", Some(JObject(map["nqn" := JString(nqnName)])))
  }

  /** Passes an explicit None as the parameters and does not use its argument. */
  function GetNvmfSubsystems(targetNodeName: string): (r: Outcome)
    ensures r.Call? && r.rpc == "get_nvmf_subsystems" && r.params == Some(JNull)
  {
    Call("get_nvmf_subsystems", Some(JNull))
  }

  function Kill(sigName: string): (r: Outcome)
    ensures Sends(r, "kill_instance", {"sig_name"}) && Param(r, "sig_name") == JString(sigName)
  {
    Call("kill_instance", Some(JObject(map["sig_name" := JString(sigName)])))
  }

  /** The getters leave the parameter argument out, so as the client is written (its
      `call` has no default for `params`) none of them can reach the daemon, while
      `get_nvmf_subsystems`, which passes None explicitly, can. */
  lemma GettersDoNotBind(targetNodeName: string)
    ensures !JsonRpc.BindsAsWritten(GetInitiatorGroups().params)
    ensures !JsonRpc.BindsAsWritten(GetPortalGroups().params)
    ensures !JsonRpc.BindsAsWritten(GetTargetNodes().params)
    ensures !JsonRpc.BindsAsWritten(GetActiveLuns().params)
    ensures !JsonRpc.BindsAsWritten(GetTraceFlags().params)
    ensures !JsonRpc.BindsAsWritten(GetInterfaces().params)
    ensures !JsonRpc.BindsAsWritten(GetIscsiConnections().params)
    ensures !JsonRpc.BindsAsWritten(GetScsiDevices().params)
    ensures JsonRpc.BindsAsWritten(GetNvmfSubsystems(targetNodeName).params)
  {
  }

  /** 64 MB in 512-byte blocks is 131072 blocks; sizes are checked total size first. */
  lemma MallocLunExample()
    ensures ConstructMallocLun(64, 512) ==
      Call("construct_malloc_lun", Some(JObject(map["num_blocks" := JInt(131072), "block_size" := JInt(512)])))
    ensures ConstructMallocLun(0, 0) == Rejected(TotalSizeMessage)
    ensures ConstructMallocLun(32, -512) == Rejected(BlockSizeMessage)
  {
  }

  /** A bad tag is reported even when LUN0 is missing too. */
  lemma TargetNodeExample()
    ensures AddTargetNode("target_name", "target_alias", [1, 2], [0, 20], ["Malloc0", "Malloc1"], [-1, 1],
                          64, 0, 0, 1, 1) == Rejected(TagMessage)
    ensures AddTargetNode("target_name", "target_alias", [1, 2], [10, 20], ["Malloc-1", "Malloc1"], [-1, 1],
                          64, 0, 0, 1, 1) == Rejected(Lun0Message)
  {
    assert 0 in [1, 2] + [0, 20];
  }
}
