# node-resource-manager reconciliation engine, in Dafny

This project models the reconciliation engine of node-resource-manager. The engine is an agent that runs on each node and keeps the node's local storage as a cluster configuration describes it:
- LVM volume groups over block devices and persistent-memory (pmem) regions;
- quota paths, which are mount points over a device or a pmem region;
- pmem regions put online as system memory (KMEM).

It has three reconcilers: volume group, quota path and memory. Each has two phases:
- `AnalyseConfigMap` keeps the rules of the configuration file that select the node, and builds the wanted state;
- `ApplyResourceDiff` compares that state with what the node reports, and issues create, extend, mount or online commands through the LVM, Pmemer and Mounter collaborators.

A manager sweep runs the three reconcilers in turn.

The model has these parts:

- **LVM output parser** (`Model`): the `<:SEP:>`-separated `KEY='value'` rows of `lvs`, `vgs` and `pvs`, the ten-character attribute block, unsigned sizes and comma-separated tags. It is proved:
  - against independent printers of rows (round trips);
  - for its error cases: wrong arity, malformed component, bad number.
- **LVM listing and command guards** (`Lvm`):
  - the line filters of `ListLV`, `ListVG` and `ListPhysicalVolume`;
  - the argument building of `CreateLV`;
  - the guards of `RemoveLV`, `RemoveVG`, `AddTagLV` and `RemoveTagLV`.

  Each is given the command's output and returns the decision taken.
- **Pure helpers**:
  - `Utils`: node filter, region/namespace names, namespace device lookup, `IsPart`, `checkFSType`'s reading of its outputs;
  - `Pmem`: namespace command mode, the exactly-one-namespace rule, device paths, KMEM check, namespace-in-use test;
  - `VgUtils`: `diffDevice`, `PKCS5UnPadding`, `ListDevice`;
  - `CusErr`: error messages;
  - `GoStd`: the parts of Go's `strings`, `strconv` and `filepath` they rely on.
- **The node** (`Host`), as abstract state:
  - what its queries return: existing paths, `pvs` output, pmem listings, device probes, `daxctl` listing;
  - which commands fail;
  - how a successful command changes later queries;
  - an append-only log of the commands issued (`CreateVG`, `ExtendVG`, `CreateNamespace`, `EnsureFolder`, `FormatAndMount`, `MakeNamespaceMemory`, `Event`).

  `Node` is a class whose `Issue` method appends to that log.
- **The three reconcilers** (`VolumeGroup`, `QuotaPath`, `Memory`). Each is a class with the fields its Go `ResourceManager` reassigns. Its methods are proved equal to specification functions of the old state, and the properties the code promises are lemmas about those functions.
  - Go's unspecified map iteration order is an out-parameter of each apply method. The lemmas hold for every order.
  - Node labels are a parameter.
  - The configuration file is `Missing`, `Unreadable` or a list of rules.
- **The manager** (`Manager`): `BuildResource` (apply only after a successful analysis) and one sweep of `BuildUnifiedResource`.

## Model

| member | source | states |
|---|---|---|
| Model.FixedMinorToProto | pkg/model/type.go:93-95 | true exactly for the character 'm' |
| Model.ActivationSkippedToProto | pkg/model/type.go:164-166 | true exactly for the character 's' |
| Model.ParseComponent | pkg/model/type.go:369-382 | a parsed component has a key without `=` and is exactly `key='value'`; otherwise the error names the component |
| Model.ParseComponentOfComponent | pkg/model/type.go:369-382 | every key without `=` and every value read back from `key='value'` |
| Model.Parse | pkg/model/type.go:362-387 | the in-place loop over the components computes `ParseFields` |
| Model.ParseOne | pkg/model/type.go:369-382 | the loop body splits at the first `=` and strips the quotes, or fails on that component |
| Model.ParseFieldsArity | pkg/model/type.go:363-366 | a row whose separator count differs from N fails with "expected N components, got M" |
| Model.ParseFieldsOk | pkg/model/type.go:362-387 | `parse` succeeds iff the count matches and every component is well formed; then the keys are exactly the components' keys |
| Model.FieldsLoopOk | pkg/model/type.go:368-385 | the component loop succeeds iff every component is well formed |
| Model.FieldsLoopFirstError | pkg/model/type.go:368-385 | on failure the error is that of the first malformed component |
| Model.FieldsLoopKeys | pkg/model/type.go:368-385 | the keys of the result are the keys already present plus every component's key |
| Model.FieldsLoopLastWins | pkg/model/type.go:383 | a later component with the same key overrides an earlier one |
| Model.FieldsLoopUntouched | pkg/model/type.go:383 | a key that no component names keeps its value |
| Model.ParseAttrs | pkg/model/type.go:389-407 | succeeds iff the block has exactly ten characters, with the size error otherwise |
| Model.AttrsStringOfParse | pkg/model/type.go:394-404 | field i is character i: reassembling the ten fields gives back the block |
| Model.ParseAttrsOfString | pkg/model/type.go:394-404 | every attribute record read back from its ten characters |
| Model.AttrsFlags | pkg/model/type.go:398-404 | the fixed-minor and activation-skipped flags read positions 3 and 9 |
| Model.ParseLV | pkg/model/type.go:272-313 | succeeds iff eight components parse, the size is a base-10 uint64, major and minor are base-10 uint32 and the attributes have ten characters; the size, major and minor are the parsed numbers, the name, uuid and copy percent are copied, the attributes are read from their block, and tags are the comma split (an empty field gives [""]) |
| Model.ParseVG | pkg/model/type.go:315-340 | succeeds iff five components parse and both sizes are base-10 uint64; size and free size are the parsed numbers, name and uuid are copied, tags are the comma split |
| Model.ParsePV | pkg/model/type.go:342-360 | succeeds iff four components parse and the size is a base-10 uint64; the size is the parsed number, the name, group and uuid are copied |
| Model.ParseLVArity | pkg/model/type.go:276-279 | a row with a component count other than eight is not a logical volume |
| Model.ParseLVOfTwoPieces | pkg/model/type_test.go:20 | a line holding the separator once fails with "expected 8 components, got 2" |
| Model.SplitTwo | pkg/model/type.go:363 | a row of two separator-free pieces splits into those two |
| Model.Components | pkg/model/type.go:363 | the printer of a row emits one `key='value'` component per pair, in order |
| Model.FieldsLoopComponents | pkg/model/type.go:368-385 | reading printed components gives the in-order assignment of their pairs |
| Model.ParseFieldsOfRow | pkg/model/type.go:362-387 | parsing a printed row gives back its key/value assignments |
| Model.TagsRoundTrip | pkg/model/type.go:309 | comma-joined tags without commas split back into the same tags |
| Model.AssignLookup | pkg/model/type.go:383 | after assigning the pairs, a key holds the value of the last pair that names it |
| Model.AssignUntouched | pkg/model/type.go:383 | keys that no pair names are untouched |
| Model.AssignDistinct | pkg/model/type.go:383 | with distinct keys every key reads back as its own value |
| Model.ParsePVOfRow | pkg/model/type.go:342-360 | ParsePV reads back every physical volume whose fields print unambiguously |
| Model.ParseVGOfRow | pkg/model/type.go:315-340 | ParseVG reads back every volume group whose fields print unambiguously |
| Model.LVRowFields | pkg/model/type.go:272-300 | the fields `parse` reads from a printed logical volume are its own |
| Model.ParseLVOfRow | pkg/model/type.go:272-313 | ParseLV reads back every logical volume whose fields print unambiguously |
| GoStd.TrimLeft | pkg/utils/lvm.go:64 | strips exactly the leading white space |
| GoStd.TrimRight | pkg/utils/lvm.go:64 | strips exactly the trailing white space |
| GoStd.TrimSpaceShape | pkg/utils/lvm.go:64 | the trimmed text has no white space at either end and is empty iff the text is all white space |
| GoStd.Index | pkg/model/type.go:370 | the first position at which the text occurs, or -1 when it never does |
| GoStd.IndexChar | pkg/model/type.go:370 | a single character is found iff it occurs, at its first occurrence |
| GoStd.Split | pkg/model/type.go:363 | a split gives at least one piece |
| GoStd.JoinSplit | pkg/utils/lvm.go:69 | joining the pieces of a split gives back the text |
| GoStd.SplitJoin | pkg/model/type.go:363 | splitting a join gives back the pieces when none holds the separator |
| GoStd.ParseUint | pkg/model/type.go:281-294 | base-10 digits only, at least one, and the value below 2^bitSize; the value is the decimal value of the digits |
| GoStd.ParseUintErrors | pkg/model/type.go:281-294 | the error returned unchanged by ParseLV: "value out of range" exactly when a leading run of digits overflows, even before a bad character, else "invalid syntax", with the input quoted |
| GoStd.ParseUintOverflowFirst | pkg/model/type.go:286-289 | "4294967296x" at 32 bits is a range error, as strconv's left-to-right scan reports |
| GoStd.DecimalValuePrefix | pkg/model/type.go:281-294 | a longer run of digits never has a smaller value, which is why the first overflow decides the error |
| GoStd.QuoteChar | pkg/model/type.go:281-294 | how strconv.Quote writes a character of the input in the error text: unchanged exactly when it is not a control character, DEL, `"` or `\` (beyond ASCII: see Left out) |
| GoStd.QuotePlain | pkg/model/type.go:281-294 | an input with nothing to escape appears between double quotes as it is |
| GoStd.QuoteEscapes | pkg/model/type.go:281-294 | a double quote, a backslash and a newline are escaped |
| GoStd.ParseUintItoa | pkg/model/type.go:281-294 | the decimal text of a number that fits parses back to it |
| GoStd.JoinDevPlain | pkg/utils/utils.go:130 | `filepath.Join("/dev", name)` is "/dev/" + name for a plain name |
| GoStd.JoinDevEmpty | pkg/utils/utils.go:130 | an empty name joins to "/dev" |
| GoStd.MapKeys | pkg/manager/volumegroup/volumegroup.go:352 | a `range` over a map visits each key exactly once |
| Lvm.ListLV | pkg/utils/lvm.go:56-83 | a failed `lvs` fails, a blank output is the empty list, otherwise the listing loop's result |
| Lvm.ListLVLines | pkg/utils/lvm.go:69-81 | the loop over the lines computes the generic listing loop with the `LVM2_LV_NAME` filter |
| Lvm.ListVG | pkg/utils/lvm.go:141-167 | a failed `vgs` fails, a blank output is the empty list, otherwise the listing loop's result |
| Lvm.ListVGLines | pkg/utils/lvm.go:154-165 | the loop over the lines computes the listing loop, skipping WARNING lines |
| Lvm.ListPhysicalVolume | pkg/utils/lvm.go:170-198 | a failed `pvs` fails, a blank output is the empty list, otherwise the listing loop's result |
| Lvm.ListPVLines | pkg/utils/lvm.go:183-196 | the loop computes the listing loop, skipping WARNING lines and keeping only named volumes of a named group |
| Lvm.ListLoopOk | pkg/utils/lvm.go:76-79 | the listing succeeds iff every kept line parses |
| Lvm.ListLoopValue | pkg/utils/lvm.go:69-81 | on success the retained records of the kept lines, in order |
| Lvm.ListLoopError | pkg/utils/lvm.go:76-79 | on failure the error of a kept line that does not parse, with no partial result |
| Lvm.ListLVCases | pkg/utils/lvm.go:64-82 | the records of the lines naming a volume, in order, all or nothing, with the error of a bad line |
| Lvm.ListVGCases | pkg/utils/lvm.go:150-166 | the records of the non-warning lines, in order, all or nothing |
| Lvm.ListPhysicalVolumeCases | pkg/utils/lvm.go:178-197 | the non-warning lines' volumes that have a group and a name, in order, or an error |
| Lvm.Kept | pkg/utils/lvm.go:71-75 | no more lines are kept than there are |
| Lvm.ParsedAll | pkg/utils/lvm.go:76-80 | one record per line, each that line's parse |
| Lvm.Retained | pkg/utils/lvm.go:193-195 | exactly the records that pass the filter, each one of the records |
| Lvm.TagArgs | pkg/utils/lvm.go:95-97 | one flag/tag pair per tag, in order |
| Lvm.AppendTagArgs | pkg/utils/lvm.go:95-97 | the append loop adds exactly those pairs |
| Lvm.CreateLV | pkg/utils/lvm.go:86-103 | a zero size is refused before anything runs; otherwise the joined `lvcreate` arguments run |
| Lvm.CreateLVArgsShape | pkg/utils/lvm.go:91-98 | size in bytes, "-m N --nosync" only for N > 0, "--add-tag" before each tag, the group last |
| Lvm.HasProtectedTag | pkg/utils/lvm.go:117-121 | the tag loop finds the "protected" tag iff it is there |
| Lvm.RemoveLV | pkg/utils/lvm.go:106-128 | the decision taken from the `lvs vg/name` output |
| Lvm.RemoveLVRuns | pkg/utils/lvm.go:111-121 | `lvremove` runs iff exactly one unprotected volume is listed; no volume succeeds without removing; several are refused |
| Lvm.FindVG | pkg/utils/lvm.go:228-233 | the first listed group of that name, absent iff none has it |
| Lvm.FindVGFirst | pkg/utils/lvm.go:228-233 | the group found is the first of that name |
| Lvm.RemoveVG | pkg/utils/lvm.go:222-248 | the decision taken from the `vgs` output |
| Lvm.RemoveVGRuns | pkg/utils/lvm.go:234-241 | `vgremove` runs iff the group is listed and its first listing is unprotected |
| Lvm.AddTagLV | pkg/utils/lvm.go:252-273 | the `lvchange --addtag` decision from the `lvs vg/name` output |
| Lvm.RemoveTagLV | pkg/utils/lvm.go:276-297 | the `lvchange --deltag` decision from the `lvs vg/name` output |
| Lvm.TagLVRuns | pkg/utils/lvm.go:257-259 | tagging runs iff exactly one volume is listed; none gives "expected 1 LV, got 0" |
| Utils.NodeFilter | pkg/utils/utils.go:77-117 | the flag loops over the labels compute the selector predicate |
| Utils.SelectsNegations | pkg/utils/utils.go:81-112 | NotIn is the negation of In, DoesNotExist that of Exists |
| Utils.ExistsIgnoresValue | pkg/utils/utils.go:97-104 | Exists holds iff the key is a label, whatever the value; In implies Exists |
| Utils.UnknownOperator | pkg/utils/utils.go:113-116 | any other operator selects nothing |
| Utils.ConvertRegion2Namespace | pkg/utils/utils.go:120-123 | "namespace" + the name after its first six characters + ".0"; a panic for shorter names |
| Utils.ConvertRegionName | pkg/utils/utils.go:120-123 | "region" + i becomes "namespace" + i + ".0" |
| Utils.ConvertRegionInjective | pkg/utils/utils.go:120-123 | names with the same six-character prefix get different namespaces |
| Utils.FirstNamed | pkg/utils/utils.go:127-133 | the first namespace of that name, absent iff none has it |
| Utils.ConvertNamespace2LVMDevicePath | pkg/utils/utils.go:126-135 | the nested loop finds the first namespace of that name, regions then namespaces |
| Utils.LvmDevicePathFound | pkg/utils/utils.go:126-135 | the path is "" iff no namespace has that name |
| Utils.LvmDevicePathPlain | pkg/utils/utils.go:130 | the path is "/dev/" + the block device of the first match |
| Utils.IsPart | pkg/utils/utils.go:170-184 | true iff every element of the small list is in the large one |
| Utils.CheckFSType | pkg/utils/utils.go:137-167 | the reading of the two command outputs |
| Utils.FSTypeLoopError | pkg/utils/utils.go:156-166 | the line scan fails only with ErrParse |
| Utils.FSTypeLoopSound | pkg/utils/utils.go:156-166 | a type is returned only from a `TYPE=` line preceded only by other `key=value` lines |
| Utils.FSTypeLoopComplete | pkg/utils/utils.go:156-166 | such a line makes the scan return its type |
| Utils.FSTypeData | pkg/utils/utils.go:148-150 | a "data" answer means no filesystem |
| Pmem.CreateNamespaceLine | pkg/utils/pmem.go:73-87 | type "lvm" gives the plain command; any other type appends " --mode=devdax" |
| Pmem.CreateNamespaceModes | pkg/utils/pmem.go:75-79 | the two command lines differ exactly by the devdax option |
| Pmem.RegionNamespaceInfo | pkg/utils/pmem.go:125-149 | succeeds iff the listing has a region whose first region has exactly one namespace, with the source's two messages otherwise |
| Pmem.DevicePathFor | pkg/utils/pmem.go:117-121 | "/dev/" + block device for fsdax, + char device otherwise |
| Pmem.NamespaceDevicePath | pkg/utils/pmem.go:107-123 | succeeds iff the lookup does and the namespace has the mode asked for; gives its path and name |
| Pmem.ZeroOrMultiReported | pkg/utils/pmem.go:144-147 | zero or several namespaces give the "0 or multi namespaces" error |
| Pmem.DevicePathShape | pkg/utils/pmem.go:117-122 | a found path starts with "/dev/" |
| Pmem.CheckKMEMCreated | pkg/utils/pmem.go:159-177 | a listing error is passed on; otherwise true iff the char device is listed as system-ram |
| Pmem.NamespaceUsed | pkg/utils/pmem.go:90-104 | used if the PV count is other than "0", else iff a filesystem type is found |
| Pmem.UnusedWhenData | pkg/utils/pmem.go:90-104 | no PV and "data" means free |
| Pmem.UsedByFilesystem | pkg/utils/pmem.go:97-102 | a `TYPE=` line makes the device used even with no PV |
| CusErr.ExistsFormatMessage | pkg/err/errors.go:27-29 | the message starts with the fixed lead and ends with the mount error |
| CusErr.ExistsFormatFields | pkg/err/errors.go:27-29 | where the two filesystem names sit in the message |
| CusErr.ExistsFormatInjective | pkg/err/errors.go:27-29 | with names of equal lengths, the message determines every field |
| CusErr.ExistsFormatExample | pkg/err/error_test.go:33-44 | the message for ext4, xfs and "error mount" |
| CusErr.DeviceNotExistsMessage | pkg/err/errors.go:36-38 | the device sits between the fixed lead and tail |
| CusErr.DeviceNotExistsInjective | pkg/err/errors.go:36-38 | different devices give different messages |
| CusErr.DeviceNotExistsExample | pkg/err/error_test.go:50-58 | the message for /dev/vdc |
| Host.Outcome | pkg/utils/utils.go:68-74 | a command returns an error iff the node makes it fail |
| Host.Perform | pkg/utils/utils.go:68-74 | issuing logs the command; a successful one with an effect changes later queries |
| Host.PerformExtends | pkg/utils/utils.go:68-74 | issuing extends the log by exactly that command |
| Host.Node.Issue | pkg/utils/utils.go:68-74 | the node's state after a command and the error returned |
| VgUtils.DiffDevice | pkg/manager/volumegroup/utils.go:96-114 | true iff the lengths differ or an element of the first list is missing from the second |
| VgUtils.DevicesDifferSelf | pkg/manager/volumegroup/utils.go:96-114 | a list never differs from itself |
| VgUtils.DevicesDifferAsymmetric | pkg/manager/volumegroup/utils.go:100-113 | [a,a] does not differ from [a,b], but [a,b] differs from [a,a] |
| VgUtils.UnPad | pkg/manager/volumegroup/utils.go:242-246 | drops as many trailing bytes as the last says; a panic on empty input or an overlong count |
| VgUtils.Pad | pkg/manager/volumegroup/utils.go:242-246 | reference padding: n copies of n after the data |
| VgUtils.UnPadPad | pkg/manager/volumegroup/utils.go:242-246 | removing the padding undoes adding it |
| VgUtils.ListDevice | pkg/manager/volumegroup/utils.go:77-94 | nothing when the command fails, otherwise the device lines of the output |
| VgUtils.DeviceLoop | pkg/manager/volumegroup/utils.go:86-92 | the loop keeps the trimmed non-blank non-warning lines, in order |
| VgUtils.KeptShape | pkg/manager/volumegroup/utils.go:87-92 | every kept line is accepted and is one of the lines, trimmed |
| VgUtils.DeviceLinesShape | pkg/manager/volumegroup/utils.go:87-92 | every device kept is a trimmed line that is neither blank nor a warning |
| VgUtils.KeptFilter | pkg/manager/volumegroup/utils.go:87-92 | every line that, trimmed, is accepted is kept |
| VgUtils.DeviceLinesFilter | pkg/manager/volumegroup/utils.go:87-92 | every non-blank non-warning line is kept |
| VgUtils.TrimSpaceIdempotent | pkg/manager/volumegroup/utils.go:88 | trimming twice is trimming once |
| VolumeGroup.Difference | pkg/manager/volumegroup/volumegroup.go:126-138 | the map-then-loop computes the elements of `a` not in `b` |
| VolumeGroup.WithoutMembers | pkg/manager/volumegroup/volumegroup.go:126-138 | an element is in the difference iff it is in `a` and not in `b` |
| VolumeGroup.WithoutEmpty | pkg/manager/volumegroup/volumegroup.go:126-138 | the difference is empty iff `a` is inside `b` |
| VolumeGroup.WithoutSelf | pkg/manager/volumegroup/volumegroup.go:126-138 | a list minus itself is empty |
| VolumeGroup.WithoutAppend | pkg/manager/volumegroup/volumegroup.go:132-136 | the difference keeps `a`'s order |
| VolumeGroup.WithoutDisjoint | pkg/manager/volumegroup/volumegroup.go:132-136 | with nothing shared, all of `a`, duplicates included |
| VolumeGroup.LastLetterIndex | pkg/manager/volumegroup/volumegroup.go:160-164 | the index found is below the bound and holds the letter, or is 0 |
| VolumeGroup.DeviceStart | pkg/manager/volumegroup/volumegroup.go:154-166 | the name prefix and the start index the loop computes |
| VolumeGroup.DeviceStartVdb | pkg/manager/volumegroup/volumegroup.go:154-166 | for "vdb" the search starts at "vd" and index 0 |
| VolumeGroup.LocalDiskPaths | pkg/manager/volumegroup/volumegroup.go:168-172 | one path per disk |
| VolumeGroup.PvListForLocalDisk | pkg/manager/volumegroup/volumegroup.go:140-184 | the local disk list for the given count |
| VolumeGroup.LocalDiskNames | pkg/manager/volumegroup/volumegroup.go:167-172 | with 1 to 25 disks and "vdb" present: /dev/vdb, /dev/vdc, ... in order |
| VolumeGroup.LocalDiskPanics | pkg/manager/volumegroup/volumegroup.go:168-169 | more than 25 disks index past the letters |
| VolumeGroup.AddToGroups | pkg/manager/volumegroup/volumegroup.go:240-254 | one volume joins the groups of its name or starts a new one |
| VolumeGroup.GetRealVgList | pkg/manager/volumegroup/volumegroup.go:231-257 | the grouping of the `pvs` listing, or its error |
| VolumeGroup.GroupAll | pkg/manager/volumegroup/volumegroup.go:238-256 | the loop over the volumes computes the grouping |
| VolumeGroup.GroupPvsNames | pkg/manager/volumegroup/volumegroup.go:238-256 | the groups come in first-seen order |
| VolumeGroup.FirstSeenDistinct | pkg/manager/volumegroup/volumegroup.go:238-256 | first occurrences are distinct and are the names seen |
| VolumeGroup.GroupPvsMembers | pkg/manager/volumegroup/volumegroup.go:238-256 | each group collects its volumes in listing order |
| VolumeGroup.RealVgListShape | pkg/manager/volumegroup/volumegroup.go:238-256 | each group name once, first-seen order, each group exactly its volumes in listing order |
| VolumeGroup.GetExistDevices | pkg/manager/volumegroup/volumegroup.go:266-276 | keeps the entries that exist and records one event for each other |
| VolumeGroup.ExistingDevicesSplit | pkg/manager/volumegroup/volumegroup.go:266-276 | an entry is kept iff configured and existing; every other entry gets one event |
| VolumeGroup.ExistingDevicesAll | pkg/manager/volumegroup/volumegroup.go:266-276 | all existing: all kept in order, no event |
| VolumeGroup.AnalyseKeys | pkg/manager/volumegroup/volumegroup.go:299-325 | device groups are named by the selecting device and local rules, region groups by the selecting pmem rules; no other rule adds a name |
| VolumeGroup.AnalyseKeepsExisting | pkg/manager/volumegroup/volumegroup.go:299-325 | only existing regions and devices are kept; events name missing entries |
| VolumeGroup.AnalyseRuleEvents | pkg/manager/volumegroup/volumegroup.go:299-325 | a rule only appends events |
| VolumeGroup.AnalyseOne | pkg/manager/volumegroup/volumegroup.go:300-324 | one iteration of the rule loop |
| VolumeGroup.CollectRules | pkg/manager/volumegroup/volumegroup.go:278-325 | the rule loop builds the two maps and logs the events |
| VolumeGroup.VgManager.AnalyseConfigMap | pkg/manager/volumegroup/volumegroup.go:260-328 | a missing file changes nothing; an unreadable one is an error; otherwise both maps are replaced |
| VolumeGroup.CreateVg | pkg/manager/volumegroup/volumegroup.go:78-88 | one CreateVG over the volumes joined by spaces, no tags |
| VolumeGroup.UpdateVg | pkg/manager/volumegroup/volumegroup.go:91-123 | the state and status of updateVg's run |
| VolumeGroup.UpdateVgRefuses | pkg/manager/volumegroup/volumegroup.go:92-112 | a shorter list, a removal or a no-op fails and issues nothing |
| VolumeGroup.UpdateVgExtends | pkg/manager/volumegroup/volumegroup.go:107-122 | otherwise one ExtendVG with exactly the missing volumes |
| VolumeGroup.UpdateVgAtMostOne | pkg/manager/volumegroup/volumegroup.go:91-123 | at most one command |
| VolumeGroup.FindGroup | pkg/manager/volumegroup/volumegroup.go:358-368 | the first group of that name, absent iff none has it |
| VolumeGroup.GroupAction | pkg/manager/volumegroup/volumegroup.go:356-368 | the scan decides create, update with the current volumes, or no change |
| VolumeGroup.DeviceActionCases | pkg/manager/volumegroup/volumegroup.go:358-376 | create iff absent; no change iff present with every expected volume |
| VolumeGroup.ApplyDeviceFirst | pkg/manager/volumegroup/volumegroup.go:369-375 | the first group that needs work decides the whole call |
| VolumeGroup.ApplyDeviceNoChange | pkg/manager/volumegroup/volumegroup.go:350-378 | nothing is issued when every group is complete |
| VolumeGroup.ApplyDeviceAtMostOne | pkg/manager/volumegroup/volumegroup.go:350-378 | at most one command per call |
| VolumeGroup.DeviceActionAtMostOne | pkg/manager/volumegroup/volumegroup.go:369-375 | one group's action issues at most one command |
| VolumeGroup.ApplyDeviceExample | pkg/manager/volumegroup/volumegroup_test.go:211-221 | no group on the node and two devices give CreateVG("volumegroup1", "/dev/vdb /dev/vdc", []) |
| VolumeGroup.VgManager.ApplyDevice | pkg/manager/volumegroup/volumegroup.go:350-378 | applyDeivce over the order its `range` visits |
| VolumeGroup.FillRegionCmds | pkg/manager/volumegroup/volumegroup.go:391-398 | creates a namespace for each listed region of that name that has none |
| VolumeGroup.FillRegionNamespaces | pkg/manager/volumegroup/volumegroup.go:391-398 | the first pass issues namespace creations only |
| VolumeGroup.FillRegionAbsent | pkg/manager/volumegroup/volumegroup.go:391-398 | a region absent from the listing gets nothing created |
| VolumeGroup.PrepareVgRegions | pkg/manager/volumegroup/volumegroup.go:389-404 | the first pass for one group |
| VolumeGroup.PrepareRegionsNamespaces | pkg/manager/volumegroup/volumegroup.go:389-404 | the first pass for one group issues namespace creations only |
| VolumeGroup.PrepareRegionsDone | pkg/manager/volumegroup/volumegroup.go:389-404 | succeeds iff every region is listed and well named |
| VolumeGroup.PrepareAllNamespaces | pkg/manager/volumegroup/volumegroup.go:387-405 | the whole first pass issues namespace creations only |
| VolumeGroup.PrepareAllDone | pkg/manager/volumegroup/volumegroup.go:387-405 | the first pass succeeds iff every region of every group is listed and well named |
| VolumeGroup.ApplyRegionRefusesMissing | pkg/manager/volumegroup/volumegroup.go:399-402 | an absent or misnamed region: no success and no volume group created |
| VolumeGroup.ResolveRegionDevices | pkg/manager/volumegroup/volumegroup.go:413-425 | the devices in use and all devices, in order |
| VolumeGroup.UpdatePmemVg | pkg/manager/volumegroup/volumegroup.go:454-465 | one ExtendVG with every device given |
| VolumeGroup.ExtendOrCreate | pkg/manager/volumegroup/volumegroup.go:427-448 | the second pass for one group |
| VolumeGroup.ExtendScanAbsent | pkg/manager/volumegroup/volumegroup.go:427-441 | no group of that name: the scan issues nothing |
| VolumeGroup.ExtendScanDistinct | pkg/manager/volumegroup/volumegroup.go:427-441 | only the group of that name matters |
| VolumeGroup.RegionVgStepCases | pkg/manager/volumegroup/volumegroup.go:427-448 | an in-use non-member blocks the extend, any in-use device blocks the create, all members is a no-op; otherwise extend with every device or create |
| VolumeGroup.VgManager.ApplyRegion | pkg/manager/volumegroup/volumegroup.go:380-452 | applyRegion over the orders its two `range` loops visit |
| VolumeGroup.ApplyResourceDiffStatus | pkg/manager/volumegroup/volumegroup.go:331-348 | fails iff the volumes cannot be listed, and then issues nothing |
| VolumeGroup.ApplyResourceDiffNothingWanted | pkg/manager/volumegroup/volumegroup.go:339-344 | nothing wanted: nothing issued |
| VolumeGroup.VgManager.ApplyResourceDiff | pkg/manager/volumegroup/volumegroup.go:331-348 | the group listing, then the device groups, then the region groups |
| QuotaPath.MkfsOptionSplit | pkg/manager/quotapath/quotapath.go:120 | the mkfs options are exactly ["-O", "project,quota"] |
| QuotaPath.RuleConfig | pkg/manager/quotapath/quotapath.go:85-106 | device rules copy devices, fstype, options and type; pmem rules need exactly one region; other types are skipped |
| QuotaPath.QpRulesFirstWins | pkg/manager/quotapath/quotapath.go:78-110 | the first accepted rule for a mount path wins; a rejected rule does not reserve the name |
| QuotaPath.QpAnalysisIsFirstAccepted | pkg/manager/quotapath/quotapath.go:76-113 | starting from nothing, the maps hold exactly the first accepted rule of each path |
| QuotaPath.QpRulesTypes | pkg/manager/quotapath/quotapath.go:85-103 | device entries are of type "device", region entries of type "pmem" |
| QuotaPath.QpManager.AnalyseConfigMap | pkg/manager/quotapath/quotapath.go:58-115 | a missing file changes nothing; an unreadable one is an error; otherwise both maps are replaced |
| QuotaPath.MountFirstShape | pkg/manager/quotapath/quotapath.go:146-160 | only configured devices are mounted on the path, and every try but the last failed |
| QuotaPath.MountFirstNone | pkg/manager/quotapath/quotapath.go:147-150 | with none of its devices present, nothing is mounted |
| QuotaPath.MountFirstTries | pkg/manager/quotapath/quotapath.go:146-160 | the first present device is mounted first |
| QuotaPath.DeviceQuotaStepShape | pkg/manager/quotapath/quotapath.go:139-160 | EnsureFolder first; its failure skips the path |
| QuotaPath.MountDevices | pkg/manager/quotapath/quotapath.go:146-160 | the device loop |
| QuotaPath.QpManager.ApplyDeviceQuotaPath | pkg/manager/quotapath/quotapath.go:132-163 | applyDeivceQuotaPath over the order its `range` visits |
| QuotaPath.FsdaxDeviceFound | pkg/manager/quotapath/quotapath.go:167-184 | the device is the node's fsdax device after the lookup; create only on a "0 or multi namespaces" error |
| QuotaPath.FsdaxDeviceCreates | pkg/manager/quotapath/quotapath.go:169-170 | zero or several namespaces trigger CreateNamespace(region, "lvm") |
| QuotaPath.RegionQuotaStepShape | pkg/manager/quotapath/quotapath.go:166-194 | at most a namespace creation, EnsureFolder, then one mount once the folder exists |
| QuotaPath.ResolveFsdax | pkg/manager/quotapath/quotapath.go:167-184 | the lookup with its one retry |
| QuotaPath.MountRegion | pkg/manager/quotapath/quotapath.go:166-194 | one mount path of applyRegionQuotaPath |
| QuotaPath.QpManager.ApplyRegionQuotaPath | pkg/manager/quotapath/quotapath.go:165-197 | applyRegionQuotaPath over the order its `range` visits |
| QuotaPath.QpManager.ApplyResourceDiff | pkg/manager/quotapath/quotapath.go:118-130 | device paths, then region paths, with the fixed mkfs options; never an error |
| Memory.MemConfigsMembers | pkg/manager/memory/memory.go:69-82 | a configuration is kept iff a selecting rule with exactly one region gives it |
| Memory.MemConfigsAppend | pkg/manager/memory/memory.go:69-82 | the rules are read independently and in order |
| Memory.MemManager.AnalyseConfigMap | pkg/manager/memory/memory.go:49-84 | a missing file changes nothing; an unreadable one is an error; otherwise the list is replaced |
| Memory.DaxDevice | pkg/manager/memory/memory.go:90-102 | a found device path starts with "/dev/" |
| Memory.DaxDeviceFound | pkg/manager/memory/memory.go:90-102 | the device is the node's devdax device; a namespace is created only after a failed lookup |
| Memory.KmemStepShape | pkg/manager/memory/memory.go:90-114 | at most a namespace creation, then MakeNamespaceMemory for the char device, only when not listed as system memory |
| Memory.KmemStepSettled | pkg/manager/memory/memory.go:103-109 | an already-online region is left alone |
| Memory.KmemAllCommands | pkg/manager/memory/memory.go:89-115 | only namespace creations and MakeNamespaceMemory calls are issued |
| Memory.ResolveDevdax | pkg/manager/memory/memory.go:90-102 | the lookup with its one retry |
| Memory.OnlineRegion | pkg/manager/memory/memory.go:90-114 | one region of ApplyResourceDiff |
| Memory.MemManager.ApplyResourceDiff | pkg/manager/memory/memory.go:87-117 | every configured region in order; never an error |
| Manager.VgBuildFails | pkg/manager/manager.go:99-107 | the volume-group build fails iff its configuration is unreadable or the volume listing fails |
| Manager.VgBuildSkipsApply | pkg/manager/manager.go:102-105 | a failed analysis applies nothing |
| Manager.BuildVolumeGroups | pkg/manager/manager.go:99-107 | BuildResource on the volume-group reconciler: node and status as VgBuildRun, and the maps it keeps are what the analysis left |
| Manager.QpMemBuildFails | pkg/manager/manager.go:99-107 | the quota-path and memory builds fail iff their configuration is unreadable |
| Manager.BuildQuotaPaths | pkg/manager/manager.go:99-107 | BuildResource on the quota-path reconciler: node and status as QpBuildRun, and the maps it keeps are the analysed ones |
| Manager.BuildMemory | pkg/manager/manager.go:99-107 | BuildResource on the memory reconciler: node and status as MemBuildRun, and the regions it keeps are the analysed ones |
| Manager.Sweep | pkg/manager/manager.go:83-97 | volume groups, then quota paths, then memory, each on the node the previous one left and whatever it reported; the statuses are the three builds' in that order; a volume-group panic stops the sweep with the node it left; the reconcilers keep their analysed maps for the next sweep |

## Left out

- Running commands, HTTP, files and the Kubernetes client are left out. Command outputs, decoded JSON and YAML, node labels and `FileExists` answers are inputs: the `View` of the node, and the parameters of the list and remove functions.
- `getLocalDeviceNum` calls the ECS API. Its result is a parameter of `AnalyseConfigMap`.
- The credential code of pkg/manager/volumegroup/utils.go (`GetMetaData`, `NewEcsClient`, `GetDefaultAK`, `GetLocalAK`, `GetSTSAK`, `GetManagedToken`, `Decrypt`) is left out because it is HTTP, environment variables and AES from a library. Only `PKCS5UnPadding` is modelled.
- pkg/utils/mounter.go is not part of this model. `EnsureFolder` and `FormatAndMount` are commands in the log, and the node decides whether they succeed.
- The goroutine and the 20-second pause of `BuildUnifiedResource` are left out. One sweep is modelled.
- `CloneLV`, `CreateVG` and `ExtendVG` of pkg/utils/lvm.go have no guard and no output handling. The model logs CreateVG and ExtendVG as commands and does not rebuild their command text.
- Lengths are counted in characters, not in UTF-8 bytes. This includes the `devicePath[5:]` slice and the `region[6:]` slice.
- Go run-time panics (an index past the device letters, a region name shorter than six characters, a short padding) are a `Panicked` status or `None`.
- The `errors.Is` test at pkg/manager/quotapath/quotapath.go:153 compares with a fresh pointer and can never match. The model therefore records no event for a refused mount.
- Quota-path and memory rules are taken to have the `ResourceYaml` shape. The types of their lists are not part of this model.
- One place where the model follows the code: an empty tags field gives the one tag "" (pkg/model/type.go:309, 337).
- `ListDevice`'s command text is not modelled; its output is a parameter. In the code its `nsenter` prefix enters only the mount namespace (pkg/manager/volumegroup/utils.go:45), unlike pkg/utils/utils.go:44.
- GoStd.QuoteChar: a character beyond ASCII is written as it is. strconv.Quote escapes the non-printable ones as `\u` or `\U`, and Unicode's printability tables are not part of this model.
- The errors of `applyDeivce` and `applyRegion` are dropped by `ApplyResourceDiff` (pkg/manager/volumegroup/volumegroup.go:339-344), and the model drops them too.
