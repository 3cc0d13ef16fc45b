# Constellation: Azure scale-set listing and `iam create` input handling

This project models two parts of Constellation in Dafny and proves properties of them.

**Azure scale-set metadata** (`coordinator/cloudprovider/azure/scaleset.go`, module `ScaleSet`, file `scaleset.dfy`). The model covers:

- The role of a scale set, read from its name. The name must end in `constellation-scale-set-coordinators-` or `constellation-scale-set-nodes-`, followed by one or more ASCII letters and digits. Each pattern is a regular expression anchored only at the end, and it is decided here by a hand-written matcher. That matcher is proved equal to the pattern's meaning.
- The conversion of one scale-set VM into instance metadata, either a value or an error.
- The listing of every VM of every scale set across all result pages. This is three methods, one per loop level. Each loop skips nil entries, unnamed scale sets and VMs without an instance ID. Each method is proved equal to a function over the pages: a filter ("the eligible VMs") followed by a conversion.

The listing stops at the first VM whose interface lookup or conversion fails, and returns that error with no instances. It does not skip VMs that fail to convert: it aborts with the first error. `ConvertListedVMsFirstError` and `AbortAt` state the abort.

**IAM creation command** (`cli/internal/cmd/iamcreate.go`, module `IAMCreate`, file `iamcreate.dfy`). The model covers:

- The flag parsing of the AWS, Azure and GCP creators:
  - the AWS prefix bound of 36 bytes (Go's `len`) and the AWS region inferred by dropping the zone's last character;
  - the three GCP patterns, again as hand-written matchers proved equal to what each pattern describes;
  - the GCP region inferred from the zone.
- The filling of the IAM options, done only once every check has passed.
- The provider dispatch of `createRunIAMFunc`, and the wrapping of provider errors.
- The zone compatibility check against the config file.
- The rewriting of the config file with the created values. This includes the loop that sets the zone of every node group.

`wrappers.dfy` (module `Wrappers`) holds `Option`, `Result` and `Outcome`, which stand for nil pointers and Go's `error` returns. `strings.dfy` (module `Strings`) holds the RE2 character classes, UTF-8 length, and Go's `strings.Split` and `strings.Join`, with their round-trip lemmas.

## Model

| member | source | states |
|---|---|---|
| ScaleSet.AlnumTailLength | coordinator/cloudprovider/azure/scaleset.go:16-17 | the length of the longest `[0-9a-zA-Z]` suffix: every character in it is alphanumeric and the character before it is not |
| ScaleSet.MatchesRolePatternSound | coordinator/cloudprovider/azure/scaleset.go:16-17 | every name the matcher accepts contains the literal followed by alphanumerics up to its end |
| ScaleSet.MatchesRolePatternComplete | coordinator/cloudprovider/azure/scaleset.go:16-17 | every name of the pattern's shape is accepted by the matcher, for a literal ending in a non-alphanumeric character |
| ScaleSet.MatchesRolePatternCorrect | coordinator/cloudprovider/azure/scaleset.go:16-17 | for such literals, the matcher accepts a name exactly when the pattern matches it |
| ScaleSet.NoScaleSetNameHasBothRoles | coordinator/cloudprovider/azure/scaleset.go:16-17 | no name matches both the coordinator and the node pattern |
| ScaleSet.ExtractScaleSetVMRole | coordinator/cloudprovider/azure/scaleset.go:98-106 | Coordinator exactly for coordinator names, Node exactly for node names, Unknown exactly when neither pattern matches |
| ScaleSet.CoordinatorRoleExample | coordinator/cloudprovider/azure/scaleset.go:99-100 | a name with a prefix, the coordinator literal and a mixed-case tail is a coordinator |
| ScaleSet.NodeRoleExample | coordinator/cloudprovider/azure/scaleset.go:102-103 | the node literal followed by a digit is a node |
| ScaleSet.UnknownRoleWithoutTail | coordinator/cloudprovider/azure/scaleset.go:16-17 | the empty name, and the literal with no alphanumeric tail, have role Unknown |
| ScaleSet.UnknownRoleWithHyphenTail | coordinator/cloudprovider/azure/scaleset.go:16-17 | a tail ending in `-` does not reach the end of the name: role Unknown |
| ScaleSet.UnknownRoleWithUnderscoreTail | coordinator/cloudprovider/azure/scaleset.go:16-17 | `_` is not in `[0-9a-zA-Z]`: role Unknown |
| ScaleSet.ConvertScaleSetVMToCoreInstance | coordinator/cloudprovider/azure/scaleset.go:74-95 | fails with the instance-ID error when the ID is nil; otherwise fails with the computer-name error when any link to the computer name is nil; otherwise succeeds. On success: the name is the computer name, the provider ID is `azure://` followed by the ID, the role is the scale set's role, the private IPs are extracted from the interfaces, the public IPs are passed through, and the SSH keys are empty when the SSH section is missing, otherwise the extracted keys |
| ScaleSet.ConvertListedVM | coordinator/cloudprovider/azure/scaleset.go:57-61 | a VM converted during the listing has nil public IPs |
| ScaleSet.ConvertListedVMsFailurePersists | coordinator/cloudprovider/azure/scaleset.go:57-64 | once one conversion has failed, later VMs do not change the result |
| ScaleSet.ConvertListedVMsSnoc | coordinator/cloudprovider/azure/scaleset.go:57-65 | converting one more VM either keeps an earlier error, returns this VM's error, or appends this VM's instance |
| ScaleSet.ConvertListedVMsAllSucceed | coordinator/cloudprovider/azure/scaleset.go:57-65 | when every VM converts, the result has one instance per VM, in order |
| ScaleSet.ConvertListedVMsPrefixSucceeds | coordinator/cloudprovider/azure/scaleset.go:57-65 | a successful listing converts every prefix of its VMs successfully |
| ScaleSet.ConvertListedVMsEachSucceeded | coordinator/cloudprovider/azure/scaleset.go:57-65 | a successful listing converted every VM successfully |
| ScaleSet.ConvertListedVMsSuccess | coordinator/cloudprovider/azure/scaleset.go:57-65 | the listing succeeds exactly when every VM converts, and then holds exactly their instances, in order |
| ScaleSet.ConvertListedVMsFirstError | coordinator/cloudprovider/azure/scaleset.go:57-64 | a failed listing returns the error of the first VM that fails to convert; all VMs before it convert |
| ScaleSet.EligibleVMsAppend | coordinator/cloudprovider/azure/scaleset.go:53-56 | the eligible VMs of two concatenated pages are those of each page, concatenated |
| ScaleSet.EligibleVMPagesAppend | coordinator/cloudprovider/azure/scaleset.go:52-56 | the same for the VM page sequence of one scale set |
| ScaleSet.EligibleScaleSetsAppend | coordinator/cloudprovider/azure/scaleset.go:47-51 | the same for the scale sets of one page |
| ScaleSet.EligibleInPagesAppend | coordinator/cloudprovider/azure/scaleset.go:46-51 | the same for the scale-set pages |
| ScaleSet.EligibleVMsLength | coordinator/cloudprovider/azure/scaleset.go:53-56 | filtering a page never adds VMs |
| ScaleSet.EligibleVMsMembers | coordinator/cloudprovider/azure/scaleset.go:53-56 | a VM is listed from a page exactly when it is a non-nil entry of the page with an instance ID |
| ScaleSet.EligibleVMPagesMembers | coordinator/cloudprovider/azure/scaleset.go:52-56 | a VM is listed for a scale set exactly when it is such an entry of one of the scale set's VM pages |
| ScaleSet.EligibleScaleSetsMembers | coordinator/cloudprovider/azure/scaleset.go:47-56 | a VM is listed from a page of scale sets exactly when its named scale set is on the page and the VM is eligible in that scale set |
| ScaleSet.EligibleInPagesMembers | coordinator/cloudprovider/azure/scaleset.go:46-56 | a VM is listed exactly when its named scale set is on some page and the VM is eligible in that scale set |
| ScaleSet.SkippedVMIsIgnored | coordinator/cloudprovider/azure/scaleset.go:54-56 | a nil VM or a VM without an instance ID has no effect on the listing |
| ScaleSet.SkippedScaleSetIsIgnored | coordinator/cloudprovider/azure/scaleset.go:48-50 | a nil or unnamed scale set has no effect on the listing |
| ScaleSet.ListedInstances | coordinator/cloudprovider/azure/scaleset.go:43-71 | a successful listing has one instance per eligible VM, in order; each instance is that VM's conversion, with nil public IPs and its scale set's role |
| ScaleSet.AbortAt | coordinator/cloudprovider/azure/scaleset.go:57-64 | if every VM before a failing VM converted, the listing fails with that VM's error, whatever follows |
| ScaleSet.EligibleVMsAround | coordinator/cloudprovider/azure/scaleset.go:53-56 | the eligible VMs of a page are those before a position, those at it, and those after it |
| ScaleSet.EligibleVMPagesAround | coordinator/cloudprovider/azure/scaleset.go:52-56 | the same for the VM pages of one scale set |
| ScaleSet.EligibleScaleSetsAround | coordinator/cloudprovider/azure/scaleset.go:47-51 | the same for the scale sets of one page |
| ScaleSet.EligibleInPagesAround | coordinator/cloudprovider/azure/scaleset.go:46-51 | the same for the scale-set pages |
| ScaleSet.ScaleSetVisitedBefore | coordinator/cloudprovider/azure/scaleset.go:46-51 | the listing is what the loops visited before a scale set, then that scale set's VMs, then the rest |
| ScaleSet.ListScaleSetVMs | coordinator/cloudprovider/azure/scaleset.go:43-71 | the result is the conversion of exactly the eligible VMs, in page order; it stops at the first failure and returns that error |
| ScaleSet.ListVMsOfScaleSet | coordinator/cloudprovider/azure/scaleset.go:51-67 | after the VM pages of one scale set, the result is the conversion of everything listed so far plus this scale set's eligible VMs |
| ScaleSet.ListVMsOfPage | coordinator/cloudprovider/azure/scaleset.go:53-66 | after one VM page, the result is the conversion of everything listed so far plus the page's eligible VMs; an interface-lookup or conversion error returns at once |
| ScaleSet.AbortInPage | coordinator/cloudprovider/azure/scaleset.go:57-64 | a failure at an eligible VM of the page is the result for the whole page |
| ScaleSet.EligibleVMsPrefixStep | coordinator/cloudprovider/azure/scaleset.go:53-56 | the eligible VMs of one more entry of a page: those before it, then those of the entry |
| ScaleSet.EligibleVMPagesPrefixStep | coordinator/cloudprovider/azure/scaleset.go:52-56 | the same for one more VM page |
| ScaleSet.EligibleScaleSetsPrefixStep | coordinator/cloudprovider/azure/scaleset.go:47-51 | the same for one more scale set |
| ScaleSet.EligibleInPagesPrefixStep | coordinator/cloudprovider/azure/scaleset.go:46-51 | the same for one more scale-set page |
| Strings.Utf8Len | cli/internal/cmd/iamcreate.go:369 | Go's byte length lies between the number of characters and four times it, and equals it exactly for ASCII strings |
| Strings.Split | cli/internal/cmd/iamcreate.go:504 | splitting yields at least one part, and no part contains the separator |
| Strings.SplitAtFirstSeparator | cli/internal/cmd/iamcreate.go:504 | a separator-free part followed by the separator splits off as the first part |
| Strings.SplitWithoutSeparator | cli/internal/cmd/iamcreate.go:504 | a string without the separator is one part |
| Strings.JoinSplit | cli/internal/cmd/iamcreate.go:504-505 | joining the parts of a split gives the string back |
| Strings.SplitJoin | cli/internal/cmd/iamcreate.go:504-505 | splitting a join of separator-free parts gives the parts back |
| IAMCreate.AWSRegionOfZone | cli/internal/cmd/iamcreate.go:380-381 | the region plus the zone's last character is the zone |
| IAMCreate.ParseAWSFlagsSpec | cli/internal/cmd/iamcreate.go:364-392 | a missing prefix flag fails first, then a prefix over 36 bytes. Success exactly when the prefix fits, the zone is read and valid, and the inferred region is valid; then the AWS flags hold that prefix, zone and region (region plus the zone's last character is the zone), and nothing else changes |
| IAMCreate.AWSPrefixBoundInCharacters | cli/internal/cmd/iamcreate.go:369-371 | a prefix of more than 36 characters is always too long; for an ASCII prefix the bound is exactly 36 characters |
| IAMCreate.ParseAWSFlagsAndSetupConfig | cli/internal/cmd/iamcreate.go:364-399 | the result is the AWS parse; on failure the IAM options are unchanged; on success only their AWS section changes, to the parsed region and prefix |
| IAMCreate.ParseAzureFlags | cli/internal/cmd/iamcreate.go:431-452 | succeeds exactly when the region, resource-group and service-principal flags are defined; the Azure flags then hold them and nothing else changes |
| IAMCreate.ParseAzureFlagsAndSetupConfig | cli/internal/cmd/iamcreate.go:431-461 | the result is the Azure parse; on failure the IAM options are unchanged; on success only their Azure section changes |
| IAMCreate.MatchesZoneRegexCorrect | cli/internal/cmd/iamcreate.go:29 | the zone matcher accepts exactly `<word>-<word>-<a, b or c>` |
| IAMCreate.MatchesRegionRegexCorrect | cli/internal/cmd/iamcreate.go:30 | the region matcher accepts exactly `<word>-<word><digit>` |
| IAMCreate.MatchesGCPIDRegexCorrect | cli/internal/cmd/iamcreate.go:32 | the ID matcher accepts exactly a lowercase letter, 4 to 28 characters from lowercase letters, digits and `-`, then a lowercase letter or digit |
| IAMCreate.GCPRegionIsZonePrefix | cli/internal/cmd/iamcreate.go:503-505 | for an accepted zone, the inferred region is the zone without its last two characters |
| IAMCreate.GCPZoneAndRegion | cli/internal/cmd/iamcreate.go:499-508 | `<a>-<b>-<letter>` is an accepted zone with region `<a>-<b>`, and that region is accepted exactly when `b` has at least two characters and ends in a digit |
| IAMCreate.ZoneNeedsTwoHyphens | cli/internal/cmd/iamcreate.go:29 | a zone whose hyphen count is not two is rejected |
| IAMCreate.GCPIDExamples | cli/internal/cmd/iamcreate.go:514-524 | concrete IDs accepted and rejected for length, first character, last character and inner characters |
| IAMCreate.ParseGCPFlagsSpec | cli/internal/cmd/iamcreate.go:494-530 | a missing zone fails first, then a zone not matching the zone pattern. Success exactly when the zone, its inferred region, the project ID and the service-account ID all pass; then the GCP flags hold them and nothing else changes |
| IAMCreate.ValidGCPFlagsMatchPatterns | cli/internal/cmd/iamcreate.go:499-530 | accepted GCP flags have the shapes the three patterns describe, and their region is the zone minus its last two characters |
| IAMCreate.ParseGCPFlagsAndSetupConfig | cli/internal/cmd/iamcreate.go:494-542 | the result is the GCP parse; on failure the IAM options are unchanged; on success only their GCP section changes |
| IAMCreate.ParseProviderFlagsSpec | cli/internal/cmd/iamcreate.go:356 | a successful provider parse keeps workspace, yes and update-config, and the other providers' sections |
| IAMCreate.ProviderParseFlagsAndSetupConfig | cli/internal/cmd/iamcreate.go:299 | the creator's parse; the IAM options are unchanged on failure, on success the selected provider's section holds the parsed values, and the other providers' sections are never touched |
| IAMCreate.ReadCommonFlags | cli/internal/cmd/iamcreate.go:280-291 | succeeds exactly when the workspace, yes and update-config flags are defined, and then holds only them |
| IAMCreate.ParseCommandFlagsSpec | cli/internal/cmd/iamcreate.go:279-305 | a missing workspace flag fails first, and a missing yes or update-config flag fails unwrapped; on success the three common flags are kept. When all three common flags are defined, the result is the provider parse of them, with its error wrapped as provider-specific |
| IAMCreate.ParsedFlagsHaveOneProviderSection | cli/internal/cmd/iamcreate.go:287-300 | parsed flags leave the other providers' sections empty |
| IAMCreate.IAMCreator.ParseFlagsAndSetupConfig | cli/internal/cmd/iamcreate.go:279-305 | the result is the command-wide parse; a failure leaves the IAM options unchanged, on success the selected provider's section holds the parsed values, and the other providers' sections are never touched |
| IAMCreate.CreateRunIAMFunc | cli/internal/cmd/iamcreate.go:131-146 | always fails exactly for a provider other than AWS, Azure and GCP, with "unknown provider"; otherwise it builds creators of that provider, and the GCP one keeps the workspace |
| IAMCreate.RunIAM | cli/internal/cmd/iamcreate.go:147-170 | for an unknown provider, fails whatever the flags; otherwise succeeds exactly when the workspace flag is defined, with a new iamCreator holding the provider, its creator and freshly allocated IAM options whose provider sections are empty |
| IAMCreate.IAMCreator.constructor | cli/internal/cmd/iamcreate.go:186-197 | the creator holds the given provider, creator and IAM options |
| IAMCreate.IAMConfigOptions.constructor | cli/internal/cmd/iamcreate.go:192-195 | all provider sections start empty |
| IAMCreate.FlagZoneOrAzRegion | cli/internal/cmd/iamcreate.go:610-620 | `aws.zone` for AWS, `azure.region` for Azure, `gcp.zone` for GCP, `""` otherwise |
| IAMCreate.ParsedFlagZone | cli/internal/cmd/iamcreate.go:601-603 | after a successful parse, the zone compared against the config is the zone flag, or the region flag on Azure |
| IAMCreate.CheckIfCfgZoneAndFlagZoneDiffer | cli/internal/cmd/iamcreate.go:601-608 | fails exactly when the config zone is non-empty and differs from the flag zone, with both zones in the error |
| IAMCreate.ValidateConfigWithFlagCompatibility | cli/internal/cmd/iamcreate.go:594-600 | passes exactly when the config has the provider and its zone is empty or equal to the flag zone; a missing provider is reported first |
| IAMCreate.OtherProviderNeedsEmptyZone | cli/internal/cmd/iamcreate.go:610-620 | for another provider the flag zone is empty, so only a config without a zone passes |
| IAMCreate.WithZone | cli/internal/cmd/iamcreate.go:418-421 | the same group names, each group with the new zone and every other field kept |
| IAMCreate.WithZoneLastWins | cli/internal/cmd/iamcreate.go:418-421 | setting the zones twice is the same as setting them once to the later zone |
| IAMCreate.WithZoneIdempotent | cli/internal/cmd/iamcreate.go:418-421 | setting the zones again to the same zone changes nothing |
| IAMCreate.Config.SetNodeGroupZones | cli/internal/cmd/iamcreate.go:418-421 | the loop over the node groups, in any order, leaves every group with the zone set and nothing else changed |
| IAMCreate.WriteAWSOutputValuesToConfig | cli/internal/cmd/iamcreate.go:413-422 | the AWS section gets the region, the zone and both instance profiles; every node group gets the AWS zone; Azure and GCP are untouched |
| IAMCreate.WriteAzureOutputValuesToConfig | cli/internal/cmd/iamcreate.go:477-483 | the Azure section gets the subscription, the tenant, the location (the region flag), the resource group and the identity; node groups and the other sections are untouched |
| IAMCreate.WriteGCPOutputValuesToConfig | cli/internal/cmd/iamcreate.go:558-567 | the GCP section gets the project, the key-file name, the region and the zone; every node group gets the GCP zone; AWS and Azure are untouched |
| IAMCreate.WriteOutputValuesToConfig | cli/internal/cmd/iamcreate.go:354 | the selected provider's section is written in full (AWS: region, zone and both instance profiles; Azure: subscription, tenant, location, resource group and identity; GCP: project, key path, region and zone); on AWS and GCP every node group ends up with the flag zone, on Azure the node groups are unchanged; the other providers' sections are unchanged |

## Left out

- Azure SDK calls: `getScaleSetVM`, `getScaleSetVMInterfaces` and `getScaleSetVMPublicIPAddresses` are network calls. The model takes the VM pages of each scale set and the interface lookup (a value or an error) as inputs (`ScaleSetAPI`). `getScaleSetVM` itself is only composition of these and is not modelled.
- `extractSSHKeys`, `extractPrivateIPs` and `azureshared.ScaleSetInformationFromProviderID` are not part of this model. The first two are inputs (`Extractors`).
- Pager errors: Go's `for pager.NextPage(ctx)` simply ends when a page fetch fails, and the listing does not report it. The model gives each pager as the finite sequence of pages it yields, so a fetch error is the end of that sequence.
- The listing is proved as three methods, one per loop level: the scale-set pages and scale sets, the VM pages of one scale set, and the VMs of one page. The accumulated instances are passed between them as values.
- Contexts, logging and the instance-metadata types outside the fields the conversion sets are not modelled.
- CLI plumbing of `iam create`:
  - cobra command and flag definitions;
  - the `tf-log` flag and `terraform.ParseLogLevel`;
  - printing, the spinner and the confirmation prompt;
  - `iamCreator.create`, which sequences the steps modelled here with Terraform creation, `checkWorkingDir` and YAML/JSON file I/O;
  - `parseAndWriteIDFile` and `parseIDFile`, which are base64 and JSON decoding.
- Reading a flag is modelled as a lookup in the flag set (`FlagSet`) that fails when the flag is not defined. cobra's own parsing errors are not modelled.
- `config.ValidateAWSZone`, `config.ValidateAWSRegion`, `cfg.HasProvider` and `cfg.GetZone` are not part of this model. The first two are function inputs (`AWSValidators`); the last two are parameters (`hasProvider`, `configZone`).
- IAMCreate.ParseAWSFlags and its callers require that the zone validator accepts only non-empty zones ending in an ASCII character (`SoundZoneValidator`). Go slices off the zone's last byte, and for a non-ASCII last character that region is not a string of whole characters.
- `gcpServiceAccountKeyFile` is not defined in the shown source, so it is the `keyFile` parameter. The `TFWorkspace` and `TFLogLevel` fields of the IAM options are not modelled.
- The config package's types are not part of this model. The config sections hold only the fields the command writes. `NodeGroup`'s fields other than `zone` stand for the rest of `config.NodeGroup`.
- Go's `iamFlags{}` returned with an error is the `Failure` case of `Result`, which carries no flags.
