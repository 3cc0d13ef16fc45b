/**
 * Azure scale-set correlation: the role a scale set's name encodes, the conversion
 * of one scale-set VM record into instance metadata, and the listing of all
 * scale-set VMs of a resource group.
 */
module ScaleSet {
  import opened Wrappers
  import opened Strings

  /** The logical role of a cluster member. */
  datatype Role = Unknown | Coordinator | Node

  /** Literal part of `constellation-scale-set-coordinators-[0-9a-zA-Z]+$`. */
  const CoordinatorScaleSetLiteral: string := "constellation-scale-set-coordinators-"
  /** Literal part of `constellation-scale-set-nodes-[0-9a-zA-Z]+$`. */
  const NodeScaleSetLiteral: string := "constellation-scale-set-nodes-"
  /** Scheme put in front of an Azure resource ID to form a provider ID. */
  const ProviderIDScheme: string := "azure://"

  // ---------------------------------------------------------------- patterns

  /**
   * What the regular expression `lit[0-9a-zA-Z]+$` (anchored only at the end)
   * matches: some occurrence of `lit` followed by a non-empty alphanumeric
   * tail that reaches the end of `s`.
   */
  ghost predicate MatchesAtEnd(s: string, lit: string) {
    exists j :: |lit| <= j < |s| && s[j - |lit|..j] == lit && AllAlnum(s[j..])
  }

  ghost predicate IsCoordinatorScaleSetName(s: string) { MatchesAtEnd(s, CoordinatorScaleSetLiteral) }
  ghost predicate IsNodeScaleSetName(s: string) { MatchesAtEnd(s, NodeScaleSetLiteral) }

  /** Length of the longest alphanumeric suffix of `s`. */
  function AlnumTailLength(s: string): (n: nat)
    ensures n <= |s|
    ensures forall i :: |s| - n <= i < |s| ==> IsAlnum(s[i])
    ensures n < |s| ==> !IsAlnum(s[|s| - n - 1])
  {
    if s == [] || !IsAlnum(s[|s| - 1]) then 0
    else
      var init := s[..|s| - 1];
      var m := AlnumTailLength(init);
      assert forall i :: |s| - m - 1 <= i < |s| - 1 ==> s[i] == init[i];
      m + 1
  }

  /** Decides `lit[0-9a-zA-Z]+$`: the maximal alphanumeric tail is non-empty and preceded by `lit`. */
  function MatchesRolePattern(s: string, lit: string): bool {
    var n := AlnumTailLength(s);
    n > 0 && EndsWith(s[..|s| - n], lit)
  }

  /** Every name the decision procedure accepts matches the pattern. */
  lemma MatchesRolePatternSound(s: string, lit: string)
    requires MatchesRolePattern(s, lit)
    ensures MatchesAtEnd(s, lit)
  {
    var j := |s| - AlnumTailLength(s);
    AlnumTailIsAlnum(s);
    assert s[..j][j - |lit|..] == s[j - |lit|..j];
    assert |lit| <= j < |s| && s[j - |lit|..j] == lit && AllAlnum(s[j..]);
  }

  /** The longest alphanumeric suffix, as a string, is all alphanumeric. */
  lemma AlnumTailIsAlnum(s: string)
    ensures AllAlnum(s[|s| - AlnumTailLength(s)..])
  {
    var n := AlnumTailLength(s);
    var t := s[|s| - n..];
    forall i | 0 <= i < |t| ensures IsAlnum(t[i]) {
      assert t[i] == s[|s| - n + i];
    }
  }

  /** An alphanumeric suffix that starts at the beginning or after a non-alphanumeric character is the maximal one. */
  lemma {:induction false} AlnumTailStart(s: string, j: nat)
    requires j <= |s| && AllAlnum(s[j..])
    requires j == 0 || !IsAlnum(s[j - 1])
    ensures AlnumTailLength(s) == |s| - j
  {
    if j < |s| {
      var init := s[..|s| - 1];
      assert s[j..][|s| - 1 - j] == s[|s| - 1];
      forall i | 0 <= i < |init[j..]| ensures IsAlnum(init[j..][i]) {
        assert init[j..][i] == s[j..][i];
      }
      if j > 0 {
        assert init[j - 1] == s[j - 1];
      }
      AlnumTailStart(init, j);
    }
  }

  /**
   * Every name matching the pattern is accepted: the alphanumeric tail of a
   * match can only start right after the literal's last, non-alphanumeric,
   * character, which is where the maximal alphanumeric suffix starts.
   */
  lemma MatchesRolePatternComplete(s: string, lit: string)
    requires lit != [] && !IsAlnum(lit[|lit| - 1])
    requires MatchesAtEnd(s, lit)
    ensures MatchesRolePattern(s, lit)
  {
    var j :| |lit| <= j < |s| && s[j - |lit|..j] == lit && AllAlnum(s[j..]);
    LiteralEndingAt(s, lit, j);
    AlnumTailStart(s, j);
  }

  /** An occurrence of `lit` ending at position `j` is a suffix of `s[..j]` and ends in `lit`'s last character. */
  lemma LiteralEndingAt(s: string, lit: string, j: nat)
    requires lit != [] && |lit| <= j <= |s| && s[j - |lit|..j] == lit
    ensures EndsWith(s[..j], lit)
    ensures s[j - 1] == lit[|lit| - 1]
  {
    assert s[j - |lit|..j][|lit| - 1] == s[j - 1];
    assert s[..j][j - |lit|..] == s[j - |lit|..j];
  }

  /** The decision procedure agrees with the pattern, for every literal ending in a non-alphanumeric character. */
  lemma MatchesRolePatternCorrect(s: string, lit: string)
    requires lit != [] && !IsAlnum(lit[|lit| - 1])
    ensures MatchesRolePattern(s, lit) <==> MatchesAtEnd(s, lit)
  {
    if MatchesRolePattern(s, lit) {
      MatchesRolePatternSound(s, lit);
    }
    if MatchesAtEnd(s, lit) {
      MatchesRolePatternComplete(s, lit);
    }
  }

  /**
   * No scale-set name matches both patterns: the alphanumeric tail of a match
   * starts at the same place for both, and the literals before it differ in
   * their third-to-last character (`r` of `coordinators-` against `e` of `nodes-`).
   */
  lemma NoScaleSetNameHasBothRoles(s: string)
    ensures !(IsCoordinatorScaleSetName(s) && IsNodeScaleSetName(s))
  {
    MatchesRolePatternCorrect(s, CoordinatorScaleSetLiteral);
    MatchesRolePatternCorrect(s, NodeScaleSetLiteral);
    if IsCoordinatorScaleSetName(s) {
      var t := s[..|s| - AlnumTailLength(s)];
      var c, d := CoordinatorScaleSetLiteral, NodeScaleSetLiteral;
      assert t[|t| - |c|..][|c| - 3] == t[|t| - 3] == c[|c| - 3] == 'r';
      assert d[|d| - 3] == 'e';
      assert !EndsWith(t, d);
    }
  }

  /**
   * extractScaleSetVMRole: the coordinator pattern is tried first, then the
   * node pattern; since no name matches both, each role is characterised by its
   * own pattern alone.
   */
  function ExtractScaleSetVMRole(scaleSet: string): (r: Role)
    ensures r == Coordinator <==> IsCoordinatorScaleSetName(scaleSet)
    ensures r == Node <==> IsNodeScaleSetName(scaleSet)
    ensures r == Unknown <==> !IsCoordinatorScaleSetName(scaleSet) && !IsNodeScaleSetName(scaleSet)
  {
    MatchesRolePatternCorrect(scaleSet, CoordinatorScaleSetLiteral);
    MatchesRolePatternCorrect(scaleSet, NodeScaleSetLiteral);
    NoScaleSetNameHasBothRoles(scaleSet);
    if MatchesRolePattern(scaleSet, CoordinatorScaleSetLiteral) then Coordinator
    else if MatchesRolePattern(scaleSet, NodeScaleSetLiteral) then Node
    else Unknown
  }

  /** A coordinator name may carry any prefix before the literal. */
  lemma CoordinatorRoleExample()
    ensures ExtractScaleSetVMRole("my-" + CoordinatorScaleSetLiteral + "x1Y") == Coordinator
  {
    var c := "my-" + CoordinatorScaleSetLiteral + "x1Y";
    assert c[40..] == "x1Y" && c[40 - |CoordinatorScaleSetLiteral|..40] == CoordinatorScaleSetLiteral;
  }

  /** A node name with a one-character tail. */
  lemma NodeRoleExample()
    ensures ExtractScaleSetVMRole(NodeScaleSetLiteral + "7") == Node
  {
    var n := NodeScaleSetLiteral + "7";
    assert n[30..] == "7" && n[..30] == NodeScaleSetLiteral;
  }

  /** The empty name and a bare literal have no alphanumeric tail. */
  lemma UnknownRoleWithoutTail()
    ensures ExtractScaleSetVMRole("") == Unknown
    ensures ExtractScaleSetVMRole(NodeScaleSetLiteral) == Unknown
  {
  }

  /** A tail ending in `-` is empty. */
  lemma UnknownRoleWithHyphenTail()
    ensures ExtractScaleSetVMRole(NodeScaleSetLiteral + "ab-") == Unknown
  {
    var w := NodeScaleSetLiteral + "ab-";
    MatchesRolePatternCorrect(w, CoordinatorScaleSetLiteral);
    MatchesRolePatternCorrect(w, NodeScaleSetLiteral);
  }

  /** A tail containing `_` is cut at the underscore, which does not end either literal. */
  lemma UnknownRoleWithUnderscoreTail()
    ensures ExtractScaleSetVMRole(NodeScaleSetLiteral + "a_b") == Unknown
  {
    var u := NodeScaleSetLiteral + "a_b";
    assert AlnumTailLength(u) == 1 by {
      assert u[..|u| - 1] == NodeScaleSetLiteral + "a_";
    }
    var t := u[..|u| - 1];
    assert t[|t| - 1] == '_';
    MatchesRolePatternCorrect(u, CoordinatorScaleSetLiteral);
    MatchesRolePatternCorrect(u, NodeScaleSetLiteral);
  }

  // ------------------------------------------------------ Azure SDK records

  datatype SSHPublicKey = SSHPublicKey(path: Option<string>, keyData: Option<string>)
  datatype SSHConfiguration = SSHConfiguration(publicKeys: seq<Option<SSHPublicKey>>)
  datatype LinuxConfiguration = LinuxConfiguration(ssh: Option<SSHConfiguration>)
  datatype OSProfile = OSProfile(computerName: Option<string>, linuxConfiguration: Option<LinuxConfiguration>)
  datatype VMProperties = VMProperties(osProfile: Option<OSProfile>)
  /** A scale-set VM as the compute API returns it: every field may be nil. */
  datatype ScaleSetVM = ScaleSetVM(id: Option<string>, instanceID: Option<string>, properties: Option<VMProperties>)
  datatype ScaleSet = ScaleSet(name: Option<string>)
  datatype NetworkInterface = NetworkInterface(id: Option<string>)

  /** The provider-independent description of one cluster instance. */
  datatype InstanceMetadata = InstanceMetadata(
    name: string,
    providerID: string,
    role: Role,
    privateIPs: seq<string>,
    publicIPs: Option<seq<string>>,
    sshKeys: map<string, seq<string>>)

  datatype Error = NoInstanceID | NoComputerName | LookupFailed(reason: string)

  /** The two extraction helpers the conversion relies on (their code is not part of this model). */
  datatype Extractors = Extractors(
    sshKeys: SSHConfiguration -> map<string, seq<string>>,
    privateIPs: seq<NetworkInterface> -> seq<string>)

  /**
   * The Azure API as the listing sees it: the VM pages of a scale set by name,
   * and the network interfaces of one VM of a named scale set.
   */
  datatype ScaleSetAPI = ScaleSetAPI(
    vmPages: string -> seq<seq<Option<ScaleSetVM>>>,
    interfaces: (string, ScaleSetVM) -> Result<seq<NetworkInterface>, Error>)

  /** `vm.Properties.OSProfile.ComputerName`, nil if any link of the chain is nil. */
  function ComputerName(vm: ScaleSetVM): Option<string> {
    if vm.properties.Some? && vm.properties.value.osProfile.Some?
    then vm.properties.value.osProfile.value.computerName
    else None
  }

  /** `vm.Properties.OSProfile.LinuxConfiguration.SSH`, nil if any link of the chain is nil. */
  function SSHSection(vm: ScaleSetVM): Option<SSHConfiguration> {
    if vm.properties.Some? && vm.properties.value.osProfile.Some?
       && vm.properties.value.osProfile.value.linuxConfiguration.Some?
    then vm.properties.value.osProfile.value.linuxConfiguration.value.ssh
    else None
  }

  // ------------------------------------------------------------- conversion

  /** convertScaleSetVMToCoreInstance. */
  function ConvertScaleSetVMToCoreInstance(
    scaleSet: string, vm: ScaleSetVM, networkInterfaces: seq<NetworkInterface>,
    publicIPAddresses: Option<seq<string>>, ex: Extractors): (r: Result<InstanceMetadata, Error>)
    ensures vm.id.None? ==> r == Failure(NoInstanceID)
    ensures vm.id.Some? && ComputerName(vm).None? ==> r == Failure(NoComputerName)
    ensures r.Success? <==> vm.id.Some? && ComputerName(vm).Some?
    ensures r.Success? ==>
      && r.value.name == ComputerName(vm).value
      && |r.value.providerID| == |ProviderIDScheme| + |vm.id.value|
      && r.value.providerID[..|ProviderIDScheme|] == ProviderIDScheme
      && r.value.providerID[|ProviderIDScheme|..] == vm.id.value
      && r.value.role == ExtractScaleSetVMRole(scaleSet)
      && r.value.privateIPs == ex.privateIPs(networkInterfaces)
      && r.value.publicIPs == publicIPAddresses
      && (SSHSection(vm).None? ==> r.value.sshKeys == map[])
      && (SSHSection(vm).Some? ==> r.value.sshKeys == ex.sshKeys(SSHSection(vm).value))
  {
    if vm.id.None? then Failure(NoInstanceID)
    else if ComputerName(vm).None? then Failure(NoComputerName)
    else
      var sshKeys := if SSHSection(vm).None? then map[] else ex.sshKeys(SSHSection(vm).value);
      Success(InstanceMetadata(
        name := ComputerName(vm).value,
        providerID := ProviderIDScheme + vm.id.value,
        role := ExtractScaleSetVMRole(scaleSet),
        privateIPs := ex.privateIPs(networkInterfaces),
        publicIPs := publicIPAddresses,
        sshKeys := sshKeys))
  }

  // ---------------------------------------------------------------- listing

  /** A VM the listing visits, with the name of its scale set. */
  datatype ListedVM = ListedVM(scaleSet: string, vm: ScaleSetVM)

  /** The listing entry of one VM slot: a non-nil VM with an instance ID, or nothing. */
  function EligibleVM(scaleSet: string, x: Option<ScaleSetVM>): seq<ListedVM> {
    if x.Some? && x.value.instanceID.Some? then [ListedVM(scaleSet, x.value)] else []
  }

  /** The VMs of one page the listing converts: non-nil entries with an instance ID, in page order. */
  function EligibleVMs(scaleSet: string, vms: seq<Option<ScaleSetVM>>): (r: seq<ListedVM>)
  {
    if vms == [] then []
    else EligibleVMs(scaleSet, vms[..|vms| - 1]) + EligibleVM(scaleSet, vms[|vms| - 1])
  }

  /** The VMs of the VM pages of one scale set, in page order. */
  function EligibleVMPages(scaleSet: string, pages: seq<seq<Option<ScaleSetVM>>>): (r: seq<ListedVM>)
  {
    if pages == [] then []
    else EligibleVMPages(scaleSet, pages[..|pages| - 1]) + EligibleVMs(scaleSet, pages[|pages| - 1])
  }

  /** The VMs of one scale-set slot: nil scale sets and scale sets without a name have none. */
  function ScaleSetEntries(x: Option<ScaleSet>, api: ScaleSetAPI): seq<ListedVM> {
    if x.Some? && x.value.name.Some?
    then EligibleVMPages(x.value.name.value, api.vmPages(x.value.name.value))
    else []
  }

  /** The VMs of the scale sets of one page, in scale-set order. */
  function EligibleScaleSets(scaleSets: seq<Option<ScaleSet>>, api: ScaleSetAPI): (r: seq<ListedVM>)
  {
    if scaleSets == [] then []
    else EligibleScaleSets(scaleSets[..|scaleSets| - 1], api) + ScaleSetEntries(scaleSets[|scaleSets| - 1], api)
  }

  /** Every VM the listing converts, in page order, scale-set order, VM-page order and VM order. */
  function EligibleInPages(pages: seq<seq<Option<ScaleSet>>>, api: ScaleSetAPI): (r: seq<ListedVM>)
  {
    if pages == [] then []
    else EligibleInPages(pages[..|pages| - 1], api) + EligibleScaleSets(pages[|pages| - 1], api)
  }

  /** One step of the listing: look up the VM's interfaces, then convert it without public IPs. */
  function ConvertListedVM(l: ListedVM, api: ScaleSetAPI, ex: Extractors): (r: Result<InstanceMetadata, Error>)
    ensures r.Success? ==> r.value.publicIPs == None
  {
    match api.interfaces(l.scaleSet, l.vm)
    case Failure(e) => Failure(e)
    case Success(interfaces) => ConvertScaleSetVMToCoreInstance(l.scaleSet, l.vm, interfaces, None, ex)
  }

  /** Converts the VMs in order; the first failure ends the conversion and is the result. */
  function ConvertListedVMs(vms: seq<ListedVM>, api: ScaleSetAPI, ex: Extractors): Result<seq<InstanceMetadata>, Error> {
    if vms == [] then Success([])
    else
      match ConvertListedVMs(vms[..|vms| - 1], api, ex)
      case Failure(e) => Failure(e)
      case Success(done) =>
        match ConvertListedVM(vms[|vms| - 1], api, ex)
        case Failure(e) => Failure(e)
        case Success(x) => Success(done + [x])
  }

  /** Once the conversion of a prefix has failed, nothing after it changes the result. */
  lemma {:induction false} ConvertListedVMsFailurePersists(a: seq<ListedVM>, b: seq<ListedVM>, api: ScaleSetAPI, ex: Extractors)
    requires ConvertListedVMs(a, api, ex).Failure?
    ensures ConvertListedVMs(a + b, api, ex) == ConvertListedVMs(a, api, ex)
  {
    if b != [] {
      var b' := b[..|b| - 1];
      assert (a + b)[..|a + b| - 1] == a + b';
      ConvertListedVMsFailurePersists(a, b', api, ex);
    } else {
      assert a + b == a;
    }
  }

  /** Converting one more VM: the result of the prefix, extended by that VM's conversion. */
  lemma ConvertListedVMsSnoc(vms: seq<ListedVM>, l: ListedVM, api: ScaleSetAPI, ex: Extractors)
    ensures ConvertListedVMs(vms + [l], api, ex) ==
              if ConvertListedVMs(vms, api, ex).Failure? then ConvertListedVMs(vms, api, ex)
              else if ConvertListedVM(l, api, ex).Failure? then Failure(ConvertListedVM(l, api, ex).error)
              else Success(ConvertListedVMs(vms, api, ex).value + [ConvertListedVM(l, api, ex).value])
  {
    assert (vms + [l])[..|vms + [l]| - 1] == vms;
  }

  /** When every VM converts, so does the whole sequence, VM by VM and in order. */
  lemma {:induction false} ConvertListedVMsAllSucceed(vms: seq<ListedVM>, api: ScaleSetAPI, ex: Extractors)
    requires forall i :: 0 <= i < |vms| ==> ConvertListedVM(vms[i], api, ex).Success?
    ensures ConvertListedVMs(vms, api, ex).Success?
    ensures |ConvertListedVMs(vms, api, ex).value| == |vms|
    ensures forall i :: 0 <= i < |vms| ==> ConvertListedVMs(vms, api, ex).value[i] == ConvertListedVM(vms[i], api, ex).value
  {
    if vms != [] {
      var init, l := vms[..|vms| - 1], vms[|vms| - 1];
      forall i | 0 <= i < |init| ensures ConvertListedVM(init[i], api, ex).Success? {
        assert init[i] == vms[i];
      }
      ConvertListedVMsAllSucceed(init, api, ex);
      var done := ConvertListedVMs(init, api, ex).value;
      assert ConvertListedVMs(vms, api, ex).value == done + [ConvertListedVM(l, api, ex).value];
      forall i | 0 <= i < |vms|
        ensures ConvertListedVMs(vms, api, ex).value[i] == ConvertListedVM(vms[i], api, ex).value
      {
        if i < |init| {
          assert init[i] == vms[i];
        }
      }
    }
  }

  /** A successful conversion means every prefix converted. */
  lemma ConvertListedVMsPrefixSucceeds(vms: seq<ListedVM>, k: nat, api: ScaleSetAPI, ex: Extractors)
    requires k <= |vms|
    requires ConvertListedVMs(vms, api, ex).Success?
    ensures ConvertListedVMs(vms[..k], api, ex).Success?
  {
    if ConvertListedVMs(vms[..k], api, ex).Failure? {
      TakeDrop(vms, k);
      ConvertListedVMsFailurePersists(vms[..k], vms[k..], api, ex);
    }
  }

  /** A successful conversion means every VM converted. */
  lemma ConvertListedVMsEachSucceeded(vms: seq<ListedVM>, api: ScaleSetAPI, ex: Extractors)
    requires ConvertListedVMs(vms, api, ex).Success?
    ensures forall i :: 0 <= i < |vms| ==> ConvertListedVM(vms[i], api, ex).Success?
  {
    forall i | 0 <= i < |vms| ensures ConvertListedVM(vms[i], api, ex).Success? {
      ConvertListedVMsPrefixSucceeds(vms, i + 1, api, ex);
      var prefix := vms[..i + 1];
      assert prefix[..|prefix| - 1] == vms[..i] && prefix[|prefix| - 1] == vms[i];
    }
  }

  /** The conversion succeeds exactly when every VM converts, and then yields their conversions in order. */
  lemma ConvertListedVMsSuccess(vms: seq<ListedVM>, api: ScaleSetAPI, ex: Extractors)
    ensures ConvertListedVMs(vms, api, ex).Success? <==>
              forall i :: 0 <= i < |vms| ==> ConvertListedVM(vms[i], api, ex).Success?
    ensures ConvertListedVMs(vms, api, ex).Success? ==>
              && |ConvertListedVMs(vms, api, ex).value| == |vms|
              && forall i :: 0 <= i < |vms| ==>
                   ConvertListedVMs(vms, api, ex).value[i] == ConvertListedVM(vms[i], api, ex).value
  {
    if ConvertListedVMs(vms, api, ex).Success? {
      ConvertListedVMsEachSucceeded(vms, api, ex);
    }
    if forall i :: 0 <= i < |vms| ==> ConvertListedVM(vms[i], api, ex).Success? {
      ConvertListedVMsAllSucceed(vms, api, ex);
    }
  }

  /** A failed conversion reports the error of the first VM that fails, and every VM before it converts. */
  lemma {:induction false} ConvertListedVMsFirstError(vms: seq<ListedVM>, api: ScaleSetAPI, ex: Extractors)
    requires ConvertListedVMs(vms, api, ex).Failure?
    ensures exists k :: 0 <= k < |vms|
              && ConvertListedVM(vms[k], api, ex).Failure?
              && ConvertListedVM(vms[k], api, ex).error == ConvertListedVMs(vms, api, ex).error
              && forall i :: 0 <= i < k ==> ConvertListedVM(vms[i], api, ex).Success?
  {
    var init := vms[..|vms| - 1];
    assert forall i :: 0 <= i < |init| ==> init[i] == vms[i];
    if ConvertListedVMs(init, api, ex).Failure? {
      ConvertListedVMsFirstError(init, api, ex);
      var k :| 0 <= k < |init|
              && ConvertListedVM(init[k], api, ex).Failure?
              && ConvertListedVM(init[k], api, ex).error == ConvertListedVMs(init, api, ex).error
              && forall i :: 0 <= i < k ==> ConvertListedVM(init[i], api, ex).Success?;
      assert ConvertListedVM(vms[k], api, ex).Failure?;
    } else {
      ConvertListedVMsSuccess(init, api, ex);
      assert ConvertListedVM(vms[|vms| - 1], api, ex).Failure?;
    }
  }

  lemma {:induction false} EligibleVMsAppend(scaleSet: string, a: seq<Option<ScaleSetVM>>, b: seq<Option<ScaleSetVM>>)
    ensures EligibleVMs(scaleSet, a + b) == EligibleVMs(scaleSet, a) + EligibleVMs(scaleSet, b)
  {
    if b == [] {
      assert a + b == a;
    } else {
      var b' := b[..|b| - 1];
      assert (a + b)[..|a + b| - 1] == a + b';
      assert (a + b)[|a + b| - 1] == b[|b| - 1];
      EligibleVMsAppend(scaleSet, a, b');
      Assoc(EligibleVMs(scaleSet, a), EligibleVMs(scaleSet, b'), EligibleVM(scaleSet, b[|b| - 1]));
    }
  }

  lemma {:induction false} EligibleVMPagesAppend(scaleSet: string, a: seq<seq<Option<ScaleSetVM>>>, b: seq<seq<Option<ScaleSetVM>>>)
    ensures EligibleVMPages(scaleSet, a + b) == EligibleVMPages(scaleSet, a) + EligibleVMPages(scaleSet, b)
  {
    if b == [] {
      assert a + b == a;
    } else {
      var b' := b[..|b| - 1];
      assert (a + b)[..|a + b| - 1] == a + b';
      assert (a + b)[|a + b| - 1] == b[|b| - 1];
      EligibleVMPagesAppend(scaleSet, a, b');
      Assoc(EligibleVMPages(scaleSet, a), EligibleVMPages(scaleSet, b'), EligibleVMs(scaleSet, b[|b| - 1]));
    }
  }

  lemma {:induction false} EligibleScaleSetsAppend(a: seq<Option<ScaleSet>>, b: seq<Option<ScaleSet>>, api: ScaleSetAPI)
    ensures EligibleScaleSets(a + b, api) == EligibleScaleSets(a, api) + EligibleScaleSets(b, api)
  {
    if b == [] {
      assert a + b == a;
    } else {
      var b' := b[..|b| - 1];
      assert (a + b)[..|a + b| - 1] == a + b';
      assert (a + b)[|a + b| - 1] == b[|b| - 1];
      EligibleScaleSetsAppend(a, b', api);
      Assoc(EligibleScaleSets(a, api), EligibleScaleSets(b', api), ScaleSetEntries(b[|b| - 1], api));
    }
  }

  lemma {:induction false} EligibleInPagesAppend(a: seq<seq<Option<ScaleSet>>>, b: seq<seq<Option<ScaleSet>>>, api: ScaleSetAPI)
    ensures EligibleInPages(a + b, api) == EligibleInPages(a, api) + EligibleInPages(b, api)
  {
    if b == [] {
      assert a + b == a;
    } else {
      var b' := b[..|b| - 1];
      assert (a + b)[..|a + b| - 1] == a + b';
      assert (a + b)[|a + b| - 1] == b[|b| - 1];
      EligibleInPagesAppend(a, b', api);
      Assoc(EligibleInPages(a, api), EligibleInPages(b', api), EligibleScaleSets(b[|b| - 1], api));
    }
  }

  /** At most one entry per VM slot. */
  lemma {:induction false} EligibleVMsLength(scaleSet: string, vms: seq<Option<ScaleSetVM>>)
    ensures |EligibleVMs(scaleSet, vms)| <= |vms|
  {
    if vms != [] {
      EligibleVMsLength(scaleSet, vms[..|vms| - 1]);
    }
  }

  /** `l` is a VM with an instance ID on one of the VM pages of its scale set. */
  ghost predicate OnVMPages(l: ListedVM, pages: seq<seq<Option<ScaleSetVM>>>) {
    l.vm.instanceID.Some? && exists k :: 0 <= k < |pages| && Some(l.vm) in pages[k]
  }

  /** Exactly the non-nil VMs of a page that have an instance ID are listed. */
  lemma {:induction false} EligibleVMsMembers(scaleSet: string, vms: seq<Option<ScaleSetVM>>, l: ListedVM)
    ensures l in EligibleVMs(scaleSet, vms) <==> l.scaleSet == scaleSet && l.vm.instanceID.Some? && Some(l.vm) in vms
  {
    if vms != [] {
      var init := vms[..|vms| - 1];
      assert vms == init + [vms[|vms| - 1]];
      EligibleVMsMembers(scaleSet, init, l);
    }
  }

  /** Exactly the VMs with an instance ID on some VM page of the scale set are listed. */
  lemma {:induction false} EligibleVMPagesMembers(scaleSet: string, pages: seq<seq<Option<ScaleSetVM>>>, l: ListedVM)
    ensures l in EligibleVMPages(scaleSet, pages) <==> l.scaleSet == scaleSet && OnVMPages(l, pages)
  {
    if pages != [] {
      var init, last := pages[..|pages| - 1], pages[|pages| - 1];
      EligibleVMPagesMembers(scaleSet, init, l);
      EligibleVMsMembers(scaleSet, last, l);
      if OnVMPages(l, pages) && l.scaleSet == scaleSet {
        var k :| 0 <= k < |pages| && Some(l.vm) in pages[k];
        if k < |init| {
          assert init[k] == pages[k];
        }
      }
      if OnVMPages(l, init) {
        var k :| 0 <= k < |init| && Some(l.vm) in init[k];
        assert pages[k] == init[k];
      }
    }
  }

  /** A scale set's VMs are listed exactly when it is a named scale set of the page, and then all of them. */
  lemma {:induction false} EligibleScaleSetsMembers(scaleSets: seq<Option<ScaleSet>>, api: ScaleSetAPI, l: ListedVM)
    ensures l in EligibleScaleSets(scaleSets, api) <==>
              Some(ScaleSet(Some(l.scaleSet))) in scaleSets && OnVMPages(l, api.vmPages(l.scaleSet))
  {
    if scaleSets != [] {
      var init, last := scaleSets[..|scaleSets| - 1], scaleSets[|scaleSets| - 1];
      assert scaleSets == init + [last];
      EligibleScaleSetsMembers(init, api, l);
      if last.Some? && last.value.name.Some? {
        EligibleVMPagesMembers(last.value.name.value, api.vmPages(last.value.name.value), l);
      }
    }
  }

  /**
   * listScaleSetVMs visits exactly the VMs with an instance ID of the named
   * scale sets on the scale-set pages.
   */
  lemma {:induction false} EligibleInPagesMembers(pages: seq<seq<Option<ScaleSet>>>, api: ScaleSetAPI, l: ListedVM)
    ensures l in EligibleInPages(pages, api) <==>
              (exists i :: 0 <= i < |pages| && Some(ScaleSet(Some(l.scaleSet))) in pages[i])
              && OnVMPages(l, api.vmPages(l.scaleSet))
  {
    if pages != [] {
      var init, last := pages[..|pages| - 1], pages[|pages| - 1];
      EligibleInPagesMembers(init, api, l);
      EligibleScaleSetsMembers(last, api, l);
      if exists i :: 0 <= i < |pages| && Some(ScaleSet(Some(l.scaleSet))) in pages[i] {
        var i :| 0 <= i < |pages| && Some(ScaleSet(Some(l.scaleSet))) in pages[i];
        if i < |init| {
          assert init[i] == pages[i];
        }
      }
      if exists i :: 0 <= i < |init| && Some(ScaleSet(Some(l.scaleSet))) in init[i] {
        var i :| 0 <= i < |init| && Some(ScaleSet(Some(l.scaleSet))) in init[i];
        assert pages[i] == init[i];
      }
    }
  }

  /** A nil VM entry or a VM without an instance ID is skipped without effect on the rest of the page. */
  lemma SkippedVMIsIgnored(scaleSet: string, a: seq<Option<ScaleSetVM>>, x: Option<ScaleSetVM>, b: seq<Option<ScaleSetVM>>)
    requires x.None? || x.value.instanceID.None?
    ensures EligibleVMs(scaleSet, a + [x] + b) == EligibleVMs(scaleSet, a + b)
  {
    EligibleVMsAppend(scaleSet, a + [x], b);
    assert (a + [x])[..|a + [x]| - 1] == a;
    assert EligibleVMs(scaleSet, a + [x]) == EligibleVMs(scaleSet, a) + [] == EligibleVMs(scaleSet, a);
    EligibleVMsAppend(scaleSet, a, b);
  }

  /** A nil scale set or a scale set without a name is skipped without effect on the rest of the page. */
  lemma SkippedScaleSetIsIgnored(a: seq<Option<ScaleSet>>, x: Option<ScaleSet>, b: seq<Option<ScaleSet>>, api: ScaleSetAPI)
    requires x.None? || x.value.name.None?
    ensures EligibleScaleSets(a + [x] + b, api) == EligibleScaleSets(a + b, api)
  {
    EligibleScaleSetsAppend(a + [x], b, api);
    assert (a + [x])[..|a + [x]| - 1] == a;
    assert EligibleScaleSets(a + [x], api) == EligibleScaleSets(a, api) + [] == EligibleScaleSets(a, api);
    EligibleScaleSetsAppend(a, b, api);
  }

  /** A VM that listScaleSetVMs converts is an eligible VM of some scale set, with that scale set's role. */
  lemma ListedInstances(pages: seq<seq<Option<ScaleSet>>>, api: ScaleSetAPI, ex: Extractors)
    requires ConvertListedVMs(EligibleInPages(pages, api), api, ex).Success?
    ensures var vms := EligibleInPages(pages, api);
            var xs := ConvertListedVMs(vms, api, ex).value;
            && |xs| == |vms|
            && forall i :: 0 <= i < |xs| ==>
                 && ConvertListedVM(vms[i], api, ex).Success?
                 && xs[i] == ConvertListedVM(vms[i], api, ex).value
                 && xs[i].publicIPs == None
                 && xs[i].role == ExtractScaleSetVMRole(vms[i].scaleSet)
  {
    ConvertListedVMsSuccess(EligibleInPages(pages, api), api, ex);
  }

  /** The listing aborts at the first eligible VM whose interface lookup or conversion fails. */
  lemma {:induction false} AbortAt(done: seq<ListedVM>, l: ListedVM, rest: seq<ListedVM>, instances: seq<InstanceMetadata>,
                                   api: ScaleSetAPI, ex: Extractors)
    requires ConvertListedVMs(done, api, ex) == Success(instances)
    requires ConvertListedVM(l, api, ex).Failure?
    ensures ConvertListedVMs(done + [l] + rest, api, ex) == Failure(ConvertListedVM(l, api, ex).error)
  {
    assert (done + [l])[..|done + [l]| - 1] == done;
    ConvertListedVMsFailurePersists(done + [l], rest, api, ex);
  }

  /** The eligible VMs of a VM page, split around the slot at position `v`. */
  lemma EligibleVMsAround(name: string, vmPage: seq<Option<ScaleSetVM>>, v: nat)
    requires v < |vmPage|
    ensures EligibleVMs(name, vmPage) ==
              EligibleVMs(name, vmPage[..v]) + EligibleVM(name, vmPage[v]) + EligibleVMs(name, vmPage[v + 1..])
  {
    assert vmPage == vmPage[..v + 1] + vmPage[v + 1..];
    assert vmPage[..v + 1][..v] == vmPage[..v];
    EligibleVMsAppend(name, vmPage[..v + 1], vmPage[v + 1..]);
  }

  /** The eligible VMs of the VM pages of a scale set, split around the page at position `q`. */
  lemma EligibleVMPagesAround(name: string, vmPages: seq<seq<Option<ScaleSetVM>>>, q: nat)
    requires q < |vmPages|
    ensures EligibleVMPages(name, vmPages) ==
              EligibleVMPages(name, vmPages[..q]) + EligibleVMs(name, vmPages[q]) + EligibleVMPages(name, vmPages[q + 1..])
  {
    assert vmPages == vmPages[..q + 1] + vmPages[q + 1..];
    assert vmPages[..q + 1][..q] == vmPages[..q];
    EligibleVMPagesAppend(name, vmPages[..q + 1], vmPages[q + 1..]);
  }

  /** The eligible VMs of a page of scale sets, split around the scale set at position `s`. */
  lemma EligibleScaleSetsAround(page: seq<Option<ScaleSet>>, api: ScaleSetAPI, s: nat)
    requires s < |page|
    ensures EligibleScaleSets(page, api) ==
              EligibleScaleSets(page[..s], api) + ScaleSetEntries(page[s], api) + EligibleScaleSets(page[s + 1..], api)
  {
    assert page == page[..s + 1] + page[s + 1..];
    assert page[..s + 1][..s] == page[..s];
    EligibleScaleSetsAppend(page[..s + 1], page[s + 1..], api);
  }

  /** The eligible VMs of the scale-set pages, split around the page at position `p`. */
  lemma EligibleInPagesAround(pages: seq<seq<Option<ScaleSet>>>, api: ScaleSetAPI, p: nat)
    requires p < |pages|
    ensures EligibleInPages(pages, api) ==
              EligibleInPages(pages[..p], api) + EligibleScaleSets(pages[p], api) + EligibleInPages(pages[p + 1..], api)
  {
    assert pages == pages[..p + 1] + pages[p + 1..];
    assert pages[..p + 1][..p] == pages[..p];
    EligibleInPagesAppend(pages[..p + 1], pages[p + 1..], api);
  }

  /**
   * The eligible VMs of a whole listing, split around the scale set at
   * position `s` of page `p`: what the outer loops have visited before it, its
   * own VMs, and the rest.
   */
  lemma ScaleSetVisitedBefore(pages: seq<seq<Option<ScaleSet>>>, api: ScaleSetAPI, p: nat, s: nat)
    returns (rest: seq<ListedVM>)
    requires p < |pages| && s < |pages[p]|
    ensures EligibleInPages(pages, api) ==
              EligibleInPages(pages[..p], api) + EligibleScaleSets(pages[p][..s], api)
              + ScaleSetEntries(pages[p][s], api) + rest
  {
    var page := pages[p];
    EligibleInPagesAround(pages, api, p);
    EligibleScaleSetsAround(page, api, s);
    var a, b, c := EligibleInPages(pages[..p], api), EligibleScaleSets(page[..s], api), ScaleSetEntries(page[s], api);
    var d, e := EligibleScaleSets(page[s + 1..], api), EligibleInPages(pages[p + 1..], api);
    rest := d + e;
    calc {
      EligibleInPages(pages, api);
      a + (b + c + d) + e;
      { Assoc(a, b + c, d); Assoc(a + (b + c), d, e); }
      a + (b + c) + rest;
      { Assoc(a, b, c); Assoc(a + b + c, d, e); }
      a + b + c + rest;
    }
  }

  /** A sequence is its prefix followed by the rest. */
  lemma TakeDrop<T>(xs: seq<T>, k: nat)
    requires k <= |xs|
    ensures xs[..k] + xs[k..] == xs
  {
  }

  /** Concatenation is associative. */
  lemma Assoc<T>(a: seq<T>, b: seq<T>, c: seq<T>)
    ensures a + (b + c) == a + b + c
  {
  }

  /**
   * listScaleSetVMs: walks the scale-set pages, the scale sets of each page, the
   * VM pages of each named scale set and the VMs of each VM page; skips nil
   * entries and VMs without an instance ID; returns the error of the first
   * interface lookup or conversion that fails, and no instances with it.
   */
  method ListScaleSetVMs(scaleSetPages: seq<seq<Option<ScaleSet>>>, api: ScaleSetAPI, ex: Extractors)
    returns (r: Result<seq<InstanceMetadata>, Error>)
    ensures r == ConvertListedVMs(EligibleInPages(scaleSetPages, api), api, ex)
  {
    // `listed` are the eligible VMs visited so far and `instances` their conversions.
    ghost var listed: seq<ListedVM> := [];
    var instances: seq<InstanceMetadata> := [];
    var p := 0;
    while p < |scaleSetPages|
      invariant 0 <= p <= |scaleSetPages|
      invariant listed == EligibleInPages(scaleSetPages[..p], api)
      invariant ConvertListedVMs(listed, api, ex) == Success(instances)
    {
      var page := scaleSetPages[p];
      ghost var pageStart := listed;
      var s := 0;
      while s < |page|
        invariant 0 <= s <= |page|
        invariant listed == pageStart + EligibleScaleSets(page[..s], api)
        invariant ConvertListedVMs(listed, api, ex) == Success(instances)
      {
        var scaleSet := page[s];
        EligibleScaleSetsPrefixStep(page, api, s);
        if scaleSet == None || scaleSet.value.name == None {
          assert EligibleScaleSets(page[..s + 1], api) == EligibleScaleSets(page[..s], api) + [];
          s := s + 1;
          continue;
        }
        var next := ListVMsOfScaleSet(scaleSet.value.name.value, api, ex, listed, instances);
        if next.Failure? {
          ghost var rest := ScaleSetVisitedBefore(scaleSetPages, api, p, s);
          ConvertListedVMsFailurePersists(listed + ScaleSetEntries(scaleSet, api), rest, api, ex);
          return next;
        }
        Assoc(pageStart, EligibleScaleSets(page[..s], api), ScaleSetEntries(scaleSet, api));
        listed, instances := listed + ScaleSetEntries(scaleSet, api), next.value;
        s := s + 1;
      }
      assert page[..s] == page;
      EligibleInPagesPrefixStep(scaleSetPages, api, p);
      p := p + 1;
    }
    assert scaleSetPages[..p] == scaleSetPages;
    return Success(instances);
  }

  /**
   * The VM-page loop of listScaleSetVMs, for one named scale set: walks its VM
   * pages and appends the conversions of their eligible VMs to `instances`,
   * the conversions of the VMs `listed` before this scale set.
   */
  method ListVMsOfScaleSet(name: string, api: ScaleSetAPI, ex: Extractors,
                           ghost listed: seq<ListedVM>, instances: seq<InstanceMetadata>)
    returns (r: Result<seq<InstanceMetadata>, Error>)
    requires ConvertListedVMs(listed, api, ex) == Success(instances)
    ensures r == ConvertListedVMs(listed + EligibleVMPages(name, api.vmPages(name)), api, ex)
  {
    ghost var done := listed;
    var acc := instances;
    var vmPages := api.vmPages(name);
    var q := 0;
    while q < |vmPages|
      invariant 0 <= q <= |vmPages|
      invariant done == listed + EligibleVMPages(name, vmPages[..q])
      invariant ConvertListedVMs(done, api, ex) == Success(acc)
    {
      var vmPage := vmPages[q];
      var next := ListVMsOfPage(name, vmPage, api, ex, done, acc);
      if next.Failure? {
        EligibleVMPagesAround(name, vmPages, q);
        var a, b, c := EligibleVMPages(name, vmPages[..q]), EligibleVMs(name, vmPage), EligibleVMPages(name, vmPages[q + 1..]);
        calc {
          listed + EligibleVMPages(name, vmPages);
          listed + (a + b + c);
          { Assoc(listed, a + b, c); Assoc(listed, a, b); }
          done + b + c;
        }
        ConvertListedVMsFailurePersists(done + b, c, api, ex);
        return next;
      }
      EligibleVMPagesPrefixStep(name, vmPages, q);
      Assoc(listed, EligibleVMPages(name, vmPages[..q]), EligibleVMs(name, vmPage));
      done, acc := done + EligibleVMs(name, vmPage), next.value;
      q := q + 1;
    }
    assert vmPages[..q] == vmPages;
    return Success(acc);
  }

  /**
   * The VM loop of listScaleSetVMs, for one VM page of a named scale set:
   * skips nil VMs and VMs without an instance ID, looks up the interfaces of
   * every other VM, converts it, and stops at the first failure.
   */
  method ListVMsOfPage(name: string, vmPage: seq<Option<ScaleSetVM>>, api: ScaleSetAPI, ex: Extractors,
                       ghost listed: seq<ListedVM>, instances: seq<InstanceMetadata>)
    returns (r: Result<seq<InstanceMetadata>, Error>)
    requires ConvertListedVMs(listed, api, ex) == Success(instances)
    ensures r == ConvertListedVMs(listed + EligibleVMs(name, vmPage), api, ex)
  {
    ghost var done := listed;
    var acc := instances;
    var v := 0;
    while v < |vmPage|
      invariant 0 <= v <= |vmPage|
      invariant done == listed + EligibleVMs(name, vmPage[..v])
      invariant ConvertListedVMs(done, api, ex) == Success(acc)
    {
      var vm := vmPage[v];
      EligibleVMsPrefixStep(name, vmPage, v);
      if vm == None || vm.value.instanceID == None {
        assert EligibleVMs(name, vmPage[..v + 1]) == EligibleVMs(name, vmPage[..v]) + [];
        v := v + 1;
        continue;
      }
      ghost var l := ListedVM(name, vm.value);
      var interfaces := api.interfaces(name, vm.value);
      if interfaces.Failure? {
        AbortInPage(name, vmPage, v, listed, done, acc, api, ex);
        return Failure(interfaces.error);
      }
      var instance := ConvertScaleSetVMToCoreInstance(name, vm.value, interfaces.value, None, ex);
      if instance.Failure? {
        AbortInPage(name, vmPage, v, listed, done, acc, api, ex);
        return Failure(instance.error);
      }
      ConvertListedVMsSnoc(done, l, api, ex);
      Assoc(listed, EligibleVMs(name, vmPage[..v]), [l]);
      done := done + [l];
      acc := acc + [instance.value];
      v := v + 1;
    }
    assert vmPage[..v] == vmPage;
    return Success(acc);
  }

  /**
   * The listing aborts at the first eligible VM whose interface lookup or
   * conversion fails: the conversion of everything up to the end of its VM
   * page fails with that VM's error.
   */
  lemma AbortInPage(name: string, vmPage: seq<Option<ScaleSetVM>>, v: nat,
                    listed: seq<ListedVM>, done: seq<ListedVM>, acc: seq<InstanceMetadata>,
                    api: ScaleSetAPI, ex: Extractors)
    requires v < |vmPage| && vmPage[v].Some? && vmPage[v].value.instanceID.Some?
    requires done == listed + EligibleVMs(name, vmPage[..v])
    requires ConvertListedVMs(done, api, ex) == Success(acc)
    requires ConvertListedVM(ListedVM(name, vmPage[v].value), api, ex).Failure?
    ensures ConvertListedVMs(listed + EligibleVMs(name, vmPage), api, ex)
              == Failure(ConvertListedVM(ListedVM(name, vmPage[v].value), api, ex).error)
  {
    var l := ListedVM(name, vmPage[v].value);
    EligibleVMsAround(name, vmPage, v);
    var a, c := EligibleVMs(name, vmPage[..v]), EligibleVMs(name, vmPage[v + 1..]);
    calc {
      listed + EligibleVMs(name, vmPage);
      listed + (a + [l] + c);
      { Assoc(listed, a + [l], c); Assoc(listed, a, [l]); }
      done + [l] + c;
    }
    assert (done + [l])[..|done + [l]| - 1] == done;
    ConvertListedVMsFailurePersists(done + [l], c, api, ex);
  }

  lemma EligibleVMsPrefixStep(name: string, vmPage: seq<Option<ScaleSetVM>>, v: nat)
    requires v < |vmPage|
    ensures EligibleVMs(name, vmPage[..v + 1]) == EligibleVMs(name, vmPage[..v]) + EligibleVM(name, vmPage[v])
  {
    assert vmPage[..v + 1][..v] == vmPage[..v];
  }

  lemma EligibleVMPagesPrefixStep(name: string, vmPages: seq<seq<Option<ScaleSetVM>>>, q: nat)
    requires q < |vmPages|
    ensures EligibleVMPages(name, vmPages[..q + 1]) == EligibleVMPages(name, vmPages[..q]) + EligibleVMs(name, vmPages[q])
  {
    assert vmPages[..q + 1][..q] == vmPages[..q];
  }

  lemma EligibleScaleSetsPrefixStep(page: seq<Option<ScaleSet>>, api: ScaleSetAPI, s: nat)
    requires s < |page|
    ensures EligibleScaleSets(page[..s + 1], api) == EligibleScaleSets(page[..s], api) + ScaleSetEntries(page[s], api)
  {
    assert page[..s + 1][..s] == page[..s];
  }

  lemma EligibleInPagesPrefixStep(pages: seq<seq<Option<ScaleSet>>>, api: ScaleSetAPI, p: nat)
    requires p < |pages|
    ensures EligibleInPages(pages[..p + 1], api) == EligibleInPages(pages[..p], api) + EligibleScaleSets(pages[p], api)
  {
    assert pages[..p + 1][..p] == pages[..p];
  }
}
