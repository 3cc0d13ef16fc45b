/**
 * Input validation and configuration rewriting of `constellation iam create`:
 * the provider flags and the regions inferred from zones, the three GCP
 * patterns, the IAM options the command fills in, the provider dispatch, the
 * zone compatibility check against the config file, and the rewriting of the
 * config file with the created IAM values.
 */
module IAMCreate {
  import opened Wrappers
  import opened Strings

  /** The cloud providers the command distinguishes; every other one is `Other`. */
  datatype Provider = AWS | Azure | GCP | Other(name: string)

  // ------------------------------------------------------------------ flags

  datatype AWSFlags = AWSFlags(prefix: string, region: string, zone: string)
  datatype AzureFlags = AzureFlags(region: string, resourceGroup: string, servicePrincipal: string)
  datatype GCPFlags = GCPFlags(serviceAccountID: string, zone: string, region: string, projectID: string)

  /** The parsed flags of the command, with the parsed flags of the selected provider. */
  datatype IAMFlags = IAMFlags(
    aws: AWSFlags,
    azure: AzureFlags,
    gcp: GCPFlags,
    workspace: string,
    yesFlag: bool,
    updateConfig: bool)

  /** Go's zero value `iamFlags{}`. */
  const NoIAMFlags := IAMFlags(AWSFlags("", "", ""), AzureFlags("", "", ""), GCPFlags("", "", "", ""), "", false, false)

  datatype IAMError =
    | FlagNotParsed(flag: string)
    | PrefixTooLong
    | InvalidAWSZone
    | InvalidAWSRegion(region: string)
    | InvalidZone(zone: string)
    | InvalidRegion(region: string)
    | InvalidProjectID(projectID: string)
    | InvalidServiceAccountID(serviceAccountID: string)
    | ProviderSpecific(cause: IAMError)
    | UnknownProvider(provider: Provider)
    | ProviderDiffers(provider: Provider)
    | ZoneDiffers(configZone: string, flagZone: string)

  /** The command's flags as cobra holds them; reading a flag that is not defined fails. */
  datatype FlagSet = FlagSet(strings: map<string, string>, bools: map<string, bool>) {
    function GetString(name: string): Result<string, IAMError> {
      if name in strings then Success(strings[name]) else Failure(FlagNotParsed(name))
    }

    function GetBool(name: string): Result<bool, IAMError> {
      if name in bools then Success(bools[name]) else Failure(FlagNotParsed(name))
    }
  }

  // ------------------------------------------------------------------- AWS

  /** Upper bound, in bytes, of the AWS name prefix. */
  const MaxAWSPrefixLength := 36

  /** config.ValidateAWSZone and config.ValidateAWSRegion, whose code is not part of this model. */
  datatype AWSValidators = AWSValidators(validZone: string -> bool, validRegion: string -> bool)

  /**
   * What the model requires of config.ValidateAWSZone: every zone it accepts
   * ends in an ASCII character (the zone letter), so that dropping the last
   * byte, as the command does, drops exactly the last character.
   */
  ghost predicate SoundZoneValidator(v: AWSValidators) {
    forall z :: v.validZone(z) ==> z != [] && IsAscii(z[|z| - 1])
  }

  /** The AWS region of a zone: the zone without its last character. */
  function AWSRegionOfZone(zone: string): (region: string)
    requires zone != []
    ensures |region| == |zone| - 1
    ensures region + [zone[|zone| - 1]] == zone
  {
    zone[..|zone| - 1]
  }

  /** awsIAMCreator.parseFlagsAndSetupConfig, without the update of the IAM options. */
  function ParseAWSFlags(fs: FlagSet, flags: IAMFlags, v: AWSValidators): Result<IAMFlags, IAMError>
    requires SoundZoneValidator(v)
  {
    var prefix :- fs.GetString("prefix");
    if Utf8Len(prefix) > MaxAWSPrefixLength then Failure(PrefixTooLong)
    else
      var zone :- fs.GetString("zone");
      if !v.validZone(zone) then Failure(InvalidAWSZone)
      else
        var region := AWSRegionOfZone(zone);
        if !v.validRegion(region) then Failure(InvalidAWSRegion(region))
        else Success(flags.(aws := AWSFlags(prefix := prefix, region := region, zone := zone)))
  }

  /**
   * The AWS checks in order: the prefix is read and bounded by 36 bytes, the
   * zone is read and validated, and the region, the zone without its last
   * character, is validated; on success only the AWS section of the flags
   * changes.
   */
  lemma ParseAWSFlagsSpec(fs: FlagSet, flags: IAMFlags, v: AWSValidators)
    requires SoundZoneValidator(v)
    ensures var r := ParseAWSFlags(fs, flags, v);
            "prefix" !in fs.strings ==> r == Failure(FlagNotParsed("prefix"))
    ensures var r := ParseAWSFlags(fs, flags, v);
            "prefix" in fs.strings && Utf8Len(fs.strings["prefix"]) > MaxAWSPrefixLength ==> r == Failure(PrefixTooLong)
    ensures var r := ParseAWSFlags(fs, flags, v);
            r.Success? <==>
              && "prefix" in fs.strings && Utf8Len(fs.strings["prefix"]) <= MaxAWSPrefixLength
              && "zone" in fs.strings && v.validZone(fs.strings["zone"])
              && v.validRegion(AWSRegionOfZone(fs.strings["zone"]))
    ensures var r := ParseAWSFlags(fs, flags, v);
            r.Success? ==>
              && r.value.aws.prefix == fs.strings["prefix"]
              && r.value.aws.zone == fs.strings["zone"]
              && r.value.aws.zone != []
              && r.value.aws.region + [r.value.aws.zone[|r.value.aws.zone| - 1]] == r.value.aws.zone
              && r.value.(aws := flags.aws) == flags
  {
  }

  /**
   * The prefix bound counts bytes: a prefix of more than 36 characters is
   * always too long, and for an ASCII prefix the bound is exactly 36
   * characters.
   */
  lemma AWSPrefixBoundInCharacters(prefix: string)
    ensures |prefix| > MaxAWSPrefixLength ==> Utf8Len(prefix) > MaxAWSPrefixLength
    ensures (forall i :: 0 <= i < |prefix| ==> IsAscii(prefix[i])) ==>
              (Utf8Len(prefix) > MaxAWSPrefixLength <==> |prefix| > MaxAWSPrefixLength)
  {
  }

  // ----------------------------------------------------------------- Azure

  /** azureIAMCreator.parseFlagsAndSetupConfig, without the update of the IAM options: the three flags are taken as they are. */
  function ParseAzureFlags(fs: FlagSet, flags: IAMFlags): (r: Result<IAMFlags, IAMError>)
    ensures r.Success? <==> "region" in fs.strings && "resourceGroup" in fs.strings && "servicePrincipal" in fs.strings
    ensures "region" !in fs.strings ==> r == Failure(FlagNotParsed("region"))
    ensures r.Success? ==>
              && r.value.azure == AzureFlags(fs.strings["region"], fs.strings["resourceGroup"], fs.strings["servicePrincipal"])
              && r.value.(azure := flags.azure) == flags
  {
    var region :- fs.GetString("region");
    var resourceGroup :- fs.GetString("resourceGroup");
    var servicePrincipal :- fs.GetString("servicePrincipal");
    Success(flags.(azure := AzureFlags(region, resourceGroup, servicePrincipal)))
  }

  // ------------------------------------------------------------ GCP patterns

  /** RE2's `\w+`. */
  predicate IsWord(w: string) { w != [] && AllWord(w) }

  predicate IsZoneLetter(c: char) { c == 'a' || c == 'b' || c == 'c' }

  /** What `^\w+-\w+-[abc]$` matches. */
  ghost predicate ZonePattern(s: string) {
    exists a: string, b: string, c: char :: IsWord(a) && IsWord(b) && IsZoneLetter(c) && s == a + "-" + b + "-" + [c]
  }

  /** What `^\w+-\w+[0-9]$` matches. */
  ghost predicate RegionPattern(s: string) {
    exists a: string, b: string, d: char :: IsWord(a) && IsWord(b) && IsDigit(d) && s == a + "-" + b + [d]
  }

  predicate IsIDChar(c: char) { IsLower(c) || IsDigit(c) || c == '-' }

  /** What `^[a-z][-a-z0-9]{4,28}[a-z0-9]$` matches. */
  ghost predicate GCPIDPattern(s: string) {
    exists f: char, m: string, l: char ::
      && IsLower(f) && 4 <= |m| <= 28 && (forall i :: 0 <= i < |m| ==> IsIDChar(m[i]))
      && (IsLower(l) || IsDigit(l)) && s == [f] + m + [l]
  }

  /** Decides the zone pattern: the hyphen-separated parts are two words and a zone letter. */
  function MatchesZoneRegex(s: string): bool {
    var parts := Split(s, '-');
    |parts| == 3 && IsWord(parts[0]) && IsWord(parts[1]) && |parts[2]| == 1 && IsZoneLetter(parts[2][0])
  }

  /** Decides the region pattern: the hyphen-separated parts are a word and a word of two or more characters ending in a digit. */
  function MatchesRegionRegex(s: string): bool {
    var parts := Split(s, '-');
    |parts| == 2 && IsWord(parts[0]) && |parts[1]| >= 2 && AllWord(parts[1]) && IsDigit(parts[1][|parts[1]| - 1])
  }

  /** Decides the project and service-account ID pattern. */
  function MatchesGCPIDRegex(s: string): bool {
    && 6 <= |s| <= 30
    && IsLower(s[0])
    && (forall i :: 1 <= i < |s| - 1 ==> IsIDChar(s[i]))
    && (IsLower(s[|s| - 1]) || IsDigit(s[|s| - 1]))
  }

  lemma WordHasNoHyphen(w: string)
    requires AllWord(w)
    ensures '-' !in w
  {
    forall i | 0 <= i < |w|
      ensures w[i] != '-'
    {
      assert IsWordChar(w[i]);
    }
  }

  lemma JoinTwo(parts: seq<string>, sep: char)
    requires |parts| == 2
    ensures Join(parts, sep) == parts[0] + [sep] + parts[1]
  {
    assert parts[1..][0] == parts[1] && |parts[1..]| == 1;
  }

  lemma JoinThree(parts: seq<string>, sep: char)
    requires |parts| == 3
    ensures Join(parts, sep) == parts[0] + [sep] + parts[1] + [sep] + parts[2]
  {
    JoinTwo(parts[1..], sep);
    assert parts[1..][0] == parts[1] && parts[1..][1] == parts[2];
  }

  lemma SplitTwo(a: string, b: string, sep: char)
    requires sep !in a && sep !in b
    ensures Split(a + [sep] + b, sep) == [a, b]
  {
    SplitAtFirstSeparator(a, sep, b);
    SplitWithoutSeparator(b, sep);
  }

  lemma SplitThree(a: string, b: string, c: string, sep: char)
    requires sep !in a && sep !in b && sep !in c
    ensures Split(a + [sep] + b + [sep] + c, sep) == [a, b, c]
  {
    assert a + [sep] + b + [sep] + c == a + [sep] + (b + [sep] + c);
    SplitAtFirstSeparator(a, sep, b + [sep] + c);
    SplitTwo(b, c, sep);
  }

  /** The hyphen-separated parts of a string built from two words and a zone letter. */
  lemma ZoneParts(a: string, b: string, c: char)
    requires IsWord(a) && IsWord(b) && IsZoneLetter(c)
    ensures Split(a + "-" + b + "-" + [c], '-') == [a, b, [c]]
  {
    WordHasNoHyphen(a);
    WordHasNoHyphen(b);
    SplitThree(a, b, [c], '-');
  }

  /** The zone decision procedure is exactly the zone pattern. */
  lemma MatchesZoneRegexCorrect(s: string)
    ensures MatchesZoneRegex(s) <==> ZonePattern(s)
  {
    var parts := Split(s, '-');
    if MatchesZoneRegex(s) {
      JoinSplit(s, '-');
      JoinThree(parts, '-');
      assert parts[2] == [parts[2][0]];
      assert s == parts[0] + "-" + parts[1] + "-" + [parts[2][0]];
    }
    if ZonePattern(s) {
      var a: string, b: string, c: char :| IsWord(a) && IsWord(b) && IsZoneLetter(c) && s == a + "-" + b + "-" + [c];
      ZoneParts(a, b, c);
    }
  }

  /** A word followed by a digit is a word of at least two characters ending in a digit, and back. */
  lemma WordThenDigit(b: string, d: char)
    requires IsWord(b) && IsDigit(d)
    ensures var p := b + [d]; |p| >= 2 && AllWord(p) && IsDigit(p[|p| - 1])
  {
    var p := b + [d];
    forall i | 0 <= i < |p|
      ensures IsWordChar(p[i])
    {
      if i < |b| {
        assert p[i] == b[i];
      }
    }
  }

  lemma SplitWordThenDigit(p: string)
    requires |p| >= 2 && AllWord(p) && IsDigit(p[|p| - 1])
    ensures p == p[..|p| - 1] + [p[|p| - 1]] && IsWord(p[..|p| - 1])
  {
    var b := p[..|p| - 1];
    assert forall i :: 0 <= i < |b| ==> b[i] == p[i];
  }

  /** The hyphen-separated parts of a string built from a word, a word and a digit. */
  lemma RegionParts(a: string, b: string, d: char)
    requires IsWord(a) && IsWord(b) && IsDigit(d)
    ensures Split(a + "-" + b + [d], '-') == [a, b + [d]]
  {
    WordThenDigit(b, d);
    WordHasNoHyphen(a);
    WordHasNoHyphen(b + [d]);
    assert a + "-" + b + [d] == a + ['-'] + (b + [d]);
    SplitTwo(a, b + [d], '-');
  }

  /** The region decision procedure is exactly the region pattern. */
  lemma MatchesRegionRegexCorrect(s: string)
    ensures MatchesRegionRegex(s) <==> RegionPattern(s)
  {
    var parts := Split(s, '-');
    if MatchesRegionRegex(s) {
      JoinSplit(s, '-');
      JoinTwo(parts, '-');
      var p := parts[1];
      SplitWordThenDigit(p);
      assert s == parts[0] + "-" + p[..|p| - 1] + [p[|p| - 1]];
    }
    if RegionPattern(s) {
      var a: string, b: string, d: char :| IsWord(a) && IsWord(b) && IsDigit(d) && s == a + "-" + b + [d];
      RegionParts(a, b, d);
      WordThenDigit(b, d);
    }
  }

  /** The ID decision procedure is exactly the ID pattern. */
  lemma MatchesGCPIDRegexCorrect(s: string)
    ensures MatchesGCPIDRegex(s) <==> GCPIDPattern(s)
  {
    if MatchesGCPIDRegex(s) {
      var m := s[1..|s| - 1];
      assert forall i :: 0 <= i < |m| ==> m[i] == s[i + 1];
      assert s == [s[0]] + m + [s[|s| - 1]];
    }
    if GCPIDPattern(s) {
      var f: char, m: string, l: char :|
        && IsLower(f) && 4 <= |m| <= 28 && (forall i :: 0 <= i < |m| ==> IsIDChar(m[i]))
        && (IsLower(l) || IsDigit(l)) && s == [f] + m + [l];
      assert forall i :: 1 <= i < |s| - 1 ==> s[i] == m[i - 1];
    }
  }

  /** gcpIAMCreator's region: the first two hyphen-separated parts of the zone, joined by a hyphen. */
  function GCPRegionOfZone(zone: string): string
    requires MatchesZoneRegex(zone)
  {
    var parts := Split(zone, '-');
    parts[0] + "-" + parts[1]
  }

  /** The inferred GCP region is the zone without its last two characters (the hyphen and the zone letter). */
  lemma GCPRegionIsZonePrefix(zone: string)
    requires MatchesZoneRegex(zone)
    ensures |zone| >= 2 && GCPRegionOfZone(zone) == zone[..|zone| - 2]
  {
    var parts := Split(zone, '-');
    JoinSplit(zone, '-');
    JoinThree(parts, '-');
    assert zone == (parts[0] + "-" + parts[1]) + "-" + parts[2];
  }

  /**
   * A zone `<a>-<b>-<letter>` passes the zone pattern and yields region
   * `<a>-<b>`, which passes the region pattern exactly when `b` has at least two
   * characters and ends in a digit (so `us-central1-a` gives `us-central1`,
   * while `europe-west-b` passes as a zone but its region `europe-west` fails).
   */
  lemma GCPZoneAndRegion(a: string, b: string, c: char)
    requires IsWord(a) && IsWord(b) && IsZoneLetter(c)
    ensures MatchesZoneRegex(a + "-" + b + "-" + [c])
    ensures GCPRegionOfZone(a + "-" + b + "-" + [c]) == a + "-" + b
    ensures MatchesRegionRegex(a + "-" + b) <==> |b| >= 2 && IsDigit(b[|b| - 1])
  {
    ZoneParts(a, b, c);
    WordHasNoHyphen(a);
    WordHasNoHyphen(b);
    SplitTwo(a, b, '-');
  }

  /** A zone with more or fewer than two hyphens fails the zone pattern. */
  lemma ZoneNeedsTwoHyphens(s: string)
    requires |Split(s, '-')| != 3
    ensures !MatchesZoneRegex(s) && !ZonePattern(s)
  {
    MatchesZoneRegexCorrect(s);
  }

  /** IDs that the pattern accepts and rejects. */
  lemma GCPIDExamples()
    ensures MatchesGCPIDRegex("constell-8")
    ensures !MatchesGCPIDRegex("abcde")
    ensures !MatchesGCPIDRegex("Abcdef")
    ensures !MatchesGCPIDRegex("1bcdef")
    ensures !MatchesGCPIDRegex("abcde-")
    ensures !MatchesGCPIDRegex("abc_def")
    ensures !MatchesGCPIDRegex("abcdefghijklmnopqrstuvwxyz01234")
  {
    assert !IsIDChar("abc_def"[3]);
  }

  // ------------------------------------------------------------------- GCP

  /** GCP flags that pass every check, with the region inferred from the zone. */
  predicate ValidGCPFlags(g: GCPFlags) {
    && MatchesZoneRegex(g.zone)
    && g.region == GCPRegionOfZone(g.zone)
    && MatchesRegionRegex(g.region)
    && MatchesGCPIDRegex(g.projectID)
    && MatchesGCPIDRegex(g.serviceAccountID)
  }

  /** gcpIAMCreator.parseFlagsAndSetupConfig, without the update of the IAM options. */
  function ParseGCPFlags(fs: FlagSet, flags: IAMFlags): Result<IAMFlags, IAMError>
  {
    var zone :- fs.GetString("zone");
    if !MatchesZoneRegex(zone) then Failure(InvalidZone(zone))
    else
      var region := GCPRegionOfZone(zone);
      if !MatchesRegionRegex(region) then Failure(InvalidRegion(region))
      else
        var projectID :- fs.GetString("projectID");
        if !MatchesGCPIDRegex(projectID) then Failure(InvalidProjectID(projectID))
        else
          var serviceAccountID :- fs.GetString("serviceAccountID");
          if !MatchesGCPIDRegex(serviceAccountID) then Failure(InvalidServiceAccountID(serviceAccountID))
          else Success(flags.(gcp := GCPFlags(serviceAccountID := serviceAccountID, zone := zone, region := region, projectID := projectID)))
  }

  /** The GCP checks in order: zone, region inferred from it, project ID, service-account ID; on success only the GCP section of the flags changes. */
  lemma ParseGCPFlagsSpec(fs: FlagSet, flags: IAMFlags)
    ensures var r := ParseGCPFlags(fs, flags);
            "zone" !in fs.strings ==> r == Failure(FlagNotParsed("zone"))
    ensures var r := ParseGCPFlags(fs, flags);
            "zone" in fs.strings && !MatchesZoneRegex(fs.strings["zone"]) ==> r == Failure(InvalidZone(fs.strings["zone"]))
    ensures var r := ParseGCPFlags(fs, flags);
            r.Success? <==>
              && "zone" in fs.strings && MatchesZoneRegex(fs.strings["zone"])
              && MatchesRegionRegex(GCPRegionOfZone(fs.strings["zone"]))
              && "projectID" in fs.strings && MatchesGCPIDRegex(fs.strings["projectID"])
              && "serviceAccountID" in fs.strings && MatchesGCPIDRegex(fs.strings["serviceAccountID"])
    ensures var r := ParseGCPFlags(fs, flags);
            r.Success? ==>
              && r.value.gcp.zone == fs.strings["zone"]
              && r.value.gcp.projectID == fs.strings["projectID"]
              && r.value.gcp.serviceAccountID == fs.strings["serviceAccountID"]
              && ValidGCPFlags(r.value.gcp)
              && r.value.(gcp := flags.gcp) == flags
  {
  }

  /**
   * GCP flags that pass every check carry a zone, a region and two IDs of the
   * shapes the three patterns describe, and a region that is the zone without
   * its last two characters.
   */
  lemma ValidGCPFlagsMatchPatterns(g: GCPFlags)
    requires ValidGCPFlags(g)
    ensures ZonePattern(g.zone) && RegionPattern(g.region)
    ensures GCPIDPattern(g.projectID) && GCPIDPattern(g.serviceAccountID)
    ensures |g.zone| >= 2 && g.region == g.zone[..|g.zone| - 2]
  {
    MatchesZoneRegexCorrect(g.zone);
    MatchesRegionRegexCorrect(g.region);
    MatchesGCPIDRegexCorrect(g.projectID);
    MatchesGCPIDRegexCorrect(g.serviceAccountID);
    GCPRegionIsZonePrefix(g.zone);
  }

  // ------------------------------------------------------- provider dispatch

  /** The providerIAMCreator implementations; the GCP one remembers the workspace. */
  datatype ProviderCreator = AWSIAMCreator | AzureIAMCreator | GCPIAMCreator(workspace: string)

  function ProviderOf(c: ProviderCreator): Provider {
    match c
    case AWSIAMCreator => AWS
    case AzureIAMCreator => Azure
    case GCPIAMCreator(_) => GCP
  }

  /** The provider-specific flag parsing of `c`, which leaves every other part of the flags as it was. */
  function ParseProviderFlags(c: ProviderCreator, fs: FlagSet, flags: IAMFlags, v: AWSValidators): Result<IAMFlags, IAMError>
    requires SoundZoneValidator(v)
  {
    match c
    case AWSIAMCreator => ParseAWSFlags(fs, flags, v)
    case AzureIAMCreator => ParseAzureFlags(fs, flags)
    case GCPIAMCreator(_) => ParseGCPFlags(fs, flags)
  }

  /** A successful provider parse keeps the common flags and the sections of the other providers. */
  lemma ParseProviderFlagsSpec(c: ProviderCreator, fs: FlagSet, flags: IAMFlags, v: AWSValidators)
    requires SoundZoneValidator(v)
    ensures var r := ParseProviderFlags(c, fs, flags, v);
            r.Success? ==>
              && r.value.workspace == flags.workspace
              && r.value.yesFlag == flags.yesFlag
              && r.value.updateConfig == flags.updateConfig
              && (c.AWSIAMCreator? || r.value.aws == flags.aws)
              && (c.AzureIAMCreator? || r.value.azure == flags.azure)
              && (c.GCPIAMCreator? || r.value.gcp == flags.gcp)
  {
    match c
    case AWSIAMCreator => ParseAWSFlagsSpec(fs, flags, v);
    case AzureIAMCreator =>
    case GCPIAMCreator(_) => ParseGCPFlagsSpec(fs, flags);
  }

  datatype AWSIAMConfig = AWSIAMConfig(region: string, prefix: string)
  datatype AzureIAMConfig = AzureIAMConfig(region: string, resourceGroup: string, servicePrincipal: string)
  datatype GCPIAMConfig = GCPIAMConfig(zone: string, region: string, projectID: string, serviceAccountID: string)

  /** cloudcmd.IAMConfigOptions: the inputs of the IAM creation, filled in by the flag parsing. */
  class IAMConfigOptions {
    var aws: AWSIAMConfig
    var azure: AzureIAMConfig
    var gcp: GCPIAMConfig

    constructor ()
      ensures aws == AWSIAMConfig("", "")
      ensures azure == AzureIAMConfig("", "", "")
      ensures gcp == GCPIAMConfig("", "", "", "")
    {
      aws := AWSIAMConfig("", "");
      azure := AzureIAMConfig("", "", "");
      gcp := GCPIAMConfig("", "", "", "");
    }
  }

  /** awsIAMCreator.parseFlagsAndSetupConfig: only when every check passes is the AWS section set. */
  method ParseAWSFlagsAndSetupConfig(fs: FlagSet, flags: IAMFlags, v: AWSValidators, iamConfig: IAMConfigOptions)
    returns (r: Result<IAMFlags, IAMError>)
    requires SoundZoneValidator(v)
    modifies iamConfig
    ensures r == ParseAWSFlags(fs, flags, v)
    ensures r.Failure? ==> unchanged(iamConfig)
    ensures r.Success? ==>
              && iamConfig.aws == AWSIAMConfig(r.value.aws.region, r.value.aws.prefix)
              && iamConfig.azure == old(iamConfig.azure) && iamConfig.gcp == old(iamConfig.gcp)
  {
    r := ParseAWSFlags(fs, flags, v);
    if r.Success? {
      iamConfig.aws := AWSIAMConfig(r.value.aws.region, r.value.aws.prefix);
    }
  }

  /** azureIAMCreator.parseFlagsAndSetupConfig: only when every flag is read is the Azure section set. */
  method ParseAzureFlagsAndSetupConfig(fs: FlagSet, flags: IAMFlags, iamConfig: IAMConfigOptions)
    returns (r: Result<IAMFlags, IAMError>)
    modifies iamConfig
    ensures r == ParseAzureFlags(fs, flags)
    ensures r.Failure? ==> unchanged(iamConfig)
    ensures r.Success? ==>
              && iamConfig.azure == AzureIAMConfig(r.value.azure.region, r.value.azure.resourceGroup, r.value.azure.servicePrincipal)
              && iamConfig.aws == old(iamConfig.aws) && iamConfig.gcp == old(iamConfig.gcp)
  {
    r := ParseAzureFlags(fs, flags);
    if r.Success? {
      iamConfig.azure := AzureIAMConfig(r.value.azure.region, r.value.azure.resourceGroup, r.value.azure.servicePrincipal);
    }
  }

  /** gcpIAMCreator.parseFlagsAndSetupConfig: only when every check passes is the GCP section set. */
  method ParseGCPFlagsAndSetupConfig(fs: FlagSet, flags: IAMFlags, iamConfig: IAMConfigOptions)
    returns (r: Result<IAMFlags, IAMError>)
    modifies iamConfig
    ensures r == ParseGCPFlags(fs, flags)
    ensures r.Failure? ==> unchanged(iamConfig)
    ensures r.Success? ==>
              && iamConfig.gcp == GCPIAMConfig(r.value.gcp.zone, r.value.gcp.region, r.value.gcp.projectID, r.value.gcp.serviceAccountID)
              && iamConfig.aws == old(iamConfig.aws) && iamConfig.azure == old(iamConfig.azure)
  {
    r := ParseGCPFlags(fs, flags);
    if r.Success? {
      iamConfig.gcp := GCPIAMConfig(r.value.gcp.zone, r.value.gcp.region, r.value.gcp.projectID, r.value.gcp.serviceAccountID);
    }
  }

  /** The IAM options section of the selected provider holds the parsed flags `f`. */
  predicate SectionSet(c: ProviderCreator, f: IAMFlags, aws: AWSIAMConfig, azure: AzureIAMConfig, gcp: GCPIAMConfig) {
    match c
    case AWSIAMCreator => aws == AWSIAMConfig(f.aws.region, f.aws.prefix)
    case AzureIAMCreator => azure == AzureIAMConfig(f.azure.region, f.azure.resourceGroup, f.azure.servicePrincipal)
    case GCPIAMCreator(_) => gcp == GCPIAMConfig(f.gcp.zone, f.gcp.region, f.gcp.projectID, f.gcp.serviceAccountID)
  }

  /** The providerIAMCreator's parseFlagsAndSetupConfig, dispatched on the creator. */
  method ProviderParseFlagsAndSetupConfig(c: ProviderCreator, fs: FlagSet, flags: IAMFlags, v: AWSValidators, iamConfig: IAMConfigOptions)
    returns (r: Result<IAMFlags, IAMError>)
    requires SoundZoneValidator(v)
    modifies iamConfig
    ensures r == ParseProviderFlags(c, fs, flags, v)
    ensures r.Failure? ==> unchanged(iamConfig)
    ensures r.Success? ==> SectionSet(c, r.value, iamConfig.aws, iamConfig.azure, iamConfig.gcp)
    ensures !c.AWSIAMCreator? ==> iamConfig.aws == old(iamConfig.aws)
    ensures !c.AzureIAMCreator? ==> iamConfig.azure == old(iamConfig.azure)
    ensures !c.GCPIAMCreator? ==> iamConfig.gcp == old(iamConfig.gcp)
  {
    match c
    case AWSIAMCreator => r := ParseAWSFlagsAndSetupConfig(fs, flags, v, iamConfig);
    case AzureIAMCreator => r := ParseAzureFlagsAndSetupConfig(fs, flags, iamConfig);
    case GCPIAMCreator(_) => r := ParseGCPFlagsAndSetupConfig(fs, flags, iamConfig);
  }

  /** The flags before the provider-specific parsing. */
  function CommonFlags(workspace: string, yesFlag: bool, updateConfig: bool): IAMFlags {
    NoIAMFlags.(workspace := workspace, yesFlag := yesFlag, updateConfig := updateConfig)
  }

  /** The workspace, yes and update-config flags, read in that order. */
  function ReadCommonFlags(fs: FlagSet): (r: Result<IAMFlags, IAMError>)
    ensures r.Success? <==> "workspace" in fs.strings && "yes" in fs.bools && "update-config" in fs.bools
    ensures r.Success? ==> r.value == CommonFlags(fs.strings["workspace"], fs.bools["yes"], fs.bools["update-config"])
    ensures "workspace" !in fs.strings ==> r == Failure(FlagNotParsed("workspace"))
  {
    var workspace :- fs.GetString("workspace");
    var yesFlag :- fs.GetBool("yes");
    var updateConfig :- fs.GetBool("update-config");
    Success(CommonFlags(workspace, yesFlag, updateConfig))
  }

  /**
   * iamCreator.parseFlagsAndSetupConfig, without the update of the IAM options:
   * the common flags, then the provider's flags, whose errors are wrapped.
   */
  function ParseCommandFlags(c: ProviderCreator, fs: FlagSet, v: AWSValidators): Result<IAMFlags, IAMError>
    requires SoundZoneValidator(v)
  {
    match ReadCommonFlags(fs)
    case Failure(e) => Failure(e)
    case Success(flags) => WrapProviderError(ParseProviderFlags(c, fs, flags, v))
  }

  /** The common flags are read first, and the provider's parse of them decides the result, its error wrapped as provider-specific. */
  lemma ParseCommandFlagsSpec(c: ProviderCreator, fs: FlagSet, v: AWSValidators)
    requires SoundZoneValidator(v)
    ensures var r := ParseCommandFlags(c, fs, v);
            "workspace" !in fs.strings ==> r == Failure(FlagNotParsed("workspace"))
    ensures var r := ParseCommandFlags(c, fs, v);
            "workspace" in fs.strings && "yes" !in fs.bools ==> r == Failure(FlagNotParsed("yes"))
    ensures var r := ParseCommandFlags(c, fs, v);
            "workspace" in fs.strings && "yes" in fs.bools && "update-config" !in fs.bools ==>
              r == Failure(FlagNotParsed("update-config"))
    ensures var r := ParseCommandFlags(c, fs, v);
            r.Success? ==>
              && "workspace" in fs.strings && "yes" in fs.bools && "update-config" in fs.bools
              && r.value.workspace == fs.strings["workspace"]
              && r.value.yesFlag == fs.bools["yes"]
              && r.value.updateConfig == fs.bools["update-config"]
    ensures var r := ParseCommandFlags(c, fs, v);
            "workspace" in fs.strings && "yes" in fs.bools && "update-config" in fs.bools ==>
              var p := ParseProviderFlags(c, fs, CommonFlags(fs.strings["workspace"], fs.bools["yes"], fs.bools["update-config"]), v);
              && (r.Success? <==> p.Success?)
              && (p.Success? ==> r.value == p.value)
              && (p.Failure? ==> r.error == ProviderSpecific(p.error))
  {
    if ReadCommonFlags(fs).Success? {
      ParseProviderFlagsSpec(c, fs, ReadCommonFlags(fs).value, v);
    }
  }

  /** The wrapping of a provider's parse error as a provider-specific error. */
  function WrapProviderError(p: Result<IAMFlags, IAMError>): Result<IAMFlags, IAMError> {
    match p
    case Success(_) => p
    case Failure(e) => Failure(ProviderSpecific(e))
  }

  /** Parsed flags carry only the selected provider's section; the sections of the other providers stay empty. */
  lemma ParsedFlagsHaveOneProviderSection(c: ProviderCreator, fs: FlagSet, v: AWSValidators)
    requires SoundZoneValidator(v)
    requires ParseCommandFlags(c, fs, v).Success?
    ensures var f := ParseCommandFlags(c, fs, v).value;
            && (c.AWSIAMCreator? || f.aws == NoIAMFlags.aws)
            && (c.AzureIAMCreator? || f.azure == NoIAMFlags.azure)
            && (c.GCPIAMCreator? || f.gcp == NoIAMFlags.gcp)
  {
    ParseCommandFlagsSpec(c, fs, v);
    ParseProviderFlagsSpec(c, fs, ReadCommonFlags(fs).value, v);
  }

  /** The part of createRunIAMFunc's closure that picks the providerIAMCreator. */
  datatype CreatorFactory = NewAWSCreator | NewAzureCreator | NewGCPCreator {
    function Make(workspace: string): ProviderCreator {
      match this
      case NewAWSCreator => AWSIAMCreator
      case NewAzureCreator => AzureIAMCreator
      case NewGCPCreator => GCPIAMCreator(workspace)
    }
  }

  /** The RunE that createRunIAMFunc returns: one that always fails, or one that sets up a creator for the provider. */
  datatype RunIAMFunc = AlwaysFails(err: IAMError) | RunCreator(provider: Provider, factory: CreatorFactory)

  /** createRunIAMFunc's provider switch. */
  function CreateRunIAMFunc(provider: Provider): (run: RunIAMFunc)
    ensures run.AlwaysFails? <==> provider.Other?
    ensures run.AlwaysFails? ==> run.err == UnknownProvider(provider)
    ensures run.RunCreator? ==> run.provider == provider
    ensures run.RunCreator? ==> forall w :: ProviderOf(run.factory.Make(w)) == provider
    ensures run.RunCreator? ==> forall w :: run.factory.Make(w).GCPIAMCreator? ==> run.factory.Make(w).workspace == w
  {
    match provider
    case AWS => RunCreator(AWS, NewAWSCreator)
    case Azure => RunCreator(Azure, NewAzureCreator)
    case GCP => RunCreator(GCP, NewGCPCreator)
    case Other(_) => AlwaysFails(UnknownProvider(provider))
  }

  /** iamCreator: the provider, its creator and the IAM options it fills in. */
  class IAMCreator {
    var provider: Provider
    var providerCreator: ProviderCreator
    const iamConfig: IAMConfigOptions

    constructor (provider: Provider, providerCreator: ProviderCreator, iamConfig: IAMConfigOptions)
      ensures this.provider == provider && this.providerCreator == providerCreator && this.iamConfig == iamConfig
    {
      this.provider := provider;
      this.providerCreator := providerCreator;
      this.iamConfig := iamConfig;
    }

    /** iamCreator.parseFlagsAndSetupConfig. */
    method ParseFlagsAndSetupConfig(fs: FlagSet, v: AWSValidators) returns (r: Result<IAMFlags, IAMError>)
      requires SoundZoneValidator(v)
      modifies iamConfig
      ensures r == ParseCommandFlags(providerCreator, fs, v)
      ensures r.Failure? ==> unchanged(iamConfig)
      ensures r.Success? ==> SectionSet(providerCreator, r.value, iamConfig.aws, iamConfig.azure, iamConfig.gcp)
      ensures !providerCreator.AWSIAMCreator? ==> iamConfig.aws == old(iamConfig.aws)
      ensures !providerCreator.AzureIAMCreator? ==> iamConfig.azure == old(iamConfig.azure)
      ensures !providerCreator.GCPIAMCreator? ==> iamConfig.gcp == old(iamConfig.gcp)
    {
      var c := providerCreator;
      var flags := ReadCommonFlags(fs);
      if flags.Failure? {
        r := Failure(flags.error);
      } else {
        var p := ProviderParseFlagsAndSetupConfig(c, fs, flags.value, v, iamConfig);
        r := WrapProviderError(p);
      }
    }
  }

  /**
   * The RunE of createRunIAMFunc up to the IAM creation itself: fails for an
   * unknown provider whatever the flags, and otherwise reads the workspace and
   * sets up an iamCreator with the provider, its creator and fresh, empty IAM options.
   */
  method RunIAM(run: RunIAMFunc, fs: FlagSet) returns (r: Result<IAMCreator, IAMError>)
    ensures run.AlwaysFails? ==> r == Failure(run.err)
    ensures run.RunCreator? ==> (r.Success? <==> "workspace" in fs.strings)
    ensures run.RunCreator? && "workspace" !in fs.strings ==> r == Failure(FlagNotParsed("workspace"))
    ensures r.Success? ==>
              && run.RunCreator? && fresh(r.value)
              && r.value.provider == run.provider
              && r.value.providerCreator == run.factory.Make(fs.strings["workspace"])
              && fresh(r.value.iamConfig)
              && r.value.iamConfig.aws == AWSIAMConfig("", "")
              && r.value.iamConfig.azure == AzureIAMConfig("", "", "")
              && r.value.iamConfig.gcp == GCPIAMConfig("", "", "", "")
  {
    match run
    case AlwaysFails(err) =>
      return Failure(err);
    case RunCreator(provider, factory) =>
      var workspace := fs.GetString("workspace");
      if workspace.Failure? {
        return Failure(workspace.error);
      }
      var iamConfig := new IAMConfigOptions();
      var creator := new IAMCreator(provider, factory.Make(workspace.value), iamConfig);
      return Success(creator);
  }

  // ------------------------------------------------- config compatibility

  /** The zone (the region on Azure) the flags gave for a provider. */
  function FlagZoneOrAzRegion(provider: Provider, flags: IAMFlags): (zone: string)
    ensures provider == AWS ==> zone == flags.aws.zone
    ensures provider == Azure ==> zone == flags.azure.region
    ensures provider == GCP ==> zone == flags.gcp.zone
    ensures provider.Other? ==> zone == ""
  {
    match provider
    case AWS => flags.aws.zone
    case Azure => flags.azure.region
    case GCP => flags.gcp.zone
    case Other(_) => ""
  }

  /** After a successful parse, the zone the compatibility check compares against is the zone flag, or on Azure the region flag. */
  lemma ParsedFlagZone(c: ProviderCreator, fs: FlagSet, v: AWSValidators)
    requires SoundZoneValidator(v)
    requires ParseCommandFlags(c, fs, v).Success?
    ensures var zoneFlag := if c.AzureIAMCreator? then "region" else "zone";
            zoneFlag in fs.strings && FlagZoneOrAzRegion(ProviderOf(c), ParseCommandFlags(c, fs, v).value) == fs.strings[zoneFlag]
  {
    ParseCommandFlagsSpec(c, fs, v);
    var flags := ReadCommonFlags(fs).value;
    match c
    case AWSIAMCreator => ParseAWSFlagsSpec(fs, flags, v);
    case AzureIAMCreator =>
    case GCPIAMCreator(_) => ParseGCPFlagsSpec(fs, flags);
  }

  /** checkIfCfgZoneAndFlagZoneDiffer, for a config whose GetZone gives `configZone`. */
  function CheckIfCfgZoneAndFlagZoneDiffer(provider: Provider, flags: IAMFlags, configZone: string): (r: Outcome<IAMError>)
    ensures r.Fail? <==> configZone != "" && configZone != FlagZoneOrAzRegion(provider, flags)
    ensures r.Fail? ==> r.error == ZoneDiffers(configZone, FlagZoneOrAzRegion(provider, flags))
  {
    var flagZone := FlagZoneOrAzRegion(provider, flags);
    if configZone != "" && flagZone != configZone then Fail(ZoneDiffers(configZone, flagZone)) else Pass
  }

  /** validateConfigWithFlagCompatibility, for a config whose HasProvider and GetZone give `hasProvider` and `configZone`. */
  function ValidateConfigWithFlagCompatibility(provider: Provider, hasProvider: bool, configZone: string, flags: IAMFlags)
    : (r: Outcome<IAMError>)
    ensures r.Pass? <==> hasProvider && (configZone == "" || configZone == FlagZoneOrAzRegion(provider, flags))
    ensures !hasProvider ==> r == Fail(ProviderDiffers(provider))
    ensures hasProvider ==> r == CheckIfCfgZoneAndFlagZoneDiffer(provider, flags, configZone)
  {
    if !hasProvider then Fail(ProviderDiffers(provider))
    else CheckIfCfgZoneAndFlagZoneDiffer(provider, flags, configZone)
  }

  /** A provider other than AWS, Azure and GCP compares the empty zone: only a config without a zone passes. */
  lemma OtherProviderNeedsEmptyZone(name: string, hasProvider: bool, configZone: string, flags: IAMFlags)
    ensures ValidateConfigWithFlagCompatibility(Other(name), hasProvider, configZone, flags).Pass? <==> hasProvider && configZone == ""
  {
  }

  // ------------------------------------------------------ config rewriting

  datatype AWSConfig = AWSConfig(region: string, zone: string, iamProfileControlPlane: string, iamProfileWorkerNodes: string)
  datatype AzureConfig = AzureConfig(
    subscriptionID: string,
    tenantID: string,
    location: string,
    resourceGroup: string,
    userAssignedIdentity: string)
  datatype GCPConfig = GCPConfig(project: string, serviceAccountKeyPath: string, region: string, zone: string)

  /** A node group of the config; the fields other than `zone` stand for the rest of config.NodeGroup. */
  datatype NodeGroup = NodeGroup(role: string, zone: string, instanceType: string, initialCount: int)

  datatype AWSIAMOutput = AWSIAMOutput(controlPlaneInstanceProfile: string, workerNodeInstanceProfile: string)
  datatype AzureIAMOutput = AzureIAMOutput(subscriptionID: string, tenantID: string, uamiID: string)
  datatype GCPIAMOutput = GCPIAMOutput(serviceAccountKey: string)

  /** cloudcmd.IAMOutput: what the IAM creation returns. */
  datatype IAMOutput = IAMOutput(awsOutput: AWSIAMOutput, azureOutput: AzureIAMOutput, gcpOutput: GCPIAMOutput)

  /** The node groups with every group's zone set to `zone`: same names, every other field kept. */
  function WithZone(groups: map<string, NodeGroup>, zone: string): (r: map<string, NodeGroup>)
    ensures r.Keys == groups.Keys
    ensures forall name :: name in r ==> r[name].zone == zone && r[name].(zone := groups[name].zone) == groups[name]
  {
    map name | name in groups :: groups[name].(zone := zone)
  }

  /** Setting the zones twice is setting them once, to the later zone. */
  lemma WithZoneLastWins(groups: map<string, NodeGroup>, zone1: string, zone2: string)
    ensures WithZone(WithZone(groups, zone1), zone2) == WithZone(groups, zone2)
  {
    var left, right := WithZone(WithZone(groups, zone1), zone2), WithZone(groups, zone2);
    forall name | name in left
      ensures left[name] == right[name]
    {
      assert left[name] == WithZone(groups, zone1)[name].(zone := zone2);
    }
  }

  /** Setting the zones is idempotent. */
  lemma WithZoneIdempotent(groups: map<string, NodeGroup>, zone: string)
    ensures WithZone(WithZone(groups, zone), zone) == WithZone(groups, zone)
  {
    WithZoneLastWins(groups, zone, zone);
  }

  /** config.Config: the provider sections the command rewrites and the node groups. */
  class Config {
    var aws: AWSConfig
    var azure: AzureConfig
    var gcp: GCPConfig
    var nodeGroups: map<string, NodeGroup>

    constructor (aws: AWSConfig, azure: AzureConfig, gcp: GCPConfig, nodeGroups: map<string, NodeGroup>)
      ensures this.aws == aws && this.azure == azure && this.gcp == gcp && this.nodeGroups == nodeGroups
    {
      this.aws := aws;
      this.azure := azure;
      this.gcp := gcp;
      this.nodeGroups := nodeGroups;
    }

    /** The loop over `conf.NodeGroups` that rewrites every entry with the given zone, in any order. */
    method SetNodeGroupZones(zone: string)
      modifies this
      ensures nodeGroups == WithZone(old(nodeGroups), zone)
      ensures aws == old(aws) && azure == old(azure) && gcp == old(gcp)
    {
      ghost var before := nodeGroups;
      var todo := nodeGroups.Keys;
      while todo != {}
        invariant todo <= before.Keys
        invariant nodeGroups.Keys == before.Keys
        invariant forall name :: name in before && name !in todo ==> nodeGroups[name] == before[name].(zone := zone)
        invariant forall name :: name in todo ==> nodeGroups[name] == before[name]
        invariant aws == old(aws) && azure == old(azure) && gcp == old(gcp)
        decreases todo
      {
        var name :| name in todo;
        var group := nodeGroups[name];
        group := group.(zone := zone);
        nodeGroups := nodeGroups[name := group];
        todo := todo - {name};
      }
      assert nodeGroups == WithZone(before, zone);
    }
  }

  /** awsIAMCreator.writeOutputValuesToConfig. */
  method WriteAWSOutputValuesToConfig(conf: Config, flags: IAMFlags, iamFile: IAMOutput)
    modifies conf
    ensures conf.aws == AWSConfig(flags.aws.region, flags.aws.zone,
                                  iamFile.awsOutput.controlPlaneInstanceProfile, iamFile.awsOutput.workerNodeInstanceProfile)
    ensures conf.azure == old(conf.azure) && conf.gcp == old(conf.gcp)
    ensures conf.nodeGroups == WithZone(old(conf.nodeGroups), flags.aws.zone)
  {
    conf.aws := AWSConfig(flags.aws.region, flags.aws.zone,
                          iamFile.awsOutput.controlPlaneInstanceProfile, iamFile.awsOutput.workerNodeInstanceProfile);
    conf.SetNodeGroupZones(flags.aws.zone);
  }

  /** azureIAMCreator.writeOutputValuesToConfig: the node groups are left alone. */
  method WriteAzureOutputValuesToConfig(conf: Config, flags: IAMFlags, iamFile: IAMOutput)
    modifies conf
    ensures conf.azure == AzureConfig(iamFile.azureOutput.subscriptionID, iamFile.azureOutput.tenantID,
                                      flags.azure.region, flags.azure.resourceGroup, iamFile.azureOutput.uamiID)
    ensures conf.aws == old(conf.aws) && conf.gcp == old(conf.gcp) && conf.nodeGroups == old(conf.nodeGroups)
  {
    conf.azure := AzureConfig(iamFile.azureOutput.subscriptionID, iamFile.azureOutput.tenantID,
                              flags.azure.region, flags.azure.resourceGroup, iamFile.azureOutput.uamiID);
  }

  /** gcpIAMCreator.writeOutputValuesToConfig; `keyFile` is the name of the service-account key file. */
  method WriteGCPOutputValuesToConfig(conf: Config, flags: IAMFlags, keyFile: string)
    modifies conf
    ensures conf.gcp == GCPConfig(flags.gcp.projectID, keyFile, flags.gcp.region, flags.gcp.zone)
    ensures conf.aws == old(conf.aws) && conf.azure == old(conf.azure)
    ensures conf.nodeGroups == WithZone(old(conf.nodeGroups), flags.gcp.zone)
  {
    conf.gcp := GCPConfig(flags.gcp.projectID, keyFile, flags.gcp.region, flags.gcp.zone);
    conf.SetNodeGroupZones(flags.gcp.zone);
  }

  /** The creator's writeOutputValuesToConfig: the selected provider's section is written in full, and every node group gets the flag zone except on Azure. */
  method WriteOutputValuesToConfig(c: ProviderCreator, conf: Config, flags: IAMFlags, iamFile: IAMOutput, keyFile: string)
    modifies conf
    ensures c.AzureIAMCreator? ==> conf.nodeGroups == old(conf.nodeGroups)
    ensures !c.AzureIAMCreator? ==> conf.nodeGroups == WithZone(old(conf.nodeGroups), FlagZoneOrAzRegion(ProviderOf(c), flags))
    ensures c.AWSIAMCreator? ==>
              conf.aws == AWSConfig(flags.aws.region, flags.aws.zone,
                                    iamFile.awsOutput.controlPlaneInstanceProfile, iamFile.awsOutput.workerNodeInstanceProfile)
    ensures c.AzureIAMCreator? ==>
              conf.azure == AzureConfig(iamFile.azureOutput.subscriptionID, iamFile.azureOutput.tenantID,
                                        flags.azure.region, flags.azure.resourceGroup, iamFile.azureOutput.uamiID)
    ensures c.GCPIAMCreator? ==> conf.gcp == GCPConfig(flags.gcp.projectID, keyFile, flags.gcp.region, flags.gcp.zone)
    ensures !c.AWSIAMCreator? ==> conf.aws == old(conf.aws)
    ensures !c.AzureIAMCreator? ==> conf.azure == old(conf.azure)
    ensures !c.GCPIAMCreator? ==> conf.gcp == old(conf.gcp)
  {
    match c
    case AWSIAMCreator => WriteAWSOutputValuesToConfig(conf, flags, iamFile);
    case AzureIAMCreator => WriteAzureOutputValuesToConfig(conf, flags, iamFile);
    case GCPIAMCreator(_) => WriteGCPOutputValuesToConfig(conf, flags, keyFile);
  }
}
