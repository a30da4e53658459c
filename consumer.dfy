/**
 * The consumer Lambda: for one queued work item it assumes the Control Tower execution
 * role in the target account, finds the name of the existing AWS Config recorder and
 * computes the configuration-recorder document it writes with
 * `put_configuration_recorder`: the record-everything baseline for `Delete`, otherwise
 * an exclusion-by-resource-type recorder with a daily-frequency override list.
 *
 * Environment variables are a map from name to value (an absent key is an unset
 * variable); the AWS calls (STS, Config describe and put) are inputs and outputs.
 */
module Consumer {
  import opened Wrappers
  import opened Seqs
  import opened PyStrings
  import opened WorkItems

  const DefaultRecorderName := "aws-controltower-BaselineConfigRecorder"
  const ConfigRolePrefix := "arn:aws:iam::"
  const ConfigRoleSuffix := ":role/aws-service-role/config.amazonaws.com/AWSServiceRoleForConfig"
  const ExecutionRole := "AWSControlTowerExecution"
  const ExclusionStrategy := "EXCLUSION_BY_RESOURCE_TYPES"
  const OverrideDescription := "DAILY_OVERRIDE"
  const DailyFrequency := "DAILY"

  const DailyKey := "CONFIG_RECORDER_OVERRIDE_DAILY_RESOURCE_LIST"
  const GlobalKey := "CONFIG_RECORDER_OVERRIDE_DAILY_GLOBAL_RESOURCE_LIST"
  const ExcludedKey := "CONFIG_RECORDER_OVERRIDE_EXCLUDED_RESOURCE_LIST"
  const SpecialAccountsKey := "CONFIG_RECORDER_SPECIAL_EXCLUDED_ACCOUNTS"
  const SpecialListKey := "CONFIG_RECORDER_OVERRIDE_SPECIAL_EXCLUDED_RESOURCE_LIST"
  const FrequencyKey := "CONFIG_RECORDER_DEFAULT_RECORDING_FREQUENCY"
  const HomeRegionKey := "CONTROL_TOWER_HOME_REGION"

  /** How an invocation ends early; each is an exception the handler logs and swallows. */
  datatype Fault =
    | NoWorkItem              // the queue record did not decode to Account/Region/Event
    | IdentityUnavailable     // `get_caller_identity` failed
    | MalformedCallerArn      // the caller's ARN has no second ':'-field
    | AssumeRoleDenied        // `assume_role` was refused
    | NoSession               // target is the caller's own account: `None.client(...)`
    | UnsetVariable(name: string)  // `.split` on an unset variable
    | ExclusionListUnset      // `x not in None` while filtering a non-empty daily list

  /**
   * The exclusion list the recorder document carries: the split environment list, or,
   * for a special account, the special variable's value as one unsplit string, or
   * Python's None when that variable is unset.
   */
  datatype ExclusionList = Listed(types: seq<string>) | Raw(text: string) | Missing

  datatype RecordingGroup = RecordingGroup(
    allSupported: bool,
    includeGlobalResourceTypes: bool,
    exclusionByResourceTypes: Option<ExclusionList>,
    recordingStrategy: Option<string>)

  datatype RecordingModeOverride = RecordingModeOverride(
    description: string, resourceTypes: seq<string>, recordingFrequency: string)

  datatype RecordingMode = RecordingMode(
    recordingFrequency: Option<string>, recordingModeOverrides: seq<RecordingModeOverride>)

  /** The `ConfigurationRecorder` argument of `put_configuration_recorder`. */
  datatype ConfigurationRecorder = ConfigurationRecorder(
    name: string,
    roleArn: string,
    recordingGroup: RecordingGroup,
    recordingMode: Option<RecordingMode>)

  // ---------------------------------------------------------------------------
  // Environment and small derivations

  /** `os.getenv(key)` */
  function Lookup(env: map<string, string>, key: string): Option<string>
  {
    if key in env then Some(env[key]) else None
  }

  /** The first existing recorder's name, or Control Tower's default name when there is none. */
  function RecorderName(recorders: seq<string>): string
  {
    if |recorders| > 0 then recorders[0] else DefaultRecorderName
  }

  /** The AWS Config service-linked role of an account. */
  function ServiceRoleArn(account: string): string
  {
    ConfigRolePrefix + account + ConfigRoleSuffix
  }

  /** Different accounts get different service roles: the account can be read back from the ARN. */
  lemma ServiceRoleArnInjective(a: string, b: string)
    requires ServiceRoleArn(a) == ServiceRoleArn(b)
    ensures a == b
  {
    var n := |ConfigRolePrefix|;
    assert |a| == |b|;
    assert a == ServiceRoleArn(a)[n..n + |a|];
    assert b == ServiceRoleArn(b)[n..n + |b|];
  }

  /**
   * A daily list variable: '' is the empty list, anything else is split on ','
   * (so the pieces join back to the variable's value).
   */
  function ParseResourceList(value: string): (r: seq<string>)
    ensures r == [] <==> value == ""
    ensures r != [] ==> Join(r, ',') == value
    ensures forall i :: 0 <= i < |r| ==> ',' !in r[i]
  {
    JoinSplit(value, ',');
    SplitPiecesFree(value, ',');
    if value == "" then [] else Split(value, ',')
  }

  /** The exclusion variable: unset or '' is the empty list, anything else is split on ','. */
  function ParseExclusionList(value: Option<string>): (r: seq<string>)
    ensures r == [] <==> value.None? || value.value == ""
    ensures r != [] ==> Join(r, ',') == value.value
    ensures forall i :: 0 <= i < |r| ==> ',' !in r[i]
  {
    if value.None? then [] else ParseResourceList(value.value)
  }

  function NonEmpty(): string -> bool
  {
    (x: string) => x != ""
  }

  function StripFn(): string -> string
  {
    (x: string) => Strip(x)
  }

  /** The special-accounts variable: split on ',', each piece stripped, empty pieces dropped. */
  function ParseSpecialAccounts(value: string): seq<string>
  {
    Filter(NonEmpty(), Map(StripFn(), Split(value, ',')))
  }

  /** A special-account entry: non-empty, already stripped and free of ','. */
  predicate CleanAccount(x: string)
  {
    x != "" && Strip(x) == x && ',' !in x
  }

  lemma StrippedPieceClean(p: string)
    requires ',' !in p && Strip(p) != ""
    ensures CleanAccount(Strip(p))
  {
    StripIdempotent(p);
    StripSpec(p);
  }

  /** Every special account is a non-empty, already stripped, comma-free piece. */
  lemma SpecialAccountsClean(value: string)
    ensures var r := ParseSpecialAccounts(value);
            forall i :: 0 <= i < |r| ==> CleanAccount(r[i])
  {
    var pieces := Split(value, ',');
    SplitPiecesFree(value, ',');
    StrippedPiecesClean(pieces);
    var r := ParseSpecialAccounts(value);
    assert r == Filter(NonEmpty(), Map(StripFn(), pieces));
    forall i | 0 <= i < |r| ensures CleanAccount(r[i]) {
      assert r[i] in r;
    }
  }

  /** Stripping comma-free pieces and dropping the empty ones leaves only clean entries. */
  lemma {:induction false} StrippedPiecesClean(pieces: seq<string>)
    requires forall i :: 0 <= i < |pieces| ==> ',' !in pieces[i]
    ensures forall x :: x in Filter(NonEmpty(), Map(StripFn(), pieces)) ==> CleanAccount(x)
  {
    if pieces != [] {
      var rest := pieces[1..];
      assert forall i :: 0 <= i < |rest| ==> ',' !in rest[i] by {
        forall i | 0 <= i < |rest| ensures ',' !in rest[i] {
          assert rest[i] == pieces[i + 1];
        }
      }
      StrippedPiecesClean(rest);
      var stripped := Map(StripFn(), pieces);
      var head := Strip(pieces[0]);
      assert stripped == [head] + Map(StripFn(), rest);
      assert stripped[0] == head && stripped[1..] == Map(StripFn(), rest);
      var kept := if head != "" then [head] else [];
      assert Filter(NonEmpty(), stripped) == kept + Filter(NonEmpty(), Map(StripFn(), rest));
      if head != "" {
        StrippedPieceClean(pieces[0]);
      }
    }
  }

  /** An account is special exactly when it is non-empty and some ','-piece strips to it. */
  lemma SpecialAccountsMembership(value: string, a: string)
    ensures a in ParseSpecialAccounts(value) <==> a != "" && exists p :: p in Split(value, ',') && Strip(p) == a
  {
    StrippedMembership(Split(value, ','), a);
    assert ParseSpecialAccounts(value) == Filter(NonEmpty(), Map(StripFn(), Split(value, ',')));
  }

  lemma StrippedMembership(pieces: seq<string>, a: string)
    ensures a in Filter(NonEmpty(), Map(StripFn(), pieces)) <==> a != "" && exists p :: p in pieces && Strip(p) == a
  {
    var stripped := Map(StripFn(), pieces);
    MapSpec(StripFn(), pieces);
    FilterMembership(NonEmpty(), stripped);
    if a in stripped {
      var k :| 0 <= k < |stripped| && stripped[k] == a;
      assert pieces[k] in pieces;
    }
    if exists p :: p in pieces && Strip(p) == a {
      var p :| p in pieces && Strip(p) == a;
      var k :| 0 <= k < |pieces| && pieces[k] == p;
      assert stripped[k] == a;
    }
  }

  /**
   * The effective exclusion list for an account (lines 104-113): the split exclusion
   * variable, replaced for a special account by the raw special value.
   */
  function EffectiveExclusion(env: map<string, string>, account: string): ExclusionList
  {
    if account in ParseSpecialAccounts(if SpecialAccountsKey in env then env[SpecialAccountsKey] else "")
    then (match Lookup(env, SpecialListKey) case Some(v) => Raw(v) case None => Missing)
    else Listed(ParseExclusionList(Lookup(env, ExcludedKey)))
  }

  /** `x in exclusion`: list membership for a split list, a substring test for a raw string. */
  predicate Excludes(e: ExclusionList, x: string)
  {
    match e
    case Listed(types) => x in types
    case Raw(text) => Contains(text, x)
    case Missing => false
  }

  /** Python truthiness of the exclusion list. */
  predicate IsTruthy(e: ExclusionList)
  {
    match e
    case Listed(types) => types != []
    case Raw(text) => text != ""
    case Missing => false
  }

  function NotExcludedBy(e: ExclusionList): string -> bool
  {
    (x: string) => !Excludes(e, x)
  }

  function HomeGlobals(global: seq<string>, home: bool): seq<string>
  {
    if home then global else []
  }

  /**
   * The daily-override list (lines 117-124): the daily list without the entries the
   * effective exclusion excludes, in order and with their multiplicity, followed in
   * the home region by the unfiltered global daily list. Filtering a non-empty daily
   * list against Python's None fails.
   */
  function DailyOverrideList(daily: seq<string>, global: seq<string>, e: ExclusionList, home: bool)
    : Result<seq<string>, Fault>
  {
    if e.Missing? && daily != [] then Failure(ExclusionListUnset)
    else Success(Filter(NotExcludedBy(e), daily) + HomeGlobals(global, home))
  }

  /**
   * The daily-override list fails exactly when a non-empty daily list meets an unset
   * special value; otherwise it is the daily list without the excluded types, in order
   * and with their multiplicity, followed by the home-region globals.
   */
  lemma DailyOverrideListSpec(daily: seq<string>, global: seq<string>, e: ExclusionList, home: bool)
    ensures var r := DailyOverrideList(daily, global, e, home);
            (r.Failure? <==> e.Missing? && daily != [])
            && (r.Success? ==>
                  var tail := HomeGlobals(global, home);
                  |tail| <= |r.value| && r.value[|r.value| - |tail|..] == tail
                  && var kept := r.value[..|r.value| - |tail|];
                  IsSubsequence(kept, daily)
                  && forall x :: multiset(kept)[x] == if Excludes(e, x) then 0 else multiset(daily)[x])
  {
    var r := DailyOverrideList(daily, global, e, home);
    if r.Success? {
      var kept := Filter(NotExcludedBy(e), daily);
      FilterSpec(NotExcludedBy(e), daily);
      assert r.value[..|kept|] == kept;
      assert r.value[|kept|..] == HomeGlobals(global, home);
    }
  }

  /** `CONTROL_TOWER_HOME_REGION == aws_region` (an unset variable matches no region). */
  predicate IsHomeRegion(env: map<string, string>, region: string)
  {
    Lookup(env, HomeRegionKey) == Some(region)
  }

  /** The `recordingModeOverrides`: one DAILY override with the list when it is non-empty. */
  function DailyOverrides(daily: seq<string>): seq<RecordingModeOverride>
  {
    if daily == [] then [] else [RecordingModeOverride(OverrideDescription, daily, DailyFrequency)]
  }

  /**
   * What the list handling leaves behind: the daily-override list, the effective
   * exclusion, whether the region is the home region, and the default frequency.
   */
  datatype Settings = Settings(daily: seq<string>, exclusion: ExclusionList, home: bool, frequency: Option<string>)

  /**
   * The list handling, or the exception that stops it: an unset daily list, then an
   * unset global list, then filtering against an unset special value.
   */
  function OverrideSettings(env: map<string, string>, account: string, region: string): Result<Settings, Fault>
  {
    if DailyKey !in env then Failure(UnsetVariable(DailyKey))
    else if GlobalKey !in env then Failure(UnsetVariable(GlobalKey))
    else
      var e := EffectiveExclusion(env, account);
      var home := IsHomeRegion(env, region);
      match DailyOverrideList(ParseResourceList(env[DailyKey]), ParseResourceList(env[GlobalKey]), e, home)
      case Failure(f) => Failure(f)
      case Success(daily) => Success(Settings(daily, e, home, Lookup(env, FrequencyKey)))
  }

  /**
   * The document for an event: the baseline for Delete, otherwise the exclusion
   * recorder, which collapses to record-everything when the exclusion list is empty.
   */
  function Assemble(name: string, role: string, st: Settings, event: string): ConfigurationRecorder
  {
    if event == DeleteEvent then
      ConfigurationRecorder(name, role, RecordingGroup(true, st.home, None, None), None)
    else
      var mode := Some(RecordingMode(st.frequency, DailyOverrides(st.daily)));
      if IsTruthy(st.exclusion) then
        ConfigurationRecorder(name, role, RecordingGroup(false, false, Some(st.exclusion), Some(ExclusionStrategy)), mode)
      else
        ConfigurationRecorder(name, role, RecordingGroup(true, true, None, None), mode)
  }

  /**
   * The recorder document the handler writes, or the exception that stops it first.
   * It is a function of its inputs alone.
   */
  function Document(env: map<string, string>, account: string, region: string, event: string,
                    recorders: seq<string>): Result<ConfigurationRecorder, Fault>
  {
    match OverrideSettings(env, account, region)
    case Failure(f) => Failure(f)
    case Success(st) => Success(Assemble(RecorderName(recorders), ServiceRoleArn(account), st, event))
  }

  // ---------------------------------------------------------------------------
  // The handler's statements

  /** The exclusion list as written: split, then replaced for a special account. */
  method ReadExclusion(env: map<string, string>, account: string) returns (exclusion: ExclusionList)
    ensures exclusion == EffectiveExclusion(env, account)
  {
    var exclusionString := Lookup(env, ExcludedKey);
    exclusion := Listed(if exclusionString.Some? && exclusionString.value != ""
                        then Split(exclusionString.value, ',') else []);
    var specialAccounts := ParseSpecialAccounts(if SpecialAccountsKey in env then env[SpecialAccountsKey] else "");
    var specialList := Lookup(env, SpecialListKey);
    if account in specialAccounts {
      exclusion := if specialList.Some? then Raw(specialList.value) else Missing;
    }
  }

  /**
   * The list handling as written: split the variables, replace the exclusion list
   * for a special account, filter the daily list in place and extend it with the
   * globals in the home region.
   */
  method ReadSettings(env: map<string, string>, account: string, region: string) returns (r: Result<Settings, Fault>)
    ensures r == OverrideSettings(env, account, region)
  {
    var dailyString := Lookup(env, DailyKey);
    if dailyString.None? {
      return Failure(UnsetVariable(DailyKey));
    }
    var daily := if dailyString.value != "" then Split(dailyString.value, ',') else [];
    assert daily == ParseResourceList(env[DailyKey]);
    var globalString := Lookup(env, GlobalKey);
    if globalString.None? {
      return Failure(UnsetVariable(GlobalKey));
    }
    var global := if globalString.value != "" then Split(globalString.value, ',') else [];
    assert global == ParseResourceList(env[GlobalKey]);

    var exclusion := ReadExclusion(env, account);
    var frequency := Lookup(env, FrequencyKey);

    if exclusion.Missing? && daily != [] {
      return Failure(ExclusionListUnset);
    }
    ghost var listed := daily;
    daily := Filter(NotExcludedBy(exclusion), daily);
    var homeRegion := Lookup(env, HomeRegionKey) == Some(region);
    if homeRegion {
      daily := daily + global;
    } else {
      assert daily == Filter(NotExcludedBy(exclusion), listed) + [];
    }
    assert DailyOverrideList(listed, global, exclusion, homeRegion) == Success(daily);
    r := Success(Settings(daily, exclusion, homeRegion, frequency));
  }

  /**
   * The document as written: Delete builds the baseline; any other event builds the
   * exclusion recorder and, when the exclusion list is empty, pops the filter and the
   * strategy again and switches both recording flags on.
   */
  method BuildRecorder(name: string, role: string, st: Settings, event: string) returns (recorder: ConfigurationRecorder)
    ensures recorder == Assemble(name, role, st, event)
  {
    if event == DeleteEvent {
      return ConfigurationRecorder(name, role, RecordingGroup(true, st.home, None, None), None);
    }
    var daily := st.daily;
    recorder := ConfigurationRecorder(
      name, role,
      RecordingGroup(false, false, Some(st.exclusion), Some(ExclusionStrategy)),
      Some(RecordingMode(st.frequency, if daily != [] then [RecordingModeOverride(OverrideDescription, daily, DailyFrequency)] else [])));
    if !IsTruthy(st.exclusion) {
      var group := recorder.recordingGroup.(exclusionByResourceTypes := None, recordingStrategy := None);
      group := group.(allSupported := true, includeGlobalResourceTypes := true);
      recorder := recorder.(recordingGroup := group);
    }
  }

  /** The whole compilation: recorder name and service role, the list handling, then the document. */
  method CompileRecorder(env: map<string, string>, account: string, region: string, event: string,
                         recorders: seq<string>) returns (r: Result<ConfigurationRecorder, Fault>)
    ensures r == Document(env, account, region, event, recorders)
  {
    var recorderName := DefaultRecorderName;
    if |recorders| > 0 {
      recorderName := recorders[0];
    }
    var roleArn := ConfigRolePrefix + account + ConfigRoleSuffix;
    var settings := ReadSettings(env, account, region);
    if settings.Failure? {
      return Failure(settings.error);
    }
    var recorder := BuildRecorder(recorderName, roleArn, settings.value, event);
    r := Success(recorder);
  }

  /** The caller's identity as STS reports it. */
  datatype CallerIdentity = CallerIdentity(account: string, arn: string)

  /** The `assume_role` request: role ARN and session name. */
  datatype AssumeRoleRequest = AssumeRoleRequest(roleArn: string, sessionName: string)

  /**
   * `assume_role(account, role)` up to the STS call: no request (and so no session)
   * when the target is the caller's own account; otherwise the role in the target
   * account, in the caller's partition, with session name `<account>-<role>`.
   */
  function AssumeRoleRequestFor(caller: CallerIdentity, account: string, role: string)
    : Result<Option<AssumeRoleRequest>, Fault>
  {
    if caller.account == account then Success(None)
    else
      var fields := Split(caller.arn, ':');
      if |fields| < 2 then Failure(MalformedCallerArn)
      else Success(Some(AssumeRoleRequest("arn:" + fields[1] + ":iam::" + account + ":role/" + role,
                                          account + "-" + role)))
  }

  lemma AssumeRoleSelf(caller: CallerIdentity, role: string)
    ensures AssumeRoleRequestFor(caller, caller.account, role) == Success(None)
  {
  }

  /**
   * For a caller ARN `arn:<partition>:<rest>`, the role assumed is the named role in
   * the target account in the same partition, and the session is named after both.
   */
  lemma AssumeRoleInPartition(partition: string, rest: string, callerAccount: string, account: string, role: string)
    requires ':' !in partition && callerAccount != account
    ensures AssumeRoleRequestFor(CallerIdentity(callerAccount, "arn:" + partition + ":" + rest), account, role)
         == Success(Some(AssumeRoleRequest("arn:" + partition + ":iam::" + account + ":role/" + role,
                                           account + "-" + role)))
  {
    var arn := "arn:" + partition + ":" + rest;
    assert arn == "arn" + [':'] + (partition + [':'] + rest);
    SplitConcat("arn", partition + [':'] + rest, ':');
    SplitConcat(partition, rest, ':');
    SplitSeparatorFree("arn", ':');
    SplitSeparatorFree(partition, ':');
  }

  /**
   * One invocation for a decoded work item (`None` when the record did not decode),
   * the caller's identity (`None` when STS failed), whether STS grants the role, and
   * the names of the recorders `describe_configuration_recorders` lists. Returns the
   * document it writes, or why it stopped first.
   */
  method HandleMessage(env: map<string, string>, item: Option<WorkItem>, identity: Option<CallerIdentity>,
                       assumeGranted: bool, recorders: seq<string>)
    returns (r: Result<ConfigurationRecorder, Fault>)
    ensures item.None? ==> r == Failure(NoWorkItem)
    ensures item.Some? && identity.None? ==> r == Failure(IdentityUnavailable)
    ensures item.Some? && identity.Some? && identity.value.account == item.value.account ==> r == Failure(NoSession)
    ensures item.Some? && identity.Some? && identity.value.account != item.value.account ==>
              var request := AssumeRoleRequestFor(identity.value, item.value.account, ExecutionRole);
              if request.Failure? then r == Failure(MalformedCallerArn)
              else if !assumeGranted then r == Failure(AssumeRoleDenied)
              else r == Document(env, item.value.account, item.value.region, item.value.event, recorders)
  {
    if item.None? {
      return Failure(NoWorkItem);
    }
    var account, region, event := item.value.account, item.value.region, item.value.event;
    if identity.None? {
      return Failure(IdentityUnavailable);
    }
    var request := AssumeRoleRequestFor(identity.value, account, ExecutionRole);
    if request.Failure? {
      return Failure(MalformedCallerArn);
    }
    if request.value.None? {
      return Failure(NoSession);
    }
    if !assumeGranted {
      return Failure(AssumeRoleDenied);
    }
    r := CompileRecorder(env, account, region, event, recorders);
  }

  // ---------------------------------------------------------------------------
  // Properties of the document

  /**
   * Every document the handler writes, whatever its shape, names the first existing
   * recorder (or Control Tower's default when there is none) and the account's AWS
   * Config service-linked role.
   */
  lemma DocumentIdentity(env: map<string, string>, account: string, region: string, event: string,
                         recorders: seq<string>)
    requires Document(env, account, region, event, recorders).Success?
    ensures var doc := Document(env, account, region, event, recorders).value;
            doc.name == (if recorders != [] then recorders[0] else DefaultRecorderName)
            && doc.roleArn == "arn:aws:iam::" + account + ":role/aws-service-role/config.amazonaws.com/AWSServiceRoleForConfig"
  {
  }

  /** Delete writes the baseline: record all supported types, globals only in the home region, no filter, no recording mode. */
  lemma DeleteRestoresBaseline(env: map<string, string>, account: string, region: string, recorders: seq<string>)
    requires Document(env, account, region, DeleteEvent, recorders).Success?
    ensures Document(env, account, region, DeleteEvent, recorders).value
         == ConfigurationRecorder(RecorderName(recorders), ServiceRoleArn(account),
                                  RecordingGroup(true, IsHomeRegion(env, region), None, None), None)
  {
  }

  /** The Delete document does not depend on any resource list, only on the home-region test. */
  lemma DeleteIgnoresLists(env1: map<string, string>, env2: map<string, string>, account: string, region: string,
                           recorders: seq<string>)
    requires Document(env1, account, region, DeleteEvent, recorders).Success?
    requires Document(env2, account, region, DeleteEvent, recorders).Success?
    requires IsHomeRegion(env1, region) == IsHomeRegion(env2, region)
    ensures Document(env1, account, region, DeleteEvent, recorders) == Document(env2, account, region, DeleteEvent, recorders)
  {
    DeleteRestoresBaseline(env1, account, region, recorders);
    DeleteRestoresBaseline(env2, account, region, recorders);
  }

  /**
   * Any other event with a non-empty exclusion list writes the exclusion recorder:
   * nothing recorded by default, no global types, the effective list as exclusion
   * filter, and the default frequency with at most one DAILY override.
   */
  lemma ExclusionDocument(env: map<string, string>, account: string, region: string, event: string,
                          recorders: seq<string>)
    requires event != DeleteEvent && IsTruthy(EffectiveExclusion(env, account))
    requires Document(env, account, region, event, recorders).Success?
    ensures var doc := Document(env, account, region, event, recorders).value;
            doc.recordingGroup == RecordingGroup(false, false, Some(EffectiveExclusion(env, account)), Some(ExclusionStrategy))
            && doc.recordingMode.Some?
            && doc.recordingMode.value.recordingFrequency == Lookup(env, FrequencyKey)
            && |doc.recordingMode.value.recordingModeOverrides| <= 1
  {
  }

  /** An empty exclusion list collapses to recording everything, keeping the recording mode. */
  lemma EmptyExclusionRecordsEverything(env: map<string, string>, account: string, region: string, event: string,
                                        recorders: seq<string>)
    requires event != DeleteEvent && !IsTruthy(EffectiveExclusion(env, account))
    requires Document(env, account, region, event, recorders).Success?
    ensures var doc := Document(env, account, region, event, recorders).value;
            doc.recordingGroup == RecordingGroup(true, true, None, None)
            && doc.recordingMode.Some?
            && doc.recordingMode.value.recordingFrequency == Lookup(env, FrequencyKey)
  {
  }

  /**
   * The override: exactly one DAILY_OVERRIDE entry at DAILY frequency, holding the
   * daily-override list, when that list is non-empty; none otherwise.
   */
  lemma DailyOverrideShape(env: map<string, string>, account: string, region: string, event: string,
                           recorders: seq<string>)
    requires event != DeleteEvent
    requires Document(env, account, region, event, recorders).Success?
    ensures var e := EffectiveExclusion(env, account);
            var d := DailyOverrideList(ParseResourceList(env[DailyKey]), ParseResourceList(env[GlobalKey]),
                                       e, IsHomeRegion(env, region));
            var overrides := Document(env, account, region, event, recorders).value.recordingMode.value.recordingModeOverrides;
            d.Success?
            && (d.value == [] ==> overrides == [])
            && (d.value != [] ==> overrides == [RecordingModeOverride(OverrideDescription, d.value, DailyFrequency)])
  {
  }

  /**
   * Outside the home region no type in the daily override is one the exclusion
   * excludes.
   */
  lemma DailyOverridesAvoidExclusions(env: map<string, string>, account: string, region: string, event: string,
                                      recorders: seq<string>, t: string)
    requires event != DeleteEvent && !IsHomeRegion(env, region)
    requires Document(env, account, region, event, recorders).Success?
    requires var overrides := Document(env, account, region, event, recorders).value.recordingMode.value.recordingModeOverrides;
             overrides != [] && t in overrides[0].resourceTypes
    ensures !Excludes(EffectiveExclusion(env, account), t)
  {
    var e := EffectiveExclusion(env, account);
    var daily := ParseResourceList(env[DailyKey]);
    var d := DailyOverrideList(daily, ParseResourceList(env[GlobalKey]), e, false);
    DailyOverrideListSpec(daily, ParseResourceList(env[GlobalKey]), e, false);
    assert d.value[..|d.value| - 0] == d.value;
    assert t in multiset(d.value);
  }

  /**
   * In the home region the global daily list is appended after filtering and is not
   * itself filtered: it is always the tail of the override list, excluded or not.
   */
  lemma HomeRegionGlobalsUnfiltered(env: map<string, string>, account: string, region: string, event: string,
                                    recorders: seq<string>)
    requires event != DeleteEvent && IsHomeRegion(env, region)
    requires Document(env, account, region, event, recorders).Success?
    requires env[GlobalKey] != ""
    ensures var global := ParseResourceList(env[GlobalKey]);
            var overrides := Document(env, account, region, event, recorders).value.recordingMode.value.recordingModeOverrides;
            |overrides| == 1
            && |global| <= |overrides[0].resourceTypes|
            && overrides[0].resourceTypes[|overrides[0].resourceTypes| - |global|..] == global
  {
    DailyOverrideListSpec(ParseResourceList(env[DailyKey]), ParseResourceList(env[GlobalKey]),
                          EffectiveExclusion(env, account), true);
  }

  /**
   * Against a raw special value the exclusion test is a substring test: a type is
   * excluded when its name is part of another listed name.
   */
  lemma RawExclusionIsSubstringTest()
    ensures Excludes(Raw("AWS::EC2::InstanceProfile"), "AWS::EC2::Instance")
    ensures !Excludes(Listed(["AWS::EC2::InstanceProfile"]), "AWS::EC2::Instance")
  {
    assert "AWS::EC2::InstanceProfile" == "AWS::EC2::Instance" + "Profile";
  }

  /** A raw exclusion excludes exactly the types that occur in its text. */
  lemma RawExcludesIff(text: string, t: string)
    ensures Excludes(Raw(text), t) <==> exists i :: OccursAt(text, t, i)
  {
    ContainsIff(text, t);
  }

  /** Special accounts replace the exclusion list by the raw special value; others keep the split list. */
  lemma SpecialAccountOverride(env: map<string, string>, account: string)
    ensures var specials := ParseSpecialAccounts(if SpecialAccountsKey in env then env[SpecialAccountsKey] else "");
            (account in specials && SpecialListKey in env ==> EffectiveExclusion(env, account) == Raw(env[SpecialListKey]))
            && (account in specials && SpecialListKey !in env ==> EffectiveExclusion(env, account) == Missing)
            && (account !in specials ==> EffectiveExclusion(env, account) == Listed(ParseExclusionList(Lookup(env, ExcludedKey))))
  {
  }
}
