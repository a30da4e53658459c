# Config recorder override for AWS Control Tower, modelled in Dafny

Two Lambda functions narrow what AWS Config records in the accounts Control Tower
manages.

- The **producer** is triggered by Control Tower lifecycle events or by a
  CloudFormation custom resource. It lists the stack instances of the baseline Config
  stack set `AWSControlTowerBP-BASELINE-CONFIG`, page by page. For every
  `(Account, Region)` pair that the account-selection rule lets through, it queues one
  JSON work item `{"Account": …, "Region": …, "Event": …}`.
  - On a stack update it also queues `Delete` work for the excluded accounts.
  - It acknowledges CloudFormation requests with `SUCCESS`.
- The **consumer** takes one work item and assumes `AWSControlTowerExecution` in the
  target account. From its environment it computes the configuration-recorder
  document it writes. There are three shapes:
  - the record-everything baseline for `Delete`;
  - an exclusion-by-resource-type recorder with a `DAILY` override list;
  - that recorder collapsed back to "record everything" when the exclusion list is
    empty.

The project has six modules:

- `Wrappers`: `Option` and `Result`.
- `Seqs`: filter, map and subsequence over `seq`.
- `PyStrings`: the Python `str` operations the code relies on. These are `split` on
  one character, `strip()` over Python's whitespace set, and `in` as a substring test.
- `WorkItems`: the queue message format and a decoder for exactly that format.
- `Producer`: selection rule, paginated fan-out, cleanup, trigger routing, handler.
- `Consumer`: environment parsing, effective exclusion list, daily-override list,
  recorder document, `assume_role` request, handler.

How the AWS services appear in the model:

- **Producer.** The queue and the CloudFormation acknowledgement are a state-changing
  `Outbox` object with an effect log. The queue's answer to the k-th send attempt is an
  oracle fixed at construction. The stack-instance paginator is a function from the
  request to a sequence of pages, where a `PageFailure` element is an exception raised
  while iterating.
- **Consumer.** STS, `describe_configuration_recorders` and
  `put_configuration_recorder` become inputs, and the method returns the document it
  puts.
- **Both.** Environment variables are a `map<string, string>`; an absent key is an
  unset variable.

Loops and in-place updates are methods. Each method is proved equal to a declarative
definition, and the properties are lemmas about those definitions:

- `OverrideConfigRecorder`, `SendPage` and `UpdateExcludedAccounts` are `while` loops
  over pages, summaries and excluded accounts.
- `ReadSettings` and `BuildRecorder` reassign and extend the consumer's daily list and
  exclusion list. They build the recorder and then drop its filter keys.

The model follows the code. Where the code departs from how the project describes
itself, the model keeps the code's behaviour:

- The consumer only implements the exclusion recording strategy. No inclusion
  strategy is read or written.
- For a special account, the exclusion list is replaced by the raw, unsplit
  environment string (`ct_configrecorder_override_consumer.py:113`). Filtering the
  daily list is then a substring test, and the document's exclusion filter carries
  that string. The model's `ExclusionList` is therefore `Listed | Raw | Missing`.
  - `Missing` is an unset special variable.
  - With `Missing`, filtering a non-empty daily list raises `TypeError`.
- The cleanup's docstring speaks of accounts "previously excluded but removed"
  (`ct_configrecorder_override_producer.py:226-229`). The code iterates the *current*
  exclusion list, and so does the model.
- The cleanup runs only when the mode is exactly `EXCLUSION`. The selection rule
  itself treats every mode other than `INCLUSION` as exclusion.
- The consumer's crash paths are modelled as failures rather than excluded by
  preconditions: an unset daily or global list (`.split` on `None`), an unset special
  value, and the caller's own account (`assume_role` returns `None`).

## Model

| member | source | states |
|---|---|---|
| Producer.InclusionSelectsListed | ct_configrecorder_override_producer.py:45-52 | in INCLUSION mode an account is processed iff it is in the inclusion list |
| Producer.NonInclusionSelectsUnlisted | ct_configrecorder_override_producer.py:53-60 | in any other mode an account is processed iff it is not in the exclusion list |
| Producer.SelectionEmptyLists | ct_configrecorder_override_producer.py:45-60 | an empty inclusion list selects nothing; an empty exclusion list selects every account |
| Producer.FanOutStopsAtFailure | ct_configrecorder_override_producer.py:189-204 | a failing page hides every later page; the summaries of the pages before it still count |
| Producer.SendsSingle | ct_configrecorder_override_producer.py:206-216 | one summary yields exactly its body `{"Account": …, "Region": …, "Event": …}` when its account passes the rule, nothing otherwise |
| Producer.SentIffSelected | ct_configrecorder_override_producer.py:210-215 | a listed pair's message is among those sent iff the selection rule holds for its account |
| Producer.SendsOnlySelected | ct_configrecorder_override_producer.py:189-216 | every message sent is the body of a listed pair that passes the rule; one message per passing pair; the messages are a subsequence of the bodies of all listed pairs, so they come in listing order |
| Producer.EmptyInclusionSendsNothing | ct_configrecorder_override_producer.py:45-52 | INCLUSION mode with an empty list sends no message for any listing |
| Producer.EmptyExclusionSendsAll | ct_configrecorder_override_producer.py:53-60 | exclusion with an empty list sends one message per listed pair, in order |
| Producer.Outbox.Send | ct_configrecorder_override_producer.py:213-222 | a send attempt is logged as delivered or failed by the queue's answer; the attempt list grows by exactly that body; acknowledgements are unchanged |
| Producer.Outbox.Acknowledge | ct_configrecorder_override_producer.py:128 | appends exactly one `SUCCESS` acknowledgement with physical id `CustomResourcePhysicalID`; no send attempt |
| Producer.SendMessageToSqs | ct_configrecorder_override_producer.py:206-222 | one send attempt of the pair's body when the account passes, none otherwise; a failed send does not stop the caller |
| Producer.SendPage | ct_configrecorder_override_producer.py:192-199 | the attempts grow by the bodies of the page's passing summaries, in page order |
| Producer.OverrideConfigRecorder | ct_configrecorder_override_producer.py:175-204 | the attempts grow by exactly the bodies of the passing pairs of the pages before the first failure, in page and summary order; no acknowledgement |
| Producer.UpdateExcludedAccounts | ct_configrecorder_override_producer.py:241-267 | the attempts grow by exactly the Delete fan-out of every currently excluded account other than the caller, in list order, under exclusion of the caller; nothing when the mode is not EXCLUSION or STS fails |
| Producer.CleanupOnlyInExclusionMode | ct_configrecorder_override_producer.py:250-262 | any mode other than exactly EXCLUSION sends no cleanup message |
| Producer.CleanupReachesEveryPair | ct_configrecorder_override_producer.py:253-258 | for an excluded account other than the caller, listed on its own, every listed pair gets a Delete message |
| Producer.CleanupSkipsCaller | ct_configrecorder_override_producer.py:253-258 | no cleanup message is addressed to the caller's own account |
| Producer.CleanupQueriesAccount | ct_configrecorder_override_producer.py:181-184 | the cleanup for a non-empty excluded account other than the caller lists the baseline stack set scoped to that account |
| Producer.EmptyExcludedAccountCleansAll | ct_configrecorder_override_producer.py:181-184 | an empty string in the exclusion list unscopes the listing, so the cleanup reaches every pair outside the caller's account |
| Producer.ControlTowerRouting | ct_configrecorder_override_producer.py:110-120 | managed-account events fan out for their one account, Landing Zone updates for all accounts, all with event `controltower` and without acknowledgement |
| Producer.CloudFormationRouting | ct_configrecorder_override_producer.py:121-148 | Create, Update and Delete requests fan out for all accounts with the request type as the event and are acknowledged; only Update adds the cleanup; other types do nothing |
| Producer.AcknowledgedOnlyForCloudFormation | ct_configrecorder_override_producer.py:110-148 | an acknowledged dispatch is a CloudFormation request for all accounts, whose event is its request type |
| Producer.EmptyManagedAccountMeansAll | ct_configrecorder_override_producer.py:110-113 | a managed-account event with an empty account id fans out over the unscoped listing |
| Producer.RoutedListingScope | ct_configrecorder_override_producer.py:110-120 | a managed-account event for a non-empty account sends exactly the fan-out over the baseline stack set scoped to that account; a Landing Zone update sends the fan-out over the unscoped listing |
| Producer.ConfigurationDefaults | ct_configrecorder_override_producer.py:73-92 | unset variables give EXCLUSION mode and two empty account lists |
| Producer.UnparsableListIsEmpty | ct_configrecorder_override_producer.py:82-92 | an account list that fails to parse is empty |
| Producer.LambdaHandler | ct_configrecorder_override_producer.py:99-155 | the attempts grow by the routed fan-out, followed by the cleanup for Update; exactly one SUCCESS acknowledgement is added iff the request is acknowledged, and it is the last effect; the handler completes iff no key lookup failed |
| WorkItems.ParseMessageBody | ct_configrecorder_override_producer.py:212 | decoding a body the producer built gives back its account, region and event |
| WorkItems.ParseMessageSound | ct_configrecorder_override_consumer.py:36-39 | the decoder accepts only bodies of the producer's format, and the body is rebuilt from the decoded fields |
| WorkItems.MessageBodyInjective | ct_configrecorder_override_producer.py:212 | different plain (account, region, event) triples never share a body |
| PyStrings.JoinSplit | ct_configrecorder_override_consumer.py:96-97 | `split(',')` loses nothing: joining the pieces gives the string back |
| PyStrings.SplitJoin | ct_configrecorder_override_consumer.py:96-97 | splitting the join of separator-free pieces gives the pieces back |
| PyStrings.StripSpec | ct_configrecorder_override_consumer.py:108 | `strip()` keeps one contiguous slice, removes only whitespace, and leaves no whitespace at either end |
| PyStrings.StripIdempotent | ct_configrecorder_override_consumer.py:108 | stripping twice is stripping once |
| PyStrings.ContainsIff | ct_configrecorder_override_consumer.py:118 | `x in text` on strings holds iff `x` occurs in `text` at some offset |
| Consumer.DocumentIdentity | ct_configrecorder_override_consumer.py:86-93 | every document written, whatever its shape, names the first existing recorder (or `aws-controltower-BaselineConfigRecorder` when none exists) and the role `arn:aws:iam::<account>:role/aws-service-role/config.amazonaws.com/AWSServiceRoleForConfig` |
| Consumer.ServiceRoleArnInjective | ct_configrecorder_override_consumer.py:93 | the service-role ARN determines the account it was built for |
| Consumer.ParseResourceList | ct_configrecorder_override_consumer.py:95-101 | empty iff the variable is exactly ''; otherwise comma-free pieces that join back to the value |
| Consumer.ParseExclusionList | ct_configrecorder_override_consumer.py:104-105 | empty iff the variable is unset or ''; otherwise comma-free pieces that join back to the value |
| Consumer.SpecialAccountsClean | ct_configrecorder_override_consumer.py:107-108 | every special account is non-empty, already stripped and comma-free |
| Consumer.SpecialAccountsMembership | ct_configrecorder_override_consumer.py:107-108 | an account is special iff it is non-empty and some ','-piece of the variable strips to it |
| Consumer.SpecialAccountOverride | ct_configrecorder_override_consumer.py:110-113 | for a special account the exclusion becomes the raw special value (or None when unset); for any other account it stays the split list |
| Consumer.ReadExclusion | ct_configrecorder_override_consumer.py:104-113 | the statements compute exactly the effective exclusion |
| Consumer.DailyOverrideListSpec | ct_configrecorder_override_consumer.py:117-124 | fails iff a non-empty daily list meets an unset special value; otherwise the daily list minus the excluded types, in order and with multiplicity, followed in the home region by the unfiltered globals |
| Consumer.ReadSettings | ct_configrecorder_override_consumer.py:95-124 | the in-place filtering and appending compute exactly the daily-override list, effective exclusion, home-region flag and frequency, failing first on an unset daily list, then an unset global list |
| Consumer.BuildRecorder | ct_configrecorder_override_consumer.py:126-168 | building the dict and then popping its keys yields exactly the document for the event |
| Consumer.CompileRecorder | ct_configrecorder_override_consumer.py:86-168 | the handler's statements compute exactly the declarative document, or the failure that stops them |
| Consumer.DeleteRestoresBaseline | ct_configrecorder_override_consumer.py:126-135 | Delete writes all-supported recording, global types only in the home region, no filter and no recording mode |
| Consumer.DeleteIgnoresLists | ct_configrecorder_override_consumer.py:126-135 | the Delete document depends on no resource list, only on the home-region test |
| Consumer.ExclusionDocument | ct_configrecorder_override_consumer.py:139-162 | with a non-empty exclusion a non-Delete event writes both flags false, the effective list and `EXCLUSION_BY_RESOURCE_TYPES`, the default frequency and at most one override |
| Consumer.EmptyExclusionRecordsEverything | ct_configrecorder_override_consumer.py:164-168 | with an empty exclusion the filter and strategy are gone, both flags are true and the recording mode stays |
| Consumer.DailyOverrideShape | ct_configrecorder_override_consumer.py:152-160 | exactly one `DAILY_OVERRIDE` override at `DAILY` with the daily-override list iff that list is non-empty; none otherwise |
| Consumer.DailyOverridesAvoidExclusions | ct_configrecorder_override_consumer.py:117-119 | outside the home region no type in the override is one the effective exclusion excludes |
| Consumer.HomeRegionGlobalsUnfiltered | ct_configrecorder_override_consumer.py:122-124 | in the home region the global list is the unfiltered tail of the override, excluded types included |
| Consumer.RawExclusionIsSubstringTest | ct_configrecorder_override_consumer.py:112-118 | a raw special value excludes `AWS::EC2::Instance` because it is part of `AWS::EC2::InstanceProfile`; the split list does not |
| Consumer.RawExcludesIff | ct_configrecorder_override_consumer.py:118 | a raw exclusion excludes exactly the types occurring in its text |
| Consumer.AssumeRoleSelf | ct_configrecorder_override_consumer.py:58-59 | for the caller's own account no role is assumed and no session is returned |
| Consumer.AssumeRoleInPartition | ct_configrecorder_override_consumer.py:58-64 | for a caller ARN `arn:<partition>:…` the role is `arn:<partition>:iam::<account>:role/<role>` and the session is `<account>-<role>` |
| Consumer.HandleMessage | ct_configrecorder_override_consumer.py:32-190 | ends with no work item, no identity, the caller's own account (no session), a malformed caller ARN or a refused role, in that order; otherwise yields exactly the document for the item |

## Left out

- AWS calls. STS, SQS, the CloudFormation paginator, `cfnresponse.send`, and Config's
  describe and put calls are inputs or sinks. The post-update describe calls of the
  consumer (lines 173-181) are not modelled, since they only feed logging.
- Consumer.HandleMessage: returns the document it would put. A `ClientError` from
  `put_configuration_recorder` is not modelled, since it comes from the service.
- Consumer.HandleMessage: takes the decoded first SQS record as input. `json.loads` is
  an opaque library parser, and `WorkItems.ParseMessage` only decodes the producer's
  own format.
- Consumer.HandleMessage: assumes both `get_caller_identity` calls in `assume_role`
  return the same identity.
- Consumer.RecorderName: takes the names the describe call lists. A describe response
  without the `ConfigurationRecorders` key reads as an empty list.
- Producer.Configuration: `ast.literal_eval` is an opaque parser passed as a function
  that yields a list of account strings or fails. A failure reads as `[]`, which is
  the `ValueError`/`SyntaxError` path of lines 84-92. Other literals are not modelled:
  - An unbracketed number makes the list an `int`. Then `not in` raises `TypeError`
    for every pair, inside the try of `send_message_to_sqs`, so no message is sent.
    The cleanup loop raises as well, and its own `except` ends the cleanup.
  - A quoted string turns `in` into a substring test and makes the cleanup iterate
    over its characters.
  - Input such as `{[]: 1}` raises `TypeError`, which escapes the `except` and ends
    the handler before any effect.
- Producer.UpdateExcludedAccounts: `caller = None` stands for a failing STS call. A
  response without an `Account` key, which would exclude `None`, is not modelled.
- Both handlers: the catch-all `except Exception` is modelled only as "the invocation
  ends". Nothing is retried.
- Logging: not modelled, since it has no effect on the outputs.
- The `LOG_LEVEL` setup: not modelled. Both handlers call `setLevel(LOG_LEVEL)` outside
  their `try` (`ct_configrecorder_override_producer.py:64-65`,
  `ct_configrecorder_override_consumer.py:29-30`). With the variable unset or not a
  level name, that call raises, so the invocation fails before any message,
  acknowledgement or recorder update. The model assumes a valid level.
- `delete.py`: not modelled. It is a one-off manual script with hard-coded account,
  region, event and lists, and top-level AWS calls. It is an older, different variant
  of the consumer's document step:
  - it uses another service role (`aws-controltower-ConfigRecorderRole`);
  - it uses a fixed recorder name;
  - its Delete document sets `includeGlobalResourceTypes` to false;
  - its other document has no recording mode.
- An inclusion recording strategy, per-account overrides, and the difference between
  old and new exclusion lists: the code has none of them.
- Concurrency and SQS at-least-once delivery: outside the code's logic.
