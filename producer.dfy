/**
 * The producer Lambda: on a Control Tower lifecycle event or a CloudFormation
 * custom-resource request it lists the stack instances of the baseline Config stack
 * set, page by page, and queues one work item per (account, region) pair that the
 * account-selection rule lets through; on a stack update it also queues `Delete`
 * work for the excluded accounts, and it acknowledges CloudFormation requests.
 *
 * The AWS services are inputs and sinks: the stack-instance listing is a function from
 * a query to a sequence of pages, the queue and the CloudFormation acknowledgement are
 * an effect log in an `Outbox`, and the queue's answer to each send is an oracle.
 */
module Producer {
  import opened Wrappers
  import opened Seqs
  import opened WorkItems

  const InclusionMode := "INCLUSION"
  const ExclusionMode := "EXCLUSION"
  const BaselineStackSet := "AWSControlTowerBP-BASELINE-CONFIG"
  const ControlTowerSource := "aws.controltower"
  const ControlTowerEvent := "controltower"
  const SuccessStatus := "SUCCESS"
  const PhysicalResourceId := "CustomResourcePhysicalID"

  // ---------------------------------------------------------------------------
  // Account selection

  /**
   * `should_process_account`: in INCLUSION mode only listed accounts are processed;
   * any other mode string means exclusion, where every account not listed is.
   */
  predicate ShouldProcessAccount(account: string, mode: string, excluded: seq<string>, included: seq<string>)
  {
    if mode == InclusionMode then account in included else account !in excluded
  }

  /** The three selection inputs every producer function passes along. */
  datatype Selection = Selection(mode: string, excluded: seq<string>, included: seq<string>)

  lemma InclusionSelectsListed(account: string, excluded: seq<string>, included: seq<string>)
    ensures ShouldProcessAccount(account, InclusionMode, excluded, included) <==> account in included
  {
  }

  lemma NonInclusionSelectsUnlisted(account: string, mode: string, excluded: seq<string>, included: seq<string>)
    requires mode != InclusionMode
    ensures ShouldProcessAccount(account, mode, excluded, included) <==> account !in excluded
  {
  }

  /** The two empty-list extremes: empty inclusion selects nothing, empty exclusion everything. */
  lemma SelectionEmptyLists(account: string, mode: string, other: seq<string>)
    ensures !ShouldProcessAccount(account, InclusionMode, other, [])
    ensures mode != InclusionMode ==> ShouldProcessAccount(account, mode, [], other)
  {
  }

  // ---------------------------------------------------------------------------
  // Stack-instance listing

  /** One stack-instance summary of a listing page. */
  datatype Summary = Summary(account: string, region: string)

  /** A page the paginator returns, or the failure that ends the iteration. */
  datatype PageResult = Page(summaries: seq<Summary>) | PageFailure

  /** The `list_stack_instances` request: the stack set and, optionally, one account. */
  datatype StackInstanceQuery = StackInstanceQuery(stackSetName: string, account: Option<string>)

  /** The paginator's request for `override_config_recorder(…, account, …)`. */
  function ListingQuery(account: string): StackInstanceQuery
  {
    if account == "" then StackInstanceQuery(BaselineStackSet, None)
    else StackInstanceQuery(BaselineStackSet, Some(account))
  }

  /** The summaries the loop visits: those of the pages before the first failing page. */
  function Reachable(listing: seq<PageResult>): seq<Summary>
  {
    if listing == [] then []
    else match listing[0]
      case PageFailure => []
      case Page(s) => s + Reachable(listing[1..])
  }

  predicate AllPages(listing: seq<PageResult>)
  {
    forall k :: 0 <= k < |listing| ==> listing[k].Page?
  }

  lemma {:induction false} ReachableConcat(a: seq<PageResult>, b: seq<PageResult>)
    requires AllPages(a)
    ensures Reachable(a + b) == Reachable(a) + Reachable(b)
  {
    if a == [] {
      assert a + b == b;
    } else {
      assert (a + b)[0] == a[0];
      assert (a + b)[1..] == a[1..] + b;
      ReachableConcat(a[1..], b);
    }
  }

  lemma ReachableStep(listing: seq<PageResult>, i: nat)
    requires i < |listing| && AllPages(listing[..i]) && listing[i].Page?
    ensures AllPages(listing[..i + 1])
    ensures Reachable(listing[..i + 1]) == Reachable(listing[..i]) + listing[i].summaries
  {
    assert listing[..i + 1] == listing[..i] + [listing[i]];
    ReachableConcat(listing[..i], [listing[i]]);
    assert [listing[i]][1..] == [];
  }

  lemma ReachableEnd(listing: seq<PageResult>, i: nat)
    requires i <= |listing| && AllPages(listing[..i])
    requires i == |listing| || listing[i].PageFailure?
    ensures Reachable(listing) == Reachable(listing[..i])
  {
    assert listing == listing[..i] + listing[i..];
    ReachableConcat(listing[..i], listing[i..]);
    assert Reachable(listing[i..]) == [];
  }

  /** A failing page hides every page after it; the pages before it still count. */
  lemma FanOutStopsAtFailure(before: seq<PageResult>, after: seq<PageResult>)
    requires AllPages(before)
    ensures Reachable(before + [PageFailure] + after) == Reachable(before)
  {
    ReachableConcat(before, [PageFailure] + after);
    assert before + [PageFailure] + after == before + ([PageFailure] + after);
  }

  // ---------------------------------------------------------------------------
  // Messages

  function Passes(sel: Selection): Summary -> bool
  {
    (s: Summary) => ShouldProcessAccount(s.account, sel.mode, sel.excluded, sel.included)
  }

  function BodyFor(event: string): Summary -> string
  {
    (s: Summary) => MessageBody(s.account, s.region, event)
  }

  /** The bodies sent for a sequence of summaries: one per summary that passes, in order. */
  function Sends(pairs: seq<Summary>, sel: Selection, event: string): seq<string>
  {
    Map(BodyFor(event), Filter(Passes(sel), pairs))
  }

  /** The bodies `override_config_recorder` tries to send for one listing. */
  function FanOutMessages(listing: seq<PageResult>, sel: Selection, event: string): seq<string>
  {
    Sends(Reachable(listing), sel, event)
  }

  lemma SendsAppend(a: seq<Summary>, b: seq<Summary>, sel: Selection, event: string)
    ensures Sends(a + b, sel, event) == Sends(a, sel, event) + Sends(b, sel, event)
  {
    FilterAppend(Passes(sel), a, b);
    MapAppend(BodyFor(event), Filter(Passes(sel), a), Filter(Passes(sel), b));
  }

  lemma SendsSingle(s: Summary, sel: Selection, event: string)
    ensures Sends([s], sel, event)
         == if ShouldProcessAccount(s.account, sel.mode, sel.excluded, sel.included)
            then [MessageBody(s.account, s.region, event)] else []
  {
    assert [s][1..] == [];
    var kept := Filter(Passes(sel), [s]);
    assert kept == (if Passes(sel)(s) then [s] else []) + Filter(Passes(sel), []);
    assert Map(BodyFor(event), kept) == if Passes(sel)(s) then [BodyFor(event)(s)] else [];
  }

  predicate PlainSummaries(pairs: seq<Summary>)
  {
    forall i :: 0 <= i < |pairs| ==> IsPlainJsonText(pairs[i].account) && IsPlainJsonText(pairs[i].region)
  }

  /**
   * For a listed pair, its message is among those sent exactly when the selection
   * rule lets its account through (values are plain JSON text, so bodies of different
   * pairs differ).
   */
  lemma SentIffSelected(pairs: seq<Summary>, sel: Selection, event: string, s: Summary)
    requires s in pairs && PlainSummaries(pairs) && IsPlainJsonText(event)
    ensures MessageBody(s.account, s.region, event) in Sends(pairs, sel, event)
       <==> ShouldProcessAccount(s.account, sel.mode, sel.excluded, sel.included)
  {
    var kept := Filter(Passes(sel), pairs);
    FilterMembership(Passes(sel), pairs);
    MapSpec(BodyFor(event), kept);
    var body := MessageBody(s.account, s.region, event);
    if body in Sends(pairs, sel, event) {
      var i :| 0 <= i < |kept| && Sends(pairs, sel, event)[i] == body;
      var t := kept[i];
      assert t in pairs;
      var j :| 0 <= j < |pairs| && pairs[j] == t;
      var k :| 0 <= k < |pairs| && pairs[k] == s;
      MessageBodyInjective(t.account, t.region, event, s.account, s.region, event);
      assert t == s;
    }
  }

  /**
   * Every message sent is the body of a listed pair whose account passes the rule,
   * the number sent equals the number of listed pairs that pass, and the messages
   * come in listing order: they are a subsequence of the bodies of all listed pairs.
   */
  lemma SendsOnlySelected(pairs: seq<Summary>, sel: Selection, event: string)
    ensures forall m :: m in Sends(pairs, sel, event) ==>
              exists s :: s in pairs && Passes(sel)(s) && m == MessageBody(s.account, s.region, event)
    ensures |Sends(pairs, sel, event)| == |Filter(Passes(sel), pairs)|
    ensures IsSubsequence(Sends(pairs, sel, event), Map(BodyFor(event), pairs))
  {
    var kept := Filter(Passes(sel), pairs);
    FilterMembership(Passes(sel), pairs);
    FilterSpec(Passes(sel), pairs);
    MapSpec(BodyFor(event), kept);
    MapSubsequence(BodyFor(event), kept, pairs);
    forall m | m in Sends(pairs, sel, event)
      ensures exists s :: s in pairs && Passes(sel)(s) && m == MessageBody(s.account, s.region, event)
    {
      var i :| 0 <= i < |kept| && Sends(pairs, sel, event)[i] == m;
      assert kept[i] in kept;
    }
  }

  /** INCLUSION mode with an empty list sends nothing. */
  lemma EmptyInclusionSendsNothing(pairs: seq<Summary>, excluded: seq<string>, event: string)
    ensures Sends(pairs, Selection(InclusionMode, excluded, []), event) == []
  {
    FilterNone(Passes(Selection(InclusionMode, excluded, [])), pairs);
  }

  /** Any mode other than INCLUSION with an empty exclusion list sends one message per pair. */
  lemma EmptyExclusionSendsAll(pairs: seq<Summary>, mode: string, included: seq<string>, event: string)
    requires mode != InclusionMode
    ensures Sends(pairs, Selection(mode, [], included), event) == Map(BodyFor(event), pairs)
  {
    FilterAll(Passes(Selection(mode, [], included)), pairs);
  }

  // ---------------------------------------------------------------------------
  // Queue and acknowledgement sink

  datatype Effect =
    | Delivered(body: string)
    | SendFailed(body: string)
    | Acknowledged(status: string, physicalId: string)

  /** The bodies of all send attempts in a log, delivered or not, in order. */
  function AttemptsOf(log: seq<Effect>): seq<string>
  {
    if log == [] then []
    else AttemptsOf(log[..|log| - 1]) + match log[|log| - 1]
      case Delivered(b) => [b]
      case SendFailed(b) => [b]
      case Acknowledged(_, _) => []
  }

  /** Whether each send attempt in a log was accepted by the queue. */
  function OutcomesOf(log: seq<Effect>): (r: seq<bool>)
    ensures |r| == |AttemptsOf(log)|
  {
    if log == [] then []
    else OutcomesOf(log[..|log| - 1]) + match log[|log| - 1]
      case Delivered(_) => [true]
      case SendFailed(_) => [false]
      case Acknowledged(_, _) => []
  }

  /** The acknowledgements in a log, in order. */
  function AcksOf(log: seq<Effect>): seq<Effect>
  {
    if log == [] then []
    else AcksOf(log[..|log| - 1]) + if log[|log| - 1].Acknowledged? then [log[|log| - 1]] else []
  }

  /**
   * What the producer has done to the outside world: the SQS sends it attempted and
   * their outcomes, and the CloudFormation acknowledgements it sent. The queue's
   * answer to the k-th send attempt is `transport(k)`.
   */
  class Outbox {
    var log: seq<Effect>
    const transport: nat -> bool

    ghost predicate Valid()
      reads this
    {
      forall k :: 0 <= k < |OutcomesOf(log)| ==> OutcomesOf(log)[k] == transport(k)
    }

    function Attempts(): seq<string>
      reads this
    {
      AttemptsOf(log)
    }

    constructor (transport: nat -> bool)
      ensures Valid() && log == [] && this.transport == transport
    {
      this.log := [];
      this.transport := transport;
    }

    /** `sqs_client.send_message`; a rejected send is recorded and returns false. */
    method Send(body: string) returns (ok: bool)
      requires Valid()
      modifies this
      ensures Valid()
      ensures ok == transport(|old(Attempts())|)
      ensures log == old(log) + [if ok then Delivered(body) else SendFailed(body)]
      ensures Attempts() == old(Attempts()) + [body]
      ensures AcksOf(log) == AcksOf(old(log))
    {
      ok := transport(|OutcomesOf(log)|);
      var e := if ok then Delivered(body) else SendFailed(body);
      log := log + [e];
      assert log[..|log| - 1] == old(log);
    }

    /** `cfnresponse.send(event, context, SUCCESS, {}, "CustomResourcePhysicalID")` */
    method Acknowledge()
      requires Valid()
      modifies this
      ensures Valid()
      ensures log == old(log) + [Acknowledged(SuccessStatus, PhysicalResourceId)]
      ensures Attempts() == old(Attempts())
      ensures AcksOf(log) == AcksOf(old(log)) + [Acknowledged(SuccessStatus, PhysicalResourceId)]
    {
      log := log + [Acknowledged(SuccessStatus, PhysicalResourceId)];
      assert log[..|log| - 1] == old(log);
    }
  }

  // ---------------------------------------------------------------------------
  // Fan-out

  /**
   * `send_message_to_sqs`: one send attempt when the account passes the selection
   * rule, none otherwise; a failed send is swallowed.
   */
  method SendMessageToSqs(out: Outbox, event: string, s: Summary, sel: Selection)
    requires out.Valid()
    modifies out
    ensures out.Valid()
    ensures out.Attempts() == old(out.Attempts()) + Sends([s], sel, event)
    ensures AcksOf(out.log) == AcksOf(old(out.log))
  {
    SendsSingle(s, sel, event);
    if ShouldProcessAccount(s.account, sel.mode, sel.excluded, sel.included) {
      var _ := out.Send(MessageBody(s.account, s.region, event));
    }
  }

  /** The inner loop of `override_config_recorder`: the summaries of one page, in order. */
  method SendPage(out: Outbox, summaries: seq<Summary>, sel: Selection, event: string)
    requires out.Valid()
    modifies out
    ensures out.Valid()
    ensures out.Attempts() == old(out.Attempts()) + Sends(summaries, sel, event)
    ensures AcksOf(out.log) == AcksOf(old(out.log))
  {
    var j := 0;
    while j < |summaries|
      invariant 0 <= j <= |summaries|
      invariant out.Valid()
      invariant out.Attempts() == old(out.Attempts()) + Sends(summaries[..j], sel, event)
      invariant AcksOf(out.log) == AcksOf(old(out.log))
    {
      SendMessageToSqs(out, event, summaries[j], sel);
      assert summaries[..j + 1] == summaries[..j] + [summaries[j]];
      SendsAppend(summaries[..j], [summaries[j]], sel, event);
      j := j + 1;
    }
    assert summaries[..j] == summaries;
  }

  /**
   * `override_config_recorder`: walks the pages of the listing for `account` ("" for
   * all accounts) in order and the summaries of each page in order, making one send
   * attempt per summary that passes; a failing page ends the walk, keeping what was
   * already sent.
   */
  method OverrideConfigRecorder(out: Outbox, fleet: StackInstanceQuery -> seq<PageResult>,
                                sel: Selection, account: string, event: string)
    requires out.Valid()
    modifies out
    ensures out.Valid()
    ensures out.Attempts() == old(out.Attempts()) + FanOutMessages(fleet(ListingQuery(account)), sel, event)
    ensures AcksOf(out.log) == AcksOf(old(out.log))
  {
    var listing := fleet(ListingQuery(account));
    var i := 0;
    while i < |listing| && listing[i].Page?
      invariant 0 <= i <= |listing|
      invariant AllPages(listing[..i])
      invariant out.Valid()
      invariant out.Attempts() == old(out.Attempts()) + Sends(Reachable(listing[..i]), sel, event)
      invariant AcksOf(out.log) == AcksOf(old(out.log))
    {
      var summaries := listing[i].summaries;
      ghost var done := Reachable(listing[..i]);
      SendPage(out, summaries, sel, event);
      SendsAppend(done, summaries, sel, event);
      ReachableStep(listing, i);
      i := i + 1;
    }
    ReachableEnd(listing, i);
  }

  // ---------------------------------------------------------------------------
  // Cleanup for excluded accounts

  /** The selection the cleanup uses: exclusion of the account the function runs in. */
  function CleanupSelection(caller: string): Selection
  {
    Selection(ExclusionMode, [caller], [])
  }

  /** The Delete messages the cleanup sends for one excluded account. */
  function AccountCleanup(fleet: StackInstanceQuery -> seq<PageResult>, account: string, caller: string): seq<string>
  {
    if account != caller
    then FanOutMessages(fleet(ListingQuery(account)), CleanupSelection(caller), DeleteEvent)
    else []
  }

  function CleanupFor(fleet: StackInstanceQuery -> seq<PageResult>, accounts: seq<string>, caller: string): seq<string>
  {
    if accounts == [] then []
    else CleanupFor(fleet, accounts[..|accounts| - 1], caller) + AccountCleanup(fleet, accounts[|accounts| - 1], caller)
  }

  /**
   * The messages `update_excluded_accounts` sends: nothing when the caller's identity
   * could not be read or the mode is not exactly EXCLUSION; otherwise the Delete
   * fan-out of every currently excluded account other than the caller, in list order.
   */
  function CleanupMessages(fleet: StackInstanceQuery -> seq<PageResult>, mode: string,
                           excluded: seq<string>, caller: Option<string>): seq<string>
  {
    if caller.None? || mode != ExclusionMode then [] else CleanupFor(fleet, excluded, caller.value)
  }

  /** `update_excluded_accounts(mode, excluded, included, url)`; `caller` is the STS answer. */
  method UpdateExcludedAccounts(out: Outbox, fleet: StackInstanceQuery -> seq<PageResult>,
                                mode: string, excluded: seq<string>, caller: Option<string>)
    requires out.Valid()
    modifies out
    ensures out.Valid()
    ensures out.Attempts() == old(out.Attempts()) + CleanupMessages(fleet, mode, excluded, caller)
    ensures AcksOf(out.log) == AcksOf(old(out.log))
  {
    if caller.None? {
      return;
    }
    var current := caller.value;
    if mode == ExclusionMode {
      var i := 0;
      while i < |excluded|
        invariant 0 <= i <= |excluded|
        invariant out.Valid()
        invariant out.Attempts() == old(out.Attempts()) + CleanupFor(fleet, excluded[..i], current)
        invariant AcksOf(out.log) == AcksOf(old(out.log))
      {
        var acct := excluded[i];
        ghost var before := out.Attempts();
        if acct != current {
          OverrideConfigRecorder(out, fleet, CleanupSelection(current), acct, DeleteEvent);
        }
        assert out.Attempts() == before + AccountCleanup(fleet, acct, current);
        CleanupForStep(fleet, excluded, i, current);
        AppendAssoc(old(out.Attempts()), CleanupFor(fleet, excluded[..i], current), AccountCleanup(fleet, acct, current));
        i := i + 1;
      }
      assert excluded[..i] == excluded;
    }
  }

  lemma CleanupForStep(fleet: StackInstanceQuery -> seq<PageResult>, accounts: seq<string>, i: nat, caller: string)
    requires i < |accounts|
    ensures CleanupFor(fleet, accounts[..i + 1], caller)
         == CleanupFor(fleet, accounts[..i], caller) + AccountCleanup(fleet, accounts[i], caller)
  {
    assert accounts[..i + 1][..i] == accounts[..i];
  }

  /** INCLUSION (or any mode other than EXCLUSION) never triggers cleanup. */
  lemma CleanupOnlyInExclusionMode(fleet: StackInstanceQuery -> seq<PageResult>, mode: string,
                                   excluded: seq<string>, caller: Option<string>)
    requires mode != ExclusionMode
    ensures CleanupMessages(fleet, mode, excluded, caller) == []
  {
  }

  /** The service honours the account scope: a scoped listing lists only that account. */
  predicate ScopedListing(fleet: StackInstanceQuery -> seq<PageResult>, account: string)
  {
    var pairs := Reachable(fleet(ListingQuery(account)));
    forall i :: 0 <= i < |pairs| ==> pairs[i].account == account
  }

  /**
   * For an excluded account other than the caller, against a listing scoped to it,
   * no pair is filtered out: every listed (account, region) gets a Delete message.
   */
  lemma CleanupReachesEveryPair(fleet: StackInstanceQuery -> seq<PageResult>, account: string, caller: string)
    requires account != caller && account != ""
    requires ScopedListing(fleet, account)
    ensures AccountCleanup(fleet, account, caller)
         == Map(BodyFor(DeleteEvent), Reachable(fleet(ListingQuery(account))))
  {
    FilterAll(Passes(CleanupSelection(caller)), Reachable(fleet(ListingQuery(account))));
  }

  /** The caller's own account never receives a cleanup Delete message. */
  lemma CleanupSkipsCaller(fleet: StackInstanceQuery -> seq<PageResult>, accounts: seq<string>, caller: string)
    ensures forall m :: m in CleanupFor(fleet, accounts, caller) ==>
              exists s: Summary :: s.account != caller && m == MessageBody(s.account, s.region, DeleteEvent)
  {
    if accounts != [] {
      var init := accounts[..|accounts| - 1];
      var last := accounts[|accounts| - 1];
      CleanupSkipsCaller(fleet, init, caller);
      if last != caller {
        var listing := fleet(ListingQuery(last));
        SendsOnlySelected(Reachable(listing), CleanupSelection(caller), DeleteEvent);
      }
    }
  }

  /**
   * An empty string among the excluded accounts is passed on as the account scope,
   * which `override_config_recorder` reads as "all accounts": the cleanup then sends
   * Delete to every listed pair outside the caller's account.
   */
  lemma EmptyExcludedAccountCleansAll(fleet: StackInstanceQuery -> seq<PageResult>, caller: string)
    requires caller != ""
    ensures ListingQuery("").account.None?
    ensures AccountCleanup(fleet, "", caller)
         == FanOutMessages(fleet(StackInstanceQuery(BaselineStackSet, None)), CleanupSelection(caller), DeleteEvent)
  {
  }

  /** The cleanup for an excluded account lists that account's stack instances only. */
  lemma CleanupQueriesAccount(fleet: StackInstanceQuery -> seq<PageResult>, account: string, caller: string)
    requires account != "" && account != caller
    ensures AccountCleanup(fleet, account, caller)
         == FanOutMessages(fleet(StackInstanceQuery(BaselineStackSet, Some(account))), CleanupSelection(caller), DeleteEvent)
  {
  }

  // ---------------------------------------------------------------------------
  // Trigger routing

  /**
   * The parts of the invocation event the handler reads. `None` marks a key that is
   * absent: `eventName` is `detail.eventName`, `updatedAccount` and `createdAccount`
   * are the account ids under `detail.serviceEventDetails`, `requestType` is
   * `RequestType`; `hasLogicalResourceId` says whether `LogicalResourceId` is present.
   */
  datatype TriggerEvent = TriggerEvent(
    source: Option<string>,
    eventName: Option<string>,
    updatedAccount: Option<string>,
    createdAccount: Option<string>,
    hasLogicalResourceId: bool,
    requestType: Option<string>)

  /**
   * What the handler does for an event: one fan-out for an account scope and event
   * string, optionally followed by the cleanup and by the acknowledgement; nothing;
   * or a failed lookup of a missing key, which ends the invocation.
   */
  datatype Dispatch =
    | FanOut(account: string, event: string, cleanup: bool, acknowledge: bool)
    | NoMatch
    | MissingKey

  function Route(e: TriggerEvent): Dispatch
  {
    if e.source.Some? && e.eventName.None? then MissingKey
    else
      var controlTower := e.source == Some(ControlTowerSource);
      if controlTower && e.eventName == Some("UpdateManagedAccount") then
        (if e.updatedAccount.Some? then FanOut(e.updatedAccount.value, ControlTowerEvent, false, false) else MissingKey)
      else if controlTower && e.eventName == Some("CreateManagedAccount") then
        (if e.createdAccount.Some? then FanOut(e.createdAccount.value, ControlTowerEvent, false, false) else MissingKey)
      else if controlTower && e.eventName == Some("UpdateLandingZone") then
        FanOut("", ControlTowerEvent, false, false)
      else if !e.hasLogicalResourceId then NoMatch
      else if e.requestType.None? then MissingKey
      else if e.requestType.value == "Create" then FanOut("", "Create", false, true)
      else if e.requestType.value == "Update" then FanOut("", "Update", true, true)
      else if e.requestType.value == "Delete" then FanOut("", DeleteEvent, false, true)
      else NoMatch
  }

  /** Managed-account events fan out for their one account, Landing Zone updates for all; none is acknowledged. */
  lemma ControlTowerRouting(e: TriggerEvent)
    requires e.source == Some(ControlTowerSource)
    ensures e.eventName == Some("UpdateManagedAccount") && e.updatedAccount.Some? ==>
              Route(e) == FanOut(e.updatedAccount.value, ControlTowerEvent, false, false)
    ensures e.eventName == Some("CreateManagedAccount") && e.createdAccount.Some? ==>
              Route(e) == FanOut(e.createdAccount.value, ControlTowerEvent, false, false)
    ensures e.eventName == Some("UpdateLandingZone") ==> Route(e) == FanOut("", ControlTowerEvent, false, false)
  {
  }

  /**
   * CloudFormation requests of type Create, Update or Delete fan out for all accounts
   * with the request type as event and are acknowledged; only Update adds the cleanup.
   * Any other request type does nothing.
   */
  lemma CloudFormationRouting(e: TriggerEvent, t: string)
    requires e.source.None? && e.hasLogicalResourceId && e.requestType == Some(t)
    ensures t in {"Create", "Update", "Delete"} ==> Route(e) == FanOut("", t, t == "Update", true)
    ensures t !in {"Create", "Update", "Delete"} ==> Route(e) == NoMatch
  {
  }

  /** Only CloudFormation requests are acknowledged, and only they carry their own event string. */
  lemma AcknowledgedOnlyForCloudFormation(e: TriggerEvent)
    requires Route(e).FanOut? && Route(e).acknowledge
    ensures e.hasLogicalResourceId && e.requestType == Some(Route(e).event)
    ensures Route(e).account == ""
  {
  }

  /** A managed-account event whose account id is empty fans out to every account. */
  lemma EmptyManagedAccountMeansAll(e: TriggerEvent)
    requires e.source == Some(ControlTowerSource) && e.eventName == Some("UpdateManagedAccount")
    requires e.updatedAccount == Some("")
    ensures Route(e).FanOut? && ListingQuery(Route(e).account).account.None?
  {
  }

  // ---------------------------------------------------------------------------
  // Handler

  /** `os.getenv(key, default)` */
  function GetEnv(env: map<string, string>, key: string, default: string): string
  {
    if key in env then env[key] else default
  }

  /** An account list read with `ast.literal_eval` (opaque); an unset variable reads as '[]', a failed parse as []. */
  function AccountList(env: map<string, string>, key: string, literalEval: string -> Option<seq<string>>): seq<string>
  {
    match literalEval(GetEnv(env, key, "[]"))
    case Some(accounts) => accounts
    case None => []
  }

  function Configuration(env: map<string, string>, literalEval: string -> Option<seq<string>>): Selection
  {
    Selection(GetEnv(env, "ACCOUNT_SELECTION_MODE", ExclusionMode),
              AccountList(env, "EXCLUDED_ACCOUNTS", literalEval),
              AccountList(env, "INCLUDED_ACCOUNTS", literalEval))
  }

  /** Unset variables give EXCLUSION mode with two empty lists (given that '[]' parses to []). */
  lemma ConfigurationDefaults(env: map<string, string>, literalEval: string -> Option<seq<string>>)
    requires literalEval("[]") == Some([])
    requires "ACCOUNT_SELECTION_MODE" !in env && "EXCLUDED_ACCOUNTS" !in env && "INCLUDED_ACCOUNTS" !in env
    ensures Configuration(env, literalEval) == Selection(ExclusionMode, [], [])
  {
  }

  /** A list that fails to parse is empty. */
  lemma UnparsableListIsEmpty(env: map<string, string>, key: string, literalEval: string -> Option<seq<string>>)
    requires key in env && literalEval(env[key]).None?
    ensures AccountList(env, key, literalEval) == []
  {
  }

  /**
   * A managed-account event for a non-empty account lists that account's stack
   * instances of the baseline stack set; a Landing Zone update lists them all.
   */
  lemma RoutedListingScope(fleet: StackInstanceQuery -> seq<PageResult>, sel: Selection, e: TriggerEvent,
                           caller: Option<string>)
    requires e.source == Some(ControlTowerSource)
    ensures e.eventName == Some("UpdateManagedAccount") && e.updatedAccount.Some? && e.updatedAccount.value != "" ==>
              HandlerMessages(fleet, sel, e, caller)
              == FanOutMessages(fleet(StackInstanceQuery(BaselineStackSet, e.updatedAccount)), sel, ControlTowerEvent)
    ensures e.eventName == Some("CreateManagedAccount") && e.createdAccount.Some? && e.createdAccount.value != "" ==>
              HandlerMessages(fleet, sel, e, caller)
              == FanOutMessages(fleet(StackInstanceQuery(BaselineStackSet, e.createdAccount)), sel, ControlTowerEvent)
    ensures e.eventName == Some("UpdateLandingZone") ==>
              HandlerMessages(fleet, sel, e, caller)
              == FanOutMessages(fleet(StackInstanceQuery(BaselineStackSet, None)), sel, ControlTowerEvent)
  {
  }

  /** All send attempts of one invocation. */
  function HandlerMessages(fleet: StackInstanceQuery -> seq<PageResult>, sel: Selection,
                           e: TriggerEvent, caller: Option<string>): seq<string>
  {
    match Route(e)
    case FanOut(account, event, cleanup, _) =>
      FanOutMessages(fleet(ListingQuery(account)), sel, event)
      + (if cleanup then CleanupMessages(fleet, sel.mode, sel.excluded, caller) else [])
    case _ => []
  }

  /**
   * `lambda_handler`: routes the event, fans out, runs the cleanup for stack updates
   * and then acknowledges CloudFormation requests. Returns whether it reached the
   * `statusCode: 200` return (false when a key lookup failed).
   */
  method LambdaHandler(out: Outbox, fleet: StackInstanceQuery -> seq<PageResult>, env: map<string, string>,
                       literalEval: string -> Option<seq<string>>, e: TriggerEvent, caller: Option<string>)
    returns (completed: bool)
    requires out.Valid()
    modifies out
    ensures out.Valid()
    ensures completed <==> !Route(e).MissingKey?
    ensures out.Attempts() == old(out.Attempts()) + HandlerMessages(fleet, Configuration(env, literalEval), e, caller)
    ensures var acked := Route(e).FanOut? && Route(e).acknowledge;
            AcksOf(out.log) == AcksOf(old(out.log)) + (if acked then [Acknowledged(SuccessStatus, PhysicalResourceId)] else [])
    ensures Route(e).FanOut? && Route(e).acknowledge ==>
              out.log[|out.log| - 1] == Acknowledged(SuccessStatus, PhysicalResourceId)
  {
    var sel := Configuration(env, literalEval);
    var d := Route(e);
    match d {
      case MissingKey =>
        completed := false;
      case NoMatch =>
        completed := true;
      case FanOut(account, event, cleanup, acknowledge) =>
        OverrideConfigRecorder(out, fleet, sel, account, event);
        ghost var fanned := FanOutMessages(fleet(ListingQuery(account)), sel, event);
        if cleanup {
          UpdateExcludedAccounts(out, fleet, sel.mode, sel.excluded, caller);
          AppendAssoc(old(out.Attempts()), fanned, CleanupMessages(fleet, sel.mode, sel.excluded, caller));
        }
        if acknowledge {
          out.Acknowledge();
        }
        completed := true;
    }
  }
}
