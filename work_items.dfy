/**
 * The unit of work the producer puts on the queue and the consumer takes off it:
 * one (account, region, event) triple, carried as a fixed-format JSON text.
 */
module WorkItems {
  import opened Wrappers
  import opened PyStrings

  datatype WorkItem = WorkItem(account: string, region: string, event: string)

  const AccountField := "{\"Account\": \""
  const RegionField := "\", \"Region\": \""
  const EventField := "\", \"Event\": \""
  const Closing := "\"}"

  /** The event a work item carries to have the consumer restore Control Tower's baseline. */
  const DeleteEvent := "Delete"

  /** The longest prefix of `s` that does not contain `c`. */
  function TakeUntil(s: string, c: char): (r: string)
    ensures r <= s && c !in r
    ensures |r| == |s| || s[|r|] == c
  {
    if s == [] || s[0] == c then [] else [s[0]] + TakeUntil(s[1..], c)
  }

  /**
   * The message body the producer sends, with the three values substituted
   * verbatim (no escaping).
   */
  function MessageBody(account: string, region: string, event: string): string
  {
    AccountField + account + RegionField + region + EventField + event + Closing
  }

  /** Text a JSON decoder reads back unchanged inside a string literal. */
  predicate IsPlainJsonText(x: string)
  {
    forall i :: 0 <= i < |x| ==> x[i] != '"' && x[i] != '\\' && x[i] >= ' '
  }

  /**
   * Reads `key` followed by text up to the next double quote: the text and what
   * follows it, or None when `s` does not start with `key`.
   */
  function ReadField(s: string, key: string): Option<(string, string)>
  {
    if key <= s then
      var v := TakeUntil(s[|key|..], '"');
      Some((v, s[|key| + |v|..]))
    else None
  }

  /**
   * Reference decoder for exactly the producer's format: what a JSON decoder yields
   * for the three fields of a body of that shape, or None for anything else.
   */
  function ParseMessage(s: string): Option<WorkItem>
  {
    match ReadField(s, AccountField)
    case None => None
    case Some((a, s1)) =>
      match ReadField(s1, RegionField)
      case None => None
      case Some((r, s2)) =>
        match ReadField(s2, EventField)
        case None => None
        case Some((e, s3)) =>
          if s3 == Closing && IsPlainJsonText(a) && IsPlainJsonText(r) && IsPlainJsonText(e)
          then Some(WorkItem(a, r, e))
          else None
  }

  lemma TakeUntilPrefix(x: string, t: string, c: char)
    requires c !in x
    requires t != [] && t[0] == c
    ensures TakeUntil(x + t, c) == x
  {
    var r := TakeUntil(x + t, c);
    assert |r| == |x|;
    assert r == (x + t)[..|x|];
  }

  lemma ReadFieldOf(key: string, v: string, rest: string)
    requires '"' !in v
    requires rest != [] && rest[0] == '"'
    ensures ReadField(key + v + rest, key) == Some((v, rest))
  {
    var s := key + v + rest;
    assert s[|key|..] == v + rest;
    TakeUntilPrefix(v, rest, '"');
    assert s[|key| + |v|..] == rest;
  }

  lemma ReadFieldSound(s: string, key: string)
    requires ReadField(s, key).Some?
    ensures var (v, rest) := ReadField(s, key).value; s == key + v + rest
  {
    var (v, rest) := ReadField(s, key).value;
    assert s[|key|..] == v + rest;
    assert s == key + s[|key|..];
  }

  lemma PlainHasNoQuote(x: string)
    requires IsPlainJsonText(x)
    ensures '"' !in x
  {
  }

  lemma SeqAssoc7(x1: string, x2: string, x3: string, x4: string, x5: string, x6: string, x7: string)
    ensures x1 + x2 + (x3 + x4 + (x5 + x6 + x7)) == x1 + x2 + x3 + x4 + x5 + x6 + x7
  {
  }

  /** Decoding a body the producer built gives back the values it was built from. */
  lemma ParseMessageBody(account: string, region: string, event: string)
    requires IsPlainJsonText(account) && IsPlainJsonText(region) && IsPlainJsonText(event)
    ensures ParseMessage(MessageBody(account, region, event)) == Some(WorkItem(account, region, event))
  {
    PlainHasNoQuote(account);
    PlainHasNoQuote(region);
    PlainHasNoQuote(event);
    var s2 := EventField + event + Closing;
    var s1 := RegionField + region + s2;
    assert MessageBody(account, region, event) == AccountField + account + s1;
    ReadFieldOf(AccountField, account, s1);
    ReadFieldOf(RegionField, region, s2);
    ReadFieldOf(EventField, event, Closing);
  }

  /** The decoder accepts nothing but bodies of the producer's format. */
  lemma ParseMessageSound(s: string)
    requires ParseMessage(s).Some?
    ensures var w := ParseMessage(s).value; s == MessageBody(w.account, w.region, w.event)
  {
    ReadFieldSound(s, AccountField);
    var (a, s1) := ReadField(s, AccountField).value;
    ReadFieldSound(s1, RegionField);
    var (r, s2) := ReadField(s1, RegionField).value;
    ReadFieldSound(s2, EventField);
    var (e, s3) := ReadField(s2, EventField).value;
    calc {
      s;
      AccountField + a + s1;
      AccountField + a + (RegionField + r + s2);
      AccountField + a + (RegionField + r + (EventField + e + Closing));
      { SeqAssoc7(AccountField, a, RegionField, r, EventField, e, Closing); }
      MessageBody(a, r, e);
    }
  }

  /** Distinct work items with plain field values never share a message body. */
  lemma MessageBodyInjective(a1: string, r1: string, e1: string, a2: string, r2: string, e2: string)
    requires IsPlainJsonText(a1) && IsPlainJsonText(r1) && IsPlainJsonText(e1)
    requires IsPlainJsonText(a2) && IsPlainJsonText(r2) && IsPlainJsonText(e2)
    requires MessageBody(a1, r1, e1) == MessageBody(a2, r2, e2)
    ensures a1 == a2 && r1 == r2 && e1 == e2
  {
    ParseMessageBody(a1, r1, e1);
    ParseMessageBody(a2, r2, e2);
  }
}
