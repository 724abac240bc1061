/** Choice of the Resend account by daily quota, the per-day counters kept in
    Redis, and the two send functions (apps/api/src/lib/email/index.ts).

    Resend itself, Redis and the clock are outside the model: whether each API
    key is configured, the result of each send, the failures of the Redis calls
    and today's date (`YYYY-MM-DD`) are parameters. The counter store is a class
    over the two maps Redis keeps for these keys (value and expiry). */
module Email {
  import opened Wrappers
  import opened Text

  const DailyLimit := 100
  const CounterPrefix := "resend:daily:"
  const ExpirySeconds := 86400
  const NotConfiguredMessage := "Resend email service is not configured"
  const SendFailedMessage := "Unknown error occurred while sending email"

  /** `resend1` (RESEND_API_KEY) and `resend2` (RESEND_API_KEY_2). */
  datatype Client = Primary | Secondary

  /** Which API keys are set, and the two sender addresses
      (RESEND_FROM_EMAIL, RESEND_FROM_EMAIL_2). */
  datatype EmailConfig = EmailConfig(primaryConfigured: bool, secondaryConfigured: bool,
                                     primaryFrom: string, secondaryFrom: string)

  predicate Configured(cfg: EmailConfig, c: Client)
  {
    match c
    case Primary => cfg.primaryConfigured
    case Secondary => cfg.secondaryConfigured
  }

  /** What reading the two counters gave: a Redis failure, or each stored
      count (None when the key is absent). */
  datatype CounterRead = ReadFailed | Counts(first: Option<int>, second: Option<int>)

  /** `countStr ? parseInt(countStr) : 0`: a missing counter counts as 0. */
  function Count(v: Option<int>): (r: int)
    ensures v.None? ==> r == 0
    ensures v.Some? ==> r == v.value
  {
    match v case Some(n) => n case None => 0
  }

  /** The client and sender address `getResendClient` returns. */
  datatype ClientChoice = ClientChoice(client: Option<Client>, from: string)

  /** `getResendClient` (email/index.ts:14-67) once the counters have been
      read (or not: `read` is ignored when no key is configured). */
  function SelectClient(cfg: EmailConfig, read: CounterRead): (r: ClientChoice)
    // Only a configured client is ever returned, and there is one whenever
    // some key is configured and the counters could be read.
    ensures r.client.Some? ==> Configured(cfg, r.client.value)
    ensures r.client.None? <==> !cfg.primaryConfigured && (!cfg.secondaryConfigured || read.ReadFailed?)
    // The secondary account and address are used when the secondary is under
    // its quota and the primary is not usable, and only then does the sender
    // differ from the primary address.
    ensures r.from == cfg.primaryFrom || r.from == cfg.secondaryFrom
    ensures cfg.secondaryConfigured && read.Counts?
            && !(cfg.primaryConfigured && Count(read.first) < DailyLimit)
            && Count(read.second) < DailyLimit
            ==> r == ClientChoice(Some(Secondary), cfg.secondaryFrom)
    ensures r.from != cfg.primaryFrom ==>
              cfg.secondaryConfigured && read.Counts?
              && !(cfg.primaryConfigured && Count(read.first) < DailyLimit)
              && Count(read.second) < DailyLimit
  {
    if !cfg.primaryConfigured && !cfg.secondaryConfigured then
      ClientChoice(None, cfg.primaryFrom)
    else match read
      case ReadFailed =>
        ClientChoice(if cfg.primaryConfigured then Some(Primary) else None, cfg.primaryFrom)
      case Counts(first, second) =>
        if cfg.primaryConfigured && Count(first) < DailyLimit then
          ClientChoice(Some(Primary), cfg.primaryFrom)
        else if cfg.secondaryConfigured && Count(second) < DailyLimit then
          ClientChoice(Some(Secondary), cfg.secondaryFrom)
        else
          ClientChoice(if cfg.primaryConfigured then Some(Primary) else Some(Secondary), cfg.primaryFrom)
  }

  /** With no key configured the counters play no part. */
  lemma NoClientWithoutKeys(cfg: EmailConfig, read: CounterRead)
    requires !cfg.primaryConfigured && !cfg.secondaryConfigured
    ensures SelectClient(cfg, read) == ClientChoice(None, cfg.primaryFrom)
  {
  }

  /** The primary wins whenever it is configured and under the limit. */
  lemma PrimaryFirst(cfg: EmailConfig, first: Option<int>, second: Option<int>)
    requires cfg.primaryConfigured && Count(first) < DailyLimit
    ensures SelectClient(cfg, Counts(first, second)) == ClientChoice(Some(Primary), cfg.primaryFrom)
  {
  }

  /** With both accounts at the limit the primary address is used, through the
      primary client if there is one and otherwise the secondary. */
  lemma BothAtLimit(cfg: EmailConfig, first: Option<int>, second: Option<int>)
    requires cfg.primaryConfigured || cfg.secondaryConfigured
    requires Count(first) >= DailyLimit && Count(second) >= DailyLimit
    ensures SelectClient(cfg, Counts(first, second)).from == cfg.primaryFrom
    ensures SelectClient(cfg, Counts(first, second)).client
         == if cfg.primaryConfigured then Some(Primary) else Some(Secondary)
  {
  }

  /** A Redis failure falls back to the primary client, possibly null, with
      the primary address. */
  lemma ReadFailureUsesPrimary(cfg: EmailConfig)
    ensures SelectClient(cfg, ReadFailed).from == cfg.primaryFrom
    ensures SelectClient(cfg, ReadFailed).client == if cfg.primaryConfigured then Some(Primary) else None
  {
  }

  /** `resend:daily:<index>:<today>` */
  function CounterKey(index: string, today: string): (r: string)
    ensures StartsWith(r, CounterPrefix)
  {
    var r := CounterPrefix + index + ":" + today;
    assert r[..|CounterPrefix|] == CounterPrefix;
    r
  }

  /** The counter a send from `from` is charged to: "1" exactly when `from`
      is the primary address (email/index.ts:71). */
  function CounterIndex(cfg: EmailConfig, from: string): (r: string)
    ensures r in {"1", "2"}
    ensures r == "1" <==> from == cfg.primaryFrom
  {
    if from == cfg.primaryFrom then "1" else "2"
  }

  /** Keys of the two accounts on the same day are different, and a day's
      key names its day. */
  lemma CounterKeysDistinct(today: string, other: string)
    ensures CounterKey("1", today) != CounterKey("2", today)
    ensures CounterKey("1", today) == CounterKey("1", other) ==> today == other
  {
    assert CounterKey("1", today)[|CounterPrefix|] == '1';
    assert CounterKey("2", today)[|CounterPrefix|] == '2';
    if CounterKey("1", today) == CounterKey("1", other) {
      assert today == CounterKey("1", today)[|CounterPrefix| + 2..];
      assert other == CounterKey("1", other)[|CounterPrefix| + 2..];
    }
  }

  /** Where a Redis call of `incrementEmailCount` fails, if anywhere. */
  datatype CounterFailure = NoFailure | IncrFails | ExpireFails

  /** Redis `INCR`: the value goes up by one, a missing key counting as 0. */
  function Incremented(values: map<string, int>, key: string): (r: map<string, int>)
    ensures key in r && r[key] == Count(if key in values then Some(values[key]) else None) + 1
    ensures forall k :: k != key ==> (k in r <==> k in values) && (k in values ==> r[k] == values[k])
  {
    values[key := (if key in values then values[key] else 0) + 1]
  }

  /** The `from` header of a message. */
  function FromHeader(from: string): (r: string)
    ensures StartsWith(r, "TryQuest <") && r[|r| - 1] == '>'
  {
    var r := "TryQuest <" + from + ">";
    assert r[..10] == "TryQuest <";
    r
  }

  /** What a send handed to Resend. */
  datatype Delivery = Delivery(client: Client, fromHeader: string)

  /** The Redis keys used by the email counters: each key's integer value and
      the expiry set on it (in seconds). */
  class CounterStore {
    var values: map<string, int>
    var expiries: map<string, int>

    constructor ()
      ensures values == map[] && expiries == map[]
    {
      values := map[];
      expiries := map[];
    }

    /** What `getResendClient` reads for `today`, or the read failure. */
    function Snapshot(today: string, readFails: bool): (r: CounterRead)
      reads this
      ensures readFails <==> r.ReadFailed?
      ensures r.Counts? ==> (&& (r.first.Some? <==> CounterKey("1", today) in values)
                             && (r.second.Some? <==> CounterKey("2", today) in values)
                             && (r.first.Some? ==> r.first.value == values[CounterKey("1", today)])
                             && (r.second.Some? ==> r.second.value == values[CounterKey("2", today)]))
    {
      if readFails then ReadFailed
      else
        var k1 := CounterKey("1", today);
        var k2 := CounterKey("2", today);
        Counts(if k1 in values then Some(values[k1]) else None,
               if k2 in values then Some(values[k2]) else None)
    }

    /** `getResendClient`: the counters are consulted only when some key is
        configured. */
    method GetResendClient(cfg: EmailConfig, today: string, readFails: bool)
      returns (choice: ClientChoice, consulted: bool)
      ensures consulted <==> cfg.primaryConfigured || cfg.secondaryConfigured
      ensures choice == SelectClient(cfg, Snapshot(today, readFails))
    {
      if !cfg.primaryConfigured && !cfg.secondaryConfigured {
        return ClientChoice(None, cfg.primaryFrom), false;
      }
      var read := Snapshot(today, readFails);
      choice := SelectClient(cfg, read);
      consulted := true;
    }

    /** `incrementEmailCount` (email/index.ts:69-84): `incr` the day's counter
        of the sending account and, when the result is 1, give it a one-day
        expiry. Redis errors are swallowed. */
    method IncrementEmailCount(cfg: EmailConfig, from: string, today: string, failure: CounterFailure)
      modifies this
      ensures var key := CounterKey(CounterIndex(cfg, from), today);
              && values == (if failure == IncrFails then old(values) else Incremented(old(values), key))
              && expiries == (if failure == NoFailure && Incremented(old(values), key)[key] == 1
                              then old(expiries)[key := ExpirySeconds] else old(expiries))
    {
      var key := CounterKey(CounterIndex(cfg, from), today);
      if failure == IncrFails {
        return;
      }
      values := Incremented(values, key);
      if values[key] == 1 && failure == NoFailure {
        expiries := expiries[key := ExpirySeconds];
      }
    }

    /** `sendRawEmail` (email/index.ts:91-151): without a client it fails with
        the not-configured message; a Resend error is rethrown and nothing is
        counted; a successful send is counted afterwards, against the address
        it was sent from. `sendError` is what Resend answers. */
    method SendRawEmail(cfg: EmailConfig, today: string, readFails: bool,
                        sendError: Option<string>, failure: CounterFailure)
      returns (result: Result<Delivery>)
      modifies this
      ensures var choice := SelectClient(cfg, old(Snapshot(today, readFails)));
              var key := CounterKey(CounterIndex(cfg, choice.from), today);
              && (choice.client.None? ==> result == Err(NotConfiguredMessage))
              && (choice.client.Some? && sendError.Some? ==> result == Err(sendError.value))
              && (choice.client.Some? && sendError.None? ==>
                    result == Ok(Delivery(choice.client.value, FromHeader(choice.from))))
              && values == (if result.Ok? && failure != IncrFails then Incremented(old(values), key) else old(values))
              && expiries == (if result.Ok? && failure == NoFailure && Incremented(old(values), key)[key] == 1
                              then old(expiries)[key := ExpirySeconds] else old(expiries))
    {
      var choice, _ := GetResendClient(cfg, today, readFails);
      if choice.client.None? {
        return Err(NotConfiguredMessage);
      }
      if sendError.Some? {
        return Err(sendError.value);
      }
      IncrementEmailCount(cfg, choice.from, today, failure);
      result := Ok(Delivery(choice.client.value, FromHeader(choice.from)));
    }

    /** `sendEmail` (email/index.ts:158-226): without a client it returns
        quietly (`Ok(None)`); any Resend error becomes the generic
        "Unknown error occurred while sending email"; a success is counted. */
    method SendEmail(cfg: EmailConfig, today: string, readFails: bool,
                     sendError: Option<string>, failure: CounterFailure)
      returns (result: Result<Option<Delivery>>)
      modifies this
      ensures var choice := SelectClient(cfg, old(Snapshot(today, readFails)));
              var key := CounterKey(CounterIndex(cfg, choice.from), today);
              && (choice.client.None? ==> result == Ok(None))
              && (choice.client.Some? && sendError.Some? ==> result == Err(SendFailedMessage))
              && (choice.client.Some? && sendError.None? ==>
                    result == Ok(Some(Delivery(choice.client.value, FromHeader(choice.from)))))
              && values == (if result.Ok? && result.value.Some? && failure != IncrFails
                            then Incremented(old(values), key) else old(values))
              && expiries == (if result.Ok? && result.value.Some? && failure == NoFailure
                                 && Incremented(old(values), key)[key] == 1
                              then old(expiries)[key := ExpirySeconds] else old(expiries))
    {
      var choice, _ := GetResendClient(cfg, today, readFails);
      if choice.client.None? {
        return Ok(None);
      }
      if sendError.Some? {
        return Err(SendFailedMessage);
      }
      IncrementEmailCount(cfg, choice.from, today, failure);
      result := Ok(Some(Delivery(choice.client.value, FromHeader(choice.from))));
    }
  }

  /** A send through the secondary account, chosen for being under quota, is
      charged to the secondary counter; when both are at the limit and only
      the secondary key is set, the send goes out through the secondary
      account under the primary address and is charged to the primary
      counter. */
  lemma CounterFollowsAddress(cfg: EmailConfig, first: Option<int>, second: Option<int>)
    requires cfg.primaryFrom != cfg.secondaryFrom
    ensures var c := SelectClient(cfg, Counts(first, second));
            c.client == Some(Secondary) && c.from == cfg.secondaryFrom ==> CounterIndex(cfg, c.from) == "2"
    ensures var c := SelectClient(cfg, Counts(first, second));
            !cfg.primaryConfigured && cfg.secondaryConfigured
            && Count(first) >= DailyLimit && Count(second) >= DailyLimit ==>
              c.client == Some(Secondary) && CounterIndex(cfg, c.from) == "1"
  {
  }

  /** Charging sends to the counters eventually moves the choice off the
      primary: once the primary's count for the day reaches the limit, a
      configured secondary under its own limit is picked. */
  lemma QuotaMovesToSecondary(cfg: EmailConfig, values: map<string, int>, today: string)
    requires cfg.secondaryConfigured
    requires CounterKey("1", today) in values && values[CounterKey("1", today)] >= DailyLimit
    requires CounterKey("2", today) !in values
    ensures SelectClient(cfg, Counts(Some(values[CounterKey("1", today)]), None))
         == ClientChoice(Some(Secondary), cfg.secondaryFrom)
  {
  }
}
