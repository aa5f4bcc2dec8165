/**
 * The messenger's message record: a small state machine over a status
 * string and a retry counter, and the shape of generated message IDs.
 *
 * Wall-clock time and the clock-seeded randomness are parameters: `now`
 * values are instants in seconds, a `DateTime` is the calendar reading
 * the ID is formatted from, and the nanosecond clock readings that pick
 * the ID's random characters are a sequence.
 */
module Models {
  import opened Wrappers

  const StatusPending: string := "pending"
  const StatusProcessed: string := "processed"
  const StatusFailed: string := "failed"

  /** The decoded JSON payload. Its values are not inspected, so they are kept as text. */
  type Content = map<string, string>

  /** The fields of a message, as one value. */
  datatype MessageState = MessageState(
    id: string,
    topicArn: string,
    content: Content,
    receivedAt: int,
    processedAt: Option<int>,
    status: string,
    retryCount: int,
    error: string)
  {
    /** Processed: neither pending nor failed. */
    predicate IsProcessed()
      ensures IsProcessed() ==> status != StatusPending && status != StatusFailed
    {
      status == StatusProcessed
    }

    /** Retryable: failed, so not processed, and below the retry ceiling. */
    predicate CanRetry(maxRetries: int)
      ensures CanRetry(maxRetries) ==> !IsProcessed() && retryCount < maxRetries
    {
      status == StatusFailed && retryCount < maxRetries
    }
  }

  /** The state NewMessage builds: pending, no retries, not processed, no error. */
  function NewState(id: string, topicArn: string, content: Content, receivedAt: int): MessageState
  {
    MessageState(id, topicArn, content, receivedAt, None, StatusPending, 0, "")
  }

  /** MarkAsProcessed at `now`: status and processing time change, nothing else. */
  function MarkedProcessed(s: MessageState, now: int): (r: MessageState)
    ensures r.IsProcessed() && r.processedAt == Some(now)
    ensures forall maxRetries :: !r.CanRetry(maxRetries)
    ensures r.retryCount == s.retryCount && r.error == s.error
    ensures r.(processedAt := s.processedAt, status := s.status) == s
  {
    s.(processedAt := Some(now), status := StatusProcessed)
  }

  /** MarkAsFailed with `err`: status, error text and one more retry; nothing else. */
  function MarkedFailed(s: MessageState, err: string): (r: MessageState)
    ensures !r.IsProcessed() && r.error == err
    ensures r.retryCount == s.retryCount + 1
    ensures forall maxRetries :: r.CanRetry(maxRetries) <==> s.retryCount + 1 < maxRetries
    ensures r.(status := s.status, error := s.error, retryCount := s.retryCount) == s
  {
    s.(status := StatusFailed, error := err, retryCount := s.retryCount + 1)
  }

  /** One call on a message: MarkAsProcessed at a time, or MarkAsFailed with an error text. */
  datatype Op = Process(at: int) | Fail(err: string)

  function Apply(s: MessageState, op: Op): MessageState
  {
    match op
    case Process(at) => MarkedProcessed(s, at)
    case Fail(err) => MarkedFailed(s, err)
  }

  /** The state after the calls `ops`, in order. */
  function Run(s: MessageState, ops: seq<Op>): MessageState
    decreases |ops|
  {
    if ops == [] then s else Run(Apply(s, ops[0]), ops[1..])
  }

  /** How many of `ops` are MarkAsFailed calls. */
  function Failures(ops: seq<Op>): nat
  {
    if ops == [] then 0 else (if ops[0].Fail? then 1 else 0) + Failures(ops[1..])
  }

  /**
   * What any sequence of calls does: the retry counter grows by the number
   * of failures, the status is that of the last call, and the identity,
   * topic, payload and receipt time never change.
   */
  lemma {:induction false} RunEffect(s: MessageState, ops: seq<Op>)
    ensures Run(s, ops).retryCount == s.retryCount + Failures(ops)
    ensures ops == [] ==> Run(s, ops).status == s.status
    ensures ops != [] ==>
              Run(s, ops).status == if ops[|ops| - 1].Process? then StatusProcessed else StatusFailed
    ensures var r := Run(s, ops);
      r.id == s.id && r.topicArn == s.topicArn && r.content == s.content && r.receivedAt == s.receivedAt
    decreases |ops|
  {
    if ops != [] {
      RunEffect(Apply(s, ops[0]), ops[1..]);
      if |ops| > 1 {
        assert ops[1..][|ops[1..]| - 1] == ops[|ops| - 1];
      }
    }
  }

  /**
   * The lifecycle of a new message: after the calls `ops` its retry count is
   * the number of failures; it is processed exactly when the last call was
   * MarkAsProcessed; it may be retried exactly when the last call was
   * MarkAsFailed and fewer than `maxRetries` failures have happened.
   */
  lemma Lifecycle(id: string, topicArn: string, content: Content, receivedAt: int,
                  ops: seq<Op>, maxRetries: int)
    ensures var r := Run(NewState(id, topicArn, content, receivedAt), ops);
      && r.retryCount == Failures(ops)
      && (r.IsProcessed() <==> ops != [] && ops[|ops| - 1].Process?)
      && (r.CanRetry(maxRetries) <==> ops != [] && ops[|ops| - 1].Fail? && Failures(ops) < maxRetries)
  {
    RunEffect(NewState(id, topicArn, content, receivedAt), ops);
  }

  /** After k failures of a new message its retry count is k, and it may be retried exactly when 0 < k < maxRetries. */
  lemma RepeatedFailures(s: MessageState, err: string, k: nat, maxRetries: int)
    requires s == NewState(s.id, s.topicArn, s.content, s.receivedAt)
    ensures Run(s, seq(k, i => Fail(err))).retryCount == k
    ensures Run(s, seq(k, i => Fail(err))).CanRetry(maxRetries) <==> 0 < k < maxRetries
  {
    var ops := seq(k, i => Fail(err));
    FailuresOfRepeat(err, k);
    RunEffect(s, ops);
  }

  lemma {:induction false} FailuresOfRepeat(err: string, k: nat)
    ensures Failures(seq(k, i => Fail(err))) == k
  {
    if k > 0 {
      FailuresOfRepeat(err, k - 1);
      assert seq(k, i => Fail(err))[1..] == seq(k - 1, i => Fail(err));
    }
  }

  // ---------------------------------------------------------------------
  // Message IDs
  // ---------------------------------------------------------------------

  const Charset: string := "abcdefghijklmnopqrstuvwxyzABCDEFGHIJKLMNOPQRSTUVWXYZ0123456789"

  predicate IsDigit(c: char)
  {
    '0' <= c <= '9'
  }

  function Pow10(n: nat): nat
  {
    if n == 0 then 1 else 10 * Pow10(n - 1)
  }

  function DigitChar(d: nat): (c: char)
    requires d < 10
    ensures IsDigit(c) && (c as int) - ('0' as int) == d
  {
    (('0' as int) + d) as char
  }

  /** The decimal digits of `n`, zero-padded on the left to at least `width` characters. */
  function Padded(n: nat, width: nat): (r: string)
    ensures |r| >= 1 && |r| >= width
    ensures forall i :: 0 <= i < |r| ==> IsDigit(r[i])
    ensures 1 <= width && n < Pow10(width) ==> |r| == width
    ensures n >= Pow10(width) ==> |r| > width && r[0] != '0'
    decreases n + width
  {
    if n < 10 && width <= 1 then [DigitChar(n)]
    else Padded(n / 10, if width > 0 then width - 1 else 0) + [DigitChar(n % 10)]
  }

  /** The number a string of decimal digits denotes. */
  function DecimalValue(s: string): nat
    requires forall i :: 0 <= i < |s| ==> IsDigit(s[i])
  {
    if s == [] then 0
    else
      assert IsDigit(s[|s| - 1]);
      10 * DecimalValue(s[..|s| - 1]) + ((s[|s| - 1] as int) - ('0' as int))
  }

  /** Padding loses nothing: the digits read back as the number. */
  lemma {:induction false} PaddedRoundTrip(n: nat, width: nat)
    ensures DecimalValue(Padded(n, width)) == n
    decreases n + width
  {
    if !(n < 10 && width <= 1) {
      var w := if width > 0 then width - 1 else 0;
      PaddedRoundTrip(n / 10, w);
      var r := Padded(n, width);
      assert r[..|r| - 1] == Padded(n / 10, w);
    }
  }

  /** A calendar reading, as Go's time package produces it. */
  datatype DateTime = DateTime(year: nat, month: nat, day: nat, hour: nat, minute: nat, second: nat)

  /** Every field fits its width in the layout "20060102150405": the year in 4 digits, the rest in 2. */
  predicate FitsStamp(t: DateTime)
  {
    t.year < 10000 && t.month < 100 && t.day < 100 && t.hour < 100 && t.minute < 100 && t.second < 100
  }

  /** The timestamp in the layout "20060102150405": year, month, day, hour, minute, second. */
  function FormatStamp(t: DateTime): (r: string)
    ensures forall i :: 0 <= i < |r| ==> IsDigit(r[i])
    ensures FitsStamp(t) ==> |r| == 14
  {
    Padded(t.year, 4) + Padded(t.month, 2) + Padded(t.day, 2)
      + Padded(t.hour, 2) + Padded(t.minute, 2) + Padded(t.second, 2)
  }

  /** Read a 14-digit timestamp back into its fields. */
  function ParseStamp(s: string): DateTime
    requires |s| == 14 && forall i :: 0 <= i < |s| ==> IsDigit(s[i])
  {
    DateTime(DecimalValue(s[0..4]), DecimalValue(s[4..6]), DecimalValue(s[6..8]),
             DecimalValue(s[8..10]), DecimalValue(s[10..12]), DecimalValue(s[12..14]))
  }

  /** The timestamp part of an ID determines the time it was taken. */
  lemma StampRoundTrip(t: DateTime)
    requires FitsStamp(t)
    ensures |FormatStamp(t)| == 14 && ParseStamp(FormatStamp(t)) == t
  {
    var s := FormatStamp(t);
    var head := Padded(t.year, 4) + Padded(t.month, 2) + Padded(t.day, 2)
      + Padded(t.hour, 2) + Padded(t.minute, 2);
    assert |head| == 12 && s == head + Padded(t.second, 2);
    assert s[0..4] == Padded(t.year, 4);
    assert s[4..6] == Padded(t.month, 2);
    assert s[6..8] == Padded(t.day, 2);
    assert s[8..10] == Padded(t.hour, 2);
    assert s[10..12] == Padded(t.minute, 2);
    assert s[12..14] == Padded(t.second, 2);
    PaddedRoundTrip(t.year, 4);
    PaddedRoundTrip(t.month, 2);
    PaddedRoundTrip(t.day, 2);
    PaddedRoundTrip(t.hour, 2);
    PaddedRoundTrip(t.minute, 2);
    PaddedRoundTrip(t.second, 2);
  }

  /** The shape of a message ID: 14 digits, a '-', then 8 charset characters. */
  predicate IsMessageId(id: string)
  {
    && |id| == 23
    && (forall i :: 0 <= i < 14 ==> IsDigit(id[i]))
    && id[14] == '-'
    && (forall i :: 15 <= i < 23 ==> id[i] in Charset)
  }

  /**
   * randomString: `length` characters, the i-th being the charset entry the
   * i-th nanosecond clock reading selects.
   */
  method RandomString(length: nat, nanos: seq<nat>) returns (s: string)
    requires |nanos| == length
    ensures |s| == length
    ensures forall i :: 0 <= i < length ==> s[i] == Charset[nanos[i] % |Charset|]
    ensures forall i :: 0 <= i < length ==> s[i] in Charset
  {
    var b := new char[length];
    for i := 0 to length
      invariant forall j :: 0 <= j < i ==> b[j] == Charset[nanos[j] % |Charset|]
    {
      b[i] := Charset[nanos[i] % |Charset|];
    }
    s := b[..];
  }

  /**
   * generateMessageID: the formatted timestamp, a '-', and 8 random
   * characters; when the time fits the layout the result has the ID shape
   * and its first 14 characters read back as the time.
   */
  method GenerateMessageID(now: DateTime, nanos: seq<nat>) returns (id: string)
    requires |nanos| == 8
    ensures |id| == |FormatStamp(now)| + 9
    ensures id[..|FormatStamp(now)|] == FormatStamp(now) && id[|FormatStamp(now)|] == '-'
    ensures forall i :: |FormatStamp(now)| < i < |id| ==> id[i] in Charset
    ensures FitsStamp(now) ==> IsMessageId(id) && ParseStamp(id[..14]) == now
  {
    var suffix := RandomString(8, nanos);
    var stamp := FormatStamp(now);
    id := stamp + "-" + suffix;
    assert id[..|stamp|] == stamp;
    assert forall i :: |stamp| < i < |id| ==> id[i] == suffix[i - |stamp| - 1];
    if FitsStamp(now) {
      StampRoundTrip(now);
    }
  }

  // ---------------------------------------------------------------------
  // The message object
  // ---------------------------------------------------------------------

  class Message {
    var id: string
    var topicArn: string
    var content: Content
    var receivedAt: int
    var processedAt: Option<int>
    var status: string
    var retryCount: int
    var error: string

    /** The message's fields as one value. */
    function State(): MessageState
      reads this
    {
      MessageState(id, topicArn, content, receivedAt, processedAt, status, retryCount, error)
    }

    constructor (id: string, topicArn: string, content: Content, receivedAt: int)
      ensures State() == NewState(id, topicArn, content, receivedAt)
    {
      this.id := id;
      this.topicArn := topicArn;
      this.content := content;
      this.receivedAt := receivedAt;
      this.processedAt := None;
      this.status := StatusPending;
      this.retryCount := 0;
      this.error := "";
    }

    method MarkAsProcessed(now: int)
      modifies this
      ensures State() == MarkedProcessed(old(State()), now)
    {
      processedAt := Some(now);
      status := StatusProcessed;
    }

    method MarkAsFailed(err: string)
      modifies this
      ensures State() == MarkedFailed(old(State()), err)
    {
      status := StatusFailed;
      error := err;
      retryCount := retryCount + 1;
    }

    predicate IsProcessed()
      reads this
      ensures IsProcessed() ==> status != StatusPending && status != StatusFailed
    {
      State().IsProcessed()
    }

    predicate CanRetry(maxRetries: int)
      reads this
      ensures CanRetry(maxRetries) ==> !IsProcessed() && retryCount < maxRetries
    {
      State().CanRetry(maxRetries)
    }
  }

  /**
   * NewMessage: a fresh, pending message with the given topic and payload,
   * received at `receivedAt`, whose ID is generated from `now` and `nanos`.
   */
  method NewMessage(topicArn: string, content: Content, now: DateTime, receivedAt: int, nanos: seq<nat>)
    returns (m: Message)
    requires |nanos| == 8
    ensures fresh(m)
    ensures m.State() == NewState(m.id, topicArn, content, receivedAt)
    ensures FitsStamp(now) ==> IsMessageId(m.id) && ParseStamp(m.id[..14]) == now
  {
    var id := GenerateMessageID(now, nanos);
    m := new Message(id, topicArn, content, receivedAt);
  }
}
