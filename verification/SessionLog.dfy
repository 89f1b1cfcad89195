/** The bounded event log of an agent and the conversation it projects to
    (crates/yunxi-agent-spine/src/session.rs, crates/yunxi-protocol/src/tool_calls.rs). */
module SessionLog {
  import opened Wrappers

  datatype Call = Call(id: string, name: string, arguments: string)

  /** Error codes: those of the spine itself by name, others as text. */
  datatype Code =
    | Other(text: string)
    | ApprovalMismatch
    | InvalidApproval
    | ApprovalRequestMismatch
    | InvalidApprovalRequest
    | InvalidToolRejection
    | ApprovalRequired
    | UserDenied

  datatype Outcome =
    | Completed(output: string)
    | Failed(code: Code, message: string)
    | Rejected(code: Code, message: string)
    | Cancelled(reason: string)

  datatype Response = Response(content: string, calls: seq<Call>)

  datatype ApprovalRequest = ApprovalRequest(round: nat, callId: string, tool: string, summary: string)

  datatype Verdict = Approved(ticket: string) | Denied(reason: string)

  datatype Decision = Decision(round: nat, callId: string, tool: string, verdict: Verdict)

  datatype Message =
    | SystemText(text: string)
    | UserText(text: string)
    | AssistantText(text: string)
    | AssistantCalls(calls: seq<Call>)
    | ToolReply(callId: string, tool: string, outcome: Outcome)

  /** What a failed turn leaves in the log. */
  datatype Failure = Failure(code: string, message: string)

  datatype Event =
    | TurnStarted(turn: nat, message: Message)
    | ContextBuilt(turn: nat)
    | ModelRequested(turn: nat, round: nat)
    | ModelResponded(turn: nat, round: nat, response: Response)
    | ToolCallsRequested(turn: nat, round: nat, calls: seq<Call>)
    | ToolApprovalRequested(turn: nat, request: ApprovalRequest)
    | ToolApprovalResolved(turn: nat, decision: Decision)
    | ToolResultRecorded(turn: nat, round: nat, call: Call, outcome: Outcome)
    | TurnCompleted(turn: nat, content: string)
    | TurnFailed(turn: nat, failure: Failure)
    | TurnCancelled(turn: nat, reason: string)

  datatype Record = Record(sequence: nat, event: Event)

  datatype Limits = Limits(maxEvents: nat, maxBytes: nat, maxEventBytes: nat)

  datatype SessionError =
    | InvalidEvent
    | InvalidSeed
    | EventTooLarge
    | EventLimitReached
    | ByteLimitReached
    | SequenceExhausted

  /** Checks, sizes and texts of values whose encoding is not modelled. */
  datatype Codec = Codec(size: Event -> nat, seedSize: Message -> nat, encode: Outcome -> string,
                         callFits: Call -> bool, requestFits: ApprovalRequest -> bool,
                         decisionFits: Decision -> bool, outcomeFits: Outcome -> bool)

  const MAX_TEXT := 262144
  const MAX_BATCH := 16
  const LAST_SEQUENCE := 0xFFFF_FFFF_FFFF_FFFF

  // ------------------------------------------------------------------
  // Which events are acceptable
  // ------------------------------------------------------------------

  predicate IsSpace(c: char) {
    c == ' ' || '\t' <= c <= '\r'
  }

  predicate Blank(text: string) {
    forall k :: 0 <= k < |text| ==> IsSpace(text[k])
  }

  predicate TextFits(text: string) {
    !Blank(text) && '\0' !in text && |text| <= MAX_TEXT
  }

  /** A batch has one to sixteen calls with distinct ids. */
  predicate BatchFits(codec: Codec, round: nat, calls: seq<Call>) {
    && round > 0 && 0 < |calls| <= MAX_BATCH
    && (forall k :: 0 <= k < |calls| ==> codec.callFits(calls[k]))
    && (forall j, k :: 0 <= j < k < |calls| ==> calls[j].id != calls[k].id)
  }

  predicate EventFits(codec: Codec, event: Event) {
    match event
    case TurnStarted(_, message) => message.UserText? && TextFits(message.text)
    case ContextBuilt(_) => true
    case ModelRequested(_, _) => true
    case ModelResponded(_, round, response) =>
      round > 0
      && if response.calls == [] then TextFits(response.content)
         else '\0' !in response.content && |response.content| <= MAX_TEXT && BatchFits(codec, round, response.calls)
    case ToolCallsRequested(_, round, calls) => BatchFits(codec, round, calls)
    case ToolApprovalRequested(_, request) => codec.requestFits(request)
    case ToolApprovalResolved(_, decision) => codec.decisionFits(decision)
    case ToolResultRecorded(_, round, _, outcome) => round > 0 && codec.outcomeFits(outcome)
    case TurnCompleted(_, content) => TextFits(content)
    case TurnFailed(_, failure) => TextFits(failure.code) && |failure.code| <= 128 && TextFits(failure.message)
    case TurnCancelled(_, reason) => TextFits(reason)
  }

  // ------------------------------------------------------------------
  // The conversation
  // ------------------------------------------------------------------

  /** The messages that one event contributes. */
  function MessagesOf(event: Event): seq<Message> {
    match event
    case TurnStarted(_, message) => [message]
    case ModelResponded(_, _, response) =>
      if response.calls == [] then [AssistantText(response.content)] else [AssistantCalls(response.calls)]
    case ToolResultRecorded(_, _, call, outcome) => [ToolReply(call.id, call.name, outcome)]
    case _ => []
  }

  function Projection(events: seq<Event>): seq<Message> {
    if events == [] then [] else Projection(events[..|events| - 1]) + MessagesOf(events[|events| - 1])
  }

  lemma OneMoreMessage(events: seq<Event>, event: Event)
    ensures Projection(events + [event]) == Projection(events) + MessagesOf(event)
  {
    assert (events + [event])[..|events|] == events;
  }

  lemma {:induction false} ProjectionJoins(a: seq<Event>, b: seq<Event>)
    ensures Projection(a + b) == Projection(a) + Projection(b)
    decreases |b|
  {
    if b == [] {
      assert a + b == a;
    } else {
      var front, last := b[..|b| - 1], b[|b| - 1];
      assert b == front + [last] && a + b == (a + front) + [last];
      ProjectionJoins(a, front);
      OneMoreMessage(front, last);
      OneMoreMessage(a + front, last);
    }
  }

  function Bytes(size: Event -> nat, events: seq<Event>): nat {
    if events == [] then 0 else Bytes(size, events[..|events| - 1]) + size(events[|events| - 1])
  }

  function SeedBytes(size: Message -> nat, messages: seq<Message>): nat {
    if messages == [] then 0 else SeedBytes(size, messages[..|messages| - 1]) + size(messages[|messages| - 1])
  }

  /** The content of a message: a tool reply carries its encoded outcome, a batch of calls no text. */
  function ContentOf(codec: Codec, message: Message): string {
    match message
    case SystemText(text) => text
    case UserText(text) => text
    case AssistantText(text) => text
    case AssistantCalls(_) => ""
    case ToolReply(_, _, outcome) => codec.encode(outcome)
  }

  predicate PlainText(codec: Codec, message: Message) {
    '\0' !in ContentOf(codec, message) && |ContentOf(codec, message)| <= MAX_TEXT
  }

  /** What a seed must be free of, case by case: a batch of calls has no text. */
  predicate IsSeedable(codec: Codec, message: Message) {
    match message
    case AssistantCalls(_) => true
    case ToolReply(_, _, outcome) => '\0' !in codec.encode(outcome) && |codec.encode(outcome)| <= 262144
    case _ => '\0' !in message.text && |message.text| <= 262144
  }

  /** How many more events of the greatest size fit into a log that holds `count` events. */
  ghost function RoomAfter(limits: Limits, count: nat, bytes: nat): nat
    decreases limits.maxEvents - count
  {
    if count >= limits.maxEvents || count + 1 >= LAST_SEQUENCE || bytes + limits.maxEventBytes > limits.maxBytes then 0
    else 1 + RoomAfter(limits, count + 1, bytes + limits.maxEventBytes)
  }

  lemma {:induction false} LighterHasMoreRoom(limits: Limits, count: nat, light: nat, heavy: nat)
    requires light <= heavy
    ensures RoomAfter(limits, count, light) >= RoomAfter(limits, count, heavy)
    decreases limits.maxEvents - count
  {
    if RoomAfter(limits, count, heavy) > 0 {
      LighterHasMoreRoom(limits, count + 1, light + limits.maxEventBytes, heavy + limits.maxEventBytes);
    }
  }

  /** An event takes the room of at most one. */
  lemma OneMoreTakesOne(limits: Limits, count: nat, bytes: nat, size: nat)
    requires size <= limits.maxEventBytes
    ensures RoomAfter(limits, count + 1, bytes + size) + 1 >= RoomAfter(limits, count, bytes)
  {
    if RoomAfter(limits, count, bytes) > 0 {
      LighterHasMoreRoom(limits, count + 1, bytes + size, bytes + limits.maxEventBytes);
    }
  }

  lemma {:induction false} PlentyOfRoom(limits: Limits, count: nat, bytes: nat, n: nat)
    requires count + n <= limits.maxEvents && count + n < LAST_SEQUENCE
    requires bytes + n * limits.maxEventBytes <= limits.maxBytes
    ensures RoomAfter(limits, count, bytes) >= n
    decreases n
  {
    if n > 0 {
      assert n * limits.maxEventBytes == (n - 1) * limits.maxEventBytes + limits.maxEventBytes;
      PlentyOfRoom(limits, count + 1, bytes + limits.maxEventBytes, n - 1);
    }
  }

  function EventsOf(records: seq<Record>): (events: seq<Event>)
    ensures |events| == |records|
  {
    seq(|records|, k requires 0 <= k < |records| => records[k].event)
  }

  /** Records are numbered 1, 2, ... and each one was acceptable. */
  ghost predicate Numbered(limits: Limits, codec: Codec, records: seq<Record>) {
    forall k :: 0 <= k < |records| ==>
      && records[k].sequence == k + 1
      && EventFits(codec, records[k].event) && codec.size(records[k].event) <= limits.maxEventBytes
  }

  /** ... and their sizes add up. (Said of whatever equals `records`, so that only a proof that names KeptBy looks
      inside.) */
  ghost predicate WellKept(limits: Limits, codec: Codec, records: seq<Record>, bytes: nat) {
    forall all {:trigger KeptBy(limits, codec, all, bytes)} :: all == records ==> KeptBy(limits, codec, all, bytes)
  }

  ghost predicate KeptBy(limits: Limits, codec: Codec, records: seq<Record>, bytes: nat) {
    Numbered(limits, codec, records) && bytes == Bytes(codec.size, EventsOf(records))
  }

  lemma OneMoreRecord(codec: Codec, records: seq<Record>, record: Record)
    ensures EventsOf(records + [record]) == EventsOf(records) + [record.event]
    ensures Bytes(codec.size, EventsOf(records + [record]))
            == Bytes(codec.size, EventsOf(records)) + codec.size(record.event)
  {
    assert EventsOf(records + [record]) == EventsOf(records) + [record.event];
    assert (EventsOf(records) + [record.event])[..|records|] == EventsOf(records);
  }

  class Log {
    const limits: Limits
    const codec: Codec
    var seed: seq<Message>
    var records: seq<Record>
    var bytesUsed: nat
    var nextSequence: nat
    /** The events of earlier conversations. */
    ghost var archive: seq<Event>

    ghost function Events(): seq<Event>
      reads `records
    {
      EventsOf(records)
    }

    /** Everything that was ever logged. */
    ghost function EverLogged(): seq<Event>
      reads `records, `archive
    {
      archive + Events()
    }

    /** The sizes add up to bytesUsed, within both limits. */
    ghost predicate Valid()
      reads `records, `bytesUsed, `nextSequence
    {
      && nextSequence == |records| + 1 <= LAST_SEQUENCE
      && WellKept(limits, codec, records, bytesUsed)
      && bytesUsed <= limits.maxBytes && |records| <= limits.maxEvents
    }

    /** How many more events the log takes, whatever their sizes within the limit. */
    ghost function Room(): nat
      reads `records, `bytesUsed
    {
      RoomAfter(limits, |records|, bytesUsed)
    }

    /** The log takes the event. */
    ghost predicate Accepts(event: Event)
      reads `records, `bytesUsed, `nextSequence
    {
      && EventFits(codec, event) && codec.size(event) <= limits.maxEventBytes
      && |records| < limits.maxEvents && bytesUsed + codec.size(event) <= limits.maxBytes
      && nextSequence < LAST_SEQUENCE
    }

    /** The first check that the event does not pass. */
    ghost predicate Rejects(event: Event, error: SessionError)
      reads `records, `bytesUsed, `nextSequence
    {
      match error
      case InvalidEvent => !EventFits(codec, event)
      case EventTooLarge => EventFits(codec, event) && codec.size(event) > limits.maxEventBytes
      case EventLimitReached =>
        EventFits(codec, event) && codec.size(event) <= limits.maxEventBytes && |records| >= limits.maxEvents
      case ByteLimitReached =>
        && EventFits(codec, event) && codec.size(event) <= limits.maxEventBytes && |records| < limits.maxEvents
        && bytesUsed + codec.size(event) > limits.maxBytes
      case SequenceExhausted => nextSequence == LAST_SEQUENCE
      case InvalidSeed => false
    }

    constructor (limits: Limits, codec: Codec)
      ensures Valid() && Events() == [] && seed == [] && this.limits == limits && this.codec == codec
      ensures records == [] && bytesUsed == 0 && archive == []
    {
      this.limits, this.codec := limits, codec;
      seed, records, bytesUsed, nextSequence, archive := [], [], 0, 1, [];
    }

    /** Appends the event or leaves the log as it was; there is no third way. */
    method Append(event: Event) returns (r: Result<nat, SessionError>)
      requires Valid()
      modifies `records, `bytesUsed, `nextSequence
      ensures Valid()
      ensures r.Ok? <==> old(Accepts(event))
      ensures r.Ok? ==> r.value == |old(records)| + 1 && Events() == old(Events()) + [event]
      ensures r.Err? ==> records == old(records) && bytesUsed == old(bytesUsed) && nextSequence == old(nextSequence)
      ensures r.Err? ==> Rejects(event, r.error)
      ensures Room() + 1 >= old(Room())
      ensures EventFits(codec, event) && codec.size(event) <= limits.maxEventBytes && old(Room()) > 0 ==> r.Ok?
    {
      if !EventFits(codec, event) {
        return Err(InvalidEvent);
      }
      if codec.size(event) > limits.maxEventBytes {
        return Err(EventTooLarge);
      }
      if |records| >= limits.maxEvents {
        return Err(EventLimitReached);
      }
      var total := bytesUsed + codec.size(event);
      if total > limits.maxBytes {
        return Err(ByteLimitReached);
      }
      if nextSequence == LAST_SEQUENCE {
        return Err(SequenceExhausted);
      }
      var sequence := Keep(event, total);
      r := Ok(sequence);
    }

    /** The event gets the next number. */
    method Keep(event: Event, total: nat) returns (sequence: nat)
      requires Valid() && Accepts(event) && total == bytesUsed + codec.size(event)
      modifies `records, `bytesUsed, `nextSequence
      ensures Valid() && sequence == |old(records)| + 1 && Events() == old(Events()) + [event]
      ensures Room() + 1 >= old(Room())
    {
      sequence := nextSequence;
      assert KeptBy(limits, codec, records, bytesUsed);
      OneMoreRecord(codec, records, Record(sequence, event));
      OneMoreTakesOne(limits, |records|, bytesUsed, codec.size(event));
      nextSequence := nextSequence + 1;
      records := records + [Record(sequence, event)];
      bytesUsed := total;
    }

    /** What is in a log was acceptable: a user text that says something, batches of one to sixteen calls with ids of
        their own, and a final text that is not blank. */
    lemma LoggedIsAcceptable(k: nat)
      requires Valid() && k < |records|
      ensures records[k].sequence == k + 1
      ensures match records[k].event
              case TurnStarted(_, message) =>
                message.UserText? && |message.text| <= 262144 && '\0' !in message.text
                && exists i :: 0 <= i < |message.text| && !IsSpace(message.text[i])
              case ToolCallsRequested(_, round, calls) =>
                round > 0 && 1 <= |calls| <= 16 && forall i, j :: 0 <= i < j < |calls| ==> calls[i].id != calls[j].id
              case TurnCompleted(_, content) =>
                |content| <= 262144 && exists i :: 0 <= i < |content| && !IsSpace(content[i])
              case _ => true
    {
      assert KeptBy(limits, codec, records, bytesUsed);
      assert EventFits(codec, records[k].event);
    }

    /** Replaces the conversation by a seed; a refused seed changes nothing. */
    method ResetWithMessages(messages: seq<Message>) returns (r: Result<(), SessionError>)
      requires Valid()
      modifies `seed, `records, `bytesUsed, `nextSequence, `archive
      ensures Valid()
      ensures r.Ok? <==> (forall k :: 0 <= k < |messages| ==> PlainText(codec, messages[k]))
                         && SeedBytes(codec.seedSize, messages) <= limits.maxBytes
      ensures r.Ok? ==> seed == messages && records == []
      ensures EverLogged() == old(EverLogged())
      ensures r.Err? ==>
                && seed == old(seed)
                && records == old(records)
                && bytesUsed == old(bytesUsed)
                && nextSequence == old(nextSequence)
    {
      r := CheckSeed(messages);
      if r.Ok? {
        archive := archive + Events();
        seed, records, bytesUsed, nextSequence := messages, [], 0, 1;
        assert archive + Events() == archive;
      }
    }

    method CheckSeed(messages: seq<Message>) returns (r: Result<(), SessionError>)
      ensures r.Ok? <==> (forall k :: 0 <= k < |messages| ==> PlainText(codec, messages[k]))
                         && SeedBytes(codec.seedSize, messages) <= limits.maxBytes
      ensures r.Ok? <==> (forall k :: 0 <= k < |messages| ==> IsSeedable(codec, messages[k]))
                         && SeedBytes(codec.seedSize, messages) <= limits.maxBytes
    {
      var used := 0;
      for i := 0 to |messages|
        invariant forall k :: 0 <= k < i ==> PlainText(codec, messages[k])
        invariant used == SeedBytes(codec.seedSize, messages[..i])
        invariant i > 0 ==> used <= limits.maxBytes
      {
        SeedBytesGrow(codec.seedSize, messages, i + 1);
        assert messages[..i + 1][..i] == messages[..i];
        if !PlainText(codec, messages[i]) {
          assert !IsSeedable(codec, messages[i]);
          return Err(InvalidSeed);
        }
        used := used + codec.seedSize(messages[i]);
        if used > limits.maxBytes {
          return Err(ByteLimitReached);
        }
      }
      assert messages[..|messages|] == messages;
      assert forall k :: 0 <= k < |messages| ==> PlainText(codec, messages[k]);
      r := Ok(());
    }

    ghost function ConversationValue(): seq<Message>
      reads `seed, `records
    {
      seed + Projection(Events())
    }

    method Conversation() returns (messages: seq<Message>)
      ensures messages == ConversationValue()
    {
      messages := seed;
      ghost var events := Events();
      for i := 0 to |records|
        invariant messages == seed + Projection(events[..i])
      {
        assert events[..i + 1][..i] == events[..i] && events[..i + 1][i] == records[i].event;
        messages := messages + MessagesOf(records[i].event);
      }
      assert events[..|records|] == events;
    }
  }

  lemma {:induction false} SeedBytesGrow(size: Message -> nat, messages: seq<Message>, k: nat)
    requires k <= |messages|
    ensures SeedBytes(size, messages[..k]) <= SeedBytes(size, messages)
    decreases |messages|
  {
    if k == |messages| {
      assert messages[..k] == messages;
    } else {
      SeedBytesGrow(size, messages[..|messages| - 1], k);
      assert messages[..|messages| - 1][..k] == messages[..k];
    }
  }
}
