/** Numbering, publication and paging of the Web session history
    (crates/yunxi-cli/src/web.rs). */
module WebHistory {
  import opened Wrappers

  datatype Role = User | Assistant | System | Tool

  datatype Message = Message(role: Role, text: string)

  datatype Body =
    | TurnStart(turn: nat)
    | UserMessage(index: nat, message: Message)
    | StepStart(turn: nat)
    | AssistantMessage(turn: nat, index: nat, message: Message)
    | StepEnd(turn: nat)
    | TurnEnd(turn: nat)

  datatype Event = Event(sequence: nat, body: Body)

  // ------------------------------------------------------------------
  // The event list, message by message
  // ------------------------------------------------------------------

  /** The three events that the message at `index` contributes. */
  function BodiesOf(index: nat, message: Message): (r: seq<Body>)
    ensures |r| == 3
  {
    if index % 2 == 0 then
      [TurnStart(index / 2), UserMessage(index, message), StepStart(index / 2)]
    else
      [AssistantMessage(index / 2, index, message), StepEnd(index / 2), TurnEnd(index / 2)]
  }

  lemma BodiesOfTurn(turn: nat, message: Message)
    ensures BodiesOf(2 * turn, message) == [TurnStart(turn), UserMessage(2 * turn, message), StepStart(turn)]
    ensures BodiesOf(2 * turn + 1, message)
         == [AssistantMessage(turn, 2 * turn + 1, message), StepEnd(turn), TurnEnd(turn)]
  {
  }

  /** Reference definition: the body at position k comes from message k / 3. */
  function Events(messages: seq<Message>): (r: seq<Event>)
    ensures |r| == 3 * |messages|
  {
    seq(3 * |messages|, k requires 0 <= k < 3 * |messages| =>
      Event(k, BodiesOf(k / 3, messages[k / 3])[k % 3]))
  }

  function FirstEventSeqForMessage(messageIndex: nat): nat {
    var turn := messageIndex / 2;
    if messageIndex % 2 == 0 then turn * 6 else turn * 6 + 3
  }

  method PushSessionEvent(events: seq<Event>, body: Body) returns (r: seq<Event>)
    ensures r == events + [Event(|events|, body)]
  {
    r := events + [Event(|events|, body)];
  }

  /** The events of one turn: those of its user message, and those of the answer if there is one. */
  method PushTurn(messages: seq<Message>, turn: nat, before: seq<Event>) returns (events: seq<Event>)
    requires 2 * turn < |messages| && before == Events(messages[..2 * turn])
    ensures events == Events(messages[..if 2 * turn + 1 < |messages| then 2 * turn + 2 else 2 * turn + 1])
  {
    var user := messages[2 * turn];
    events := PushSessionEvent(before, TurnStart(turn));
    events := PushSessionEvent(events, UserMessage(turn * 2, user));
    events := PushSessionEvent(events, StepStart(turn));
    EventsOfOneMore(messages, 2 * turn);
    BodiesOfTurn(turn, user);
    if 2 * turn + 1 < |messages| {
      var assistant := messages[2 * turn + 1];
      events := PushSessionEvent(events, AssistantMessage(turn, turn * 2 + 1, assistant));
      events := PushSessionEvent(events, StepEnd(turn));
      events := PushSessionEvent(events, TurnEnd(turn));
      EventsOfOneMore(messages, 2 * turn + 1);
      BodiesOfTurn(turn, assistant);
    }
  }

  /** The generator walks the messages two at a time, one turn per pair. */
  method SessionEventValues(messages: seq<Message>) returns (events: seq<Event>)
    ensures events == Events(messages)
  {
    events := [];
    var turn := 0;
    while 2 * turn < |messages|
      invariant 2 * turn <= |messages| + 1
      invariant events == Events(messages[..if 2 * turn <= |messages| then 2 * turn else |messages|])
    {
      events := PushTurn(messages, turn, events);
      turn := turn + 1;
    }
    assert messages[..|messages|] == messages;
  }

  /** Every message is shown once, by an event that carries it with its own place and number. */
  lemma EachMessageIsShown(messages: seq<Message>, i: nat)
    requires i < |messages|
    ensures var events := Events(messages);
            && events[3 * i].sequence == 3 * i
            && (i % 2 == 0 ==>
                  && events[3 * i].body == TurnStart(i / 2)
                  && events[3 * i + 1] == Event(3 * i + 1, UserMessage(i, messages[i])))
            && (i % 2 == 1 ==> events[3 * i].body == AssistantMessage(i / 2, i, messages[i]))
    ensures forall k :: 0 <= k < 3 * |messages| && k / 3 == i && IsMessage(Events(messages)[k]) ==>
              k == if i % 2 == 0 then 3 * i + 1 else 3 * i
  {
    forall k | 0 <= k < 3 * |messages| && k / 3 == i && IsMessage(Events(messages)[k])
      ensures k == if i % 2 == 0 then 3 * i + 1 else 3 * i
    {
      assert k == 3 * i || k == 3 * i + 1 || k == 3 * i + 2;
    }
  }

  lemma EventsOfOneMore(messages: seq<Message>, i: nat)
    requires i < |messages|
    ensures var b := BodiesOf(i, messages[i]);
            Events(messages[..i + 1]) ==
            Events(messages[..i]) + [Event(3 * i, b[0])] + [Event(3 * i + 1, b[1])] + [Event(3 * i + 2, b[2])]
  {
    var more := messages[..i + 1];
    assert more[i] == messages[i];
    forall k | 0 <= k < 3 * i ensures Events(more)[k] == Events(messages[..i])[k] {
      assert k / 3 < i && more[k / 3] == messages[..i][k / 3];
    }
  }

  /** The closed form is the number of events of the messages before `i`, and the
      events of a prefix of the messages are a prefix of the events. */
  lemma ClosedFormCountsEvents(messages: seq<Message>, i: nat)
    requires i <= |messages|
    ensures FirstEventSeqForMessage(i) == |Events(messages[..i])|
    ensures Events(messages[..i]) == Events(messages)[..FirstEventSeqForMessage(i)]
  {
    forall k | 0 <= k < 3 * i ensures Events(messages[..i])[k] == Events(messages)[k] {
      assert messages[..i][k / 3] == messages[k / 3];
    }
  }

  // ------------------------------------------------------------------
  // Paging backwards
  // ------------------------------------------------------------------

  predicate IsMessage(e: Event) {
    e.body.UserMessage? || e.body.AssistantMessage?
  }

  function MessageCount(events: seq<Event>): (n: nat)
    ensures n <= |events|
  {
    if events == [] then 0 else (if IsMessage(events[0]) then 1 else 0) + MessageCount(events[1..])
  }

  lemma MessageCountFrom(events: seq<Event>, lo: nat, hi: nat)
    requires lo < hi <= |events|
    ensures MessageCount(events[lo..hi]) ==
            (if IsMessage(events[lo]) then 1 else 0) + MessageCount(events[lo + 1..hi])
  {
    assert events[lo..hi][1..] == events[lo + 1..hi];
  }

  /** Six events make a turn: its start is at 0, its messages at 1 and 3. */
  ghost predicate LaidOut(events: seq<Event>) {
    forall k :: 0 <= k < |events| ==>
                  && (events[k].body.TurnStart? <==> k % 6 == 0)
                  && (IsMessage(events[k]) <==> k % 6 == 1 || k % 6 == 3)
  }

  ghost predicate Numbered(events: seq<Event>) {
    forall k :: 0 <= k < |events| ==> events[k].sequence == k
  }

  lemma EventsAreLaidOut(messages: seq<Message>)
    ensures LaidOut(Events(messages)) && Numbered(Events(messages))
  {
    forall k | 0 <= k < |Events(messages)|
      ensures Events(messages)[k].body.TurnStart? <==> k % 6 == 0
      ensures IsMessage(Events(messages)[k]) <==> k % 6 == 1 || k % 6 == 3
    {
      assert k % 6 == 3 * ((k / 3) % 2) + k % 3;
    }
  }

  /** The exclusive end of the page that stops before `beforeSeq`. */
  function PageEnd(count: nat, beforeSeq: Option<nat>): nat {
    if beforeSeq.Some? && beforeSeq.value < count then beforeSeq.value else count
  }

  /** The newest event of the page is the one before this number. */
  predicate EndsBefore(page: seq<Event>, end: nat) {
    if end == 0 then page == [] else page != [] && page[|page| - 1].sequence == end - 1
  }

  /** Without a cursor the page goes to the newest event, and with one to the event before the cursor. */
  predicate EndsWhereAsked(page: seq<Event>, beforeSeq: Option<nat>, count: nat) {
    match beforeSeq
    case None => EndsBefore(page, count)
    case Some(cursor) => if cursor <= count then EndsBefore(page, cursor) else EndsBefore(page, count)
  }

  /** Walks back over `maximum` messages, or to the front. */
  method BackOverMessages(events: seq<Event>, end: nat, maximum: nat) returns (start: nat)
    requires end <= |events| && maximum >= 1
    ensures start <= end && (end > 0 ==> start < end)
    ensures MessageCount(events[start..end]) <= maximum
    ensures start > 0 ==> MessageCount(events[start..end]) == maximum && IsMessage(events[start])
  {
    start := end;
    var seen := 0;
    while start > 0 && seen < maximum
      invariant 0 <= start <= end
      invariant seen == MessageCount(events[start..end]) <= maximum
      invariant seen > 0 ==> start < end
      invariant start < end && seen == maximum ==> IsMessage(events[start])
    {
      start := start - 1;
      MessageCountFrom(events, start, end);
      if IsMessage(events[start]) {
        seen := seen + 1;
      }
    }
  }

  /** Walks back to the nearest turn start. */
  method BackToTurnStart(events: seq<Event>, stop: nat) returns (start: nat)
    requires LaidOut(events) && (stop == 0 || stop < |events|)
    ensures start == stop - stop % 6
  {
    start := stop;
    while start > 0 && !events[start].body.TurnStart?
      invariant stop - stop % 6 <= start <= stop
    {
      start := start - 1;
    }
  }

  /** Of the first three events of a turn only the second is a message. */
  lemma TurnBegins(events: seq<Event>, first: nat)
    requires LaidOut(events) && first % 6 == 0
    ensures first < |events| ==> !IsMessage(events[first])
    ensures first + 2 < |events| ==> IsMessage(events[first + 1]) && !IsMessage(events[first + 2])
  {
  }

  lemma MessageOfTurn(events: seq<Event>, stop: nat)
    requires LaidOut(events) && stop < |events| && IsMessage(events[stop])
    ensures stop % 6 == 1 || stop % 6 == 3
  {
  }

  lemma CountBack(events: seq<Event>, first: nat, stop: nat, end: nat)
    requires first <= stop < end <= |events| && stop <= first + 3 && stop != first + 2
    requires !IsMessage(events[first]) || stop == first
    requires stop == first + 3 ==> IsMessage(events[first + 1]) && !IsMessage(events[first + 2])
    ensures 0 <= MessageCount(events[first..end]) - MessageCount(events[stop..end]) <= 1
  {
    if stop > first {
      MessageCountFrom(events, first, end);
    }
    if stop == first + 3 {
      MessageCountFrom(events, first + 1, end);
      MessageCountFrom(events, first + 2, end);
    }
  }

  /** From a message back to its turn start there is at most one more message. */
  lemma AtMostOneMore(events: seq<Event>, stop: nat, end: nat)
    requires LaidOut(events) && stop < end <= |events| && (stop == 0 || IsMessage(events[stop]))
    ensures 0 <= MessageCount(events[stop - stop % 6..end]) - MessageCount(events[stop..end]) <= 1
  {
    if stop > 0 {
      MessageOfTurn(events, stop);
      TurnBegins(events, stop - stop % 6);
    }
    CountBack(events, stop - stop % 6, stop, end);
  }

  /** One page. The source indexes past the list when the page size is 0 and the list is
      not empty, so the size is at least 1 here, as its caller ensures. */
  method HistoryPage(messages: seq<Message>, beforeSeq: Option<nat>, maximum: nat)
    returns (page: seq<Event>, hasMore: bool, start: nat)
    requires maximum >= 1
    ensures start <= PageEnd(|Events(messages)|, beforeSeq)
    ensures page == Events(messages)[start..PageEnd(|Events(messages)|, beforeSeq)]
    ensures hasMore == (start > 0)
    ensures PageEnd(|Events(messages)|, beforeSeq) > 0 ==> page != [] && page[0].body.TurnStart?
    ensures MessageCount(page) <= maximum + 1
    ensures start > 0 ==> MessageCount(page) >= maximum
    ensures EndsWhereAsked(page, beforeSeq, 3 * |messages|)
    ensures page != [] ==> page[0].sequence == start
  {
    var events := SessionEventValues(messages);
    EventsAreLaidOut(messages);
    page, hasMore, start := PageBefore(events, beforeSeq, maximum);
  }

  method PageBefore(events: seq<Event>, beforeSeq: Option<nat>, maximum: nat)
    returns (page: seq<Event>, hasMore: bool, start: nat)
    requires maximum >= 1 && LaidOut(events) && Numbered(events)
    ensures start <= PageEnd(|events|, beforeSeq) && page == events[start..PageEnd(|events|, beforeSeq)]
    ensures hasMore == (start > 0)
    ensures PageEnd(|events|, beforeSeq) > 0 ==> page != [] && page[0].body.TurnStart?
    ensures MessageCount(page) <= maximum + 1
    ensures start > 0 ==> MessageCount(page) >= maximum
    ensures EndsWhereAsked(page, beforeSeq, |events|)
    ensures page != [] ==> page[0].sequence == start
  {
    page, hasMore, start := PageOf(events, PageEnd(|events|, beforeSeq), maximum);
  }

  method PageOf(events: seq<Event>, end: nat, maximum: nat)
    returns (page: seq<Event>, hasMore: bool, start: nat)
    requires maximum >= 1 && LaidOut(events) && Numbered(events) && end <= |events|
    ensures start <= end && page == events[start..end]
    ensures hasMore == (start > 0)
    ensures end > 0 ==> page != [] && page[0].body.TurnStart?
    ensures MessageCount(page) <= maximum + 1
    ensures start > 0 ==> MessageCount(page) >= maximum
    ensures EndsBefore(page, end)
    ensures page != [] ==> page[0].sequence == start
  {
    var stop := BackOverMessages(events, end, maximum);
    start := BackToTurnStart(events, stop);
    if end > 0 {
      AtMostOneMore(events, stop, end);
    }
    page := events[start..end];
    hasMore := start > 0;
  }

  function Flatten(pages: seq<seq<Event>>): seq<Event> {
    if pages == [] then [] else pages[0] + Flatten(pages[1..])
  }

  /** A page opens a turn and holds at most one message over its size. */
  ghost predicate GoodPage(page: seq<Event>, maximum: nat) {
    page != [] && page[0].body.TurnStart? && MessageCount(page) <= maximum + 1
  }

  /** The pages show the events from `start` on, all but perhaps the oldest filled up to their size. */
  ghost predicate Paged(events: seq<Event>, start: nat, maximum: nat, pages: seq<seq<Event>>) {
    && start <= |events| && Flatten(pages) == events[start..]
    && (forall i :: 0 <= i < |pages| ==> GoodPage(pages[i], maximum))
    && forall i :: 0 <= i < |pages| && (i > 0 || start > 0) ==> MessageCount(pages[i]) >= maximum
  }

  lemma OlderPage(events: seq<Event>, start: nat, end: nat, maximum: nat, pages: seq<seq<Event>>)
    requires start <= end && Paged(events, end, maximum, pages) && (end > 0 || pages == [])
    requires GoodPage(events[start..end], maximum) && (start > 0 ==> MessageCount(events[start..end]) >= maximum)
    ensures Paged(events, start, maximum, [events[start..end]] + pages)
  {
    var older := [events[start..end]] + pages;
    assert older[1..] == pages;
    assert events[start..] == events[start..end] + events[end..];
    assert forall i :: 0 < i < |older| ==> older[i] == pages[i - 1];
  }

  /** A client that asks for the newest page and then for what comes before it, until nothing is left, sees every
      event exactly once and in order; all its pages but the oldest are filled up to their size. */
  method PageBackToStart(messages: seq<Message>, maximum: nat) returns (pages: seq<seq<Event>>)
    requires maximum >= 1
    ensures Flatten(pages) == Events(messages)
    ensures forall i :: 0 <= i < |pages| ==> GoodPage(pages[i], maximum)
    ensures forall i :: 0 < i < |pages| ==> MessageCount(pages[i]) >= maximum
  {
    pages := [];
    if messages == [] {
      return;
    }
    var page, hasMore, start := NextPage(messages, None, maximum, 3 * |messages|, pages);
    pages := [page];
    while hasMore
      invariant hasMore == (start > 0) && page != [] && page[0].sequence == start
      invariant Paged(Events(messages), start, maximum, pages)
      decreases start
    {
      ghost var end := start;
      page, hasMore, start := NextPage(messages, Some(page[0].sequence), maximum, end, pages);
      pages := [page] + pages;
    }
  }

  /** The page before those already shown. */
  method NextPage(messages: seq<Message>, cursor: Option<nat>, maximum: nat, ghost end: nat,
                  ghost pages: seq<seq<Event>>)
    returns (page: seq<Event>, hasMore: bool, start: nat)
    requires maximum >= 1 && end > 0 && Paged(Events(messages), end, maximum, pages)
    requires cursor == Some(end) || (cursor == None && end == 3 * |messages|)
    ensures start < end && hasMore == (start > 0) && page != [] && page[0].sequence == start
    ensures Paged(Events(messages), start, maximum, [page] + pages)
  {
    page, hasMore, start := HistoryPage(messages, cursor, maximum);
    OlderPage(Events(messages), start, end, maximum, pages);
  }

  // ------------------------------------------------------------------
  // Incremental publication
  // ------------------------------------------------------------------

  const MAX_PENDING_EVENTS: nat := 256

  /** What the chat session answers to a prompt or to an approval. */
  datatype Completion = Reply(text: string) | AwaitsApproval | Fails

  /** Where a call ended. A full event queue aborts the call on the spot. */
  datatype Outcome = Accepted | Refused | QueueFull(stage: Stage)

  datatype Stage = Status | SessionEvents | Approval

  /** Everything published, in order, is an event of the history at its own number. */
  ghost predicate PublishedInOrder(history: seq<Message>, published: seq<Event>) {
    forall sent {:trigger InOrder(history, sent)} :: sent == published ==> InOrder(history, sent)
  }

  /** (Said of whatever equals `published`, so that only a proof that names InOrder looks inside; Covers likewise.) */
  ghost predicate InOrder(history: seq<Message>, published: seq<Event>) {
    && (forall k :: 0 <= k < |published| ==>
          published[k].sequence < |Events(history)| && Events(history)[published[k].sequence] == published[k])
    && (forall j, k :: 0 <= j < k < |published| ==> published[j].sequence < published[k].sequence)
  }

  /** Everything from event `base` on has been published, once and in order. */
  ghost predicate Complete(history: seq<Message>, base: nat, published: seq<Event>) {
    forall sent {:trigger Covers(history, base, sent)} :: sent == published ==> Covers(history, base, sent)
  }

  ghost predicate Covers(history: seq<Message>, base: nat, published: seq<Event>) {
    base <= |history| && published == Events(history)[3 * base..]
  }

  lemma GrowingHistoryKeepsPublished(history: seq<Message>, more: seq<Message>, published: seq<Event>)
    requires PublishedInOrder(history, published)
    ensures PublishedInOrder(history + more, published)
  {
    assert InOrder(history, published);
    assert (history + more)[..|history|] == history;
    ClosedFormCountsEvents(history + more, |history|);
  }

  /** Completeness after more publications needs completeness before them: a hole left by
      an unpublished event never closes. */
  lemma HolesStay(history: seq<Message>, base: nat, published: seq<Event>, more: seq<Message>, sent: nat)
    requires base <= |history| && PublishedInOrder(history, published)
    requires sent <= 3 * |more|
    requires Complete(history + more, base, published + Events(history + more)[3 * |history|..][..sent])
    ensures Complete(history, base, published)
  {
    assert InOrder(history, published)
        && Covers(history + more, base, published + Events(history + more)[3 * |history|..][..sent]);
    var grown := history + more;
    var tail := Events(grown)[3 * |history|..][..sent];
    var all := Events(grown)[3 * base..];
    assert grown[..|history|] == history;
    ClosedFormCountsEvents(grown, |history|);
    assert all[..|published|] == published by { assert (published + tail)[..|published|] == published; }
    if published != [] {
      assert all[|published| - 1].sequence == 3 * base + |published| - 1;
      assert published[|published| - 1].sequence < 3 * |history|;
    }
    assert |published| == 3 * (|history| - base);
    assert all[..|published|] == Events(history)[3 * base..];
  }

  // ------------------------------------------------------------------
  // Who speaks
  // ------------------------------------------------------------------

  /** The roles that the generator takes for granted: it never looks at them. */
  predicate Alternates(messages: seq<Message>) {
    forall i :: 0 <= i < |messages| ==> messages[i].role == if i % 2 == 0 then User else Assistant
  }

  predicate KindFits(body: Body) {
    match body
    case UserMessage(_, message) => message.role == User
    case AssistantMessage(_, _, message) => message.role == Assistant
    case _ => true
  }

  /** Every message event carries a message of its own kind. */
  ghost predicate KindsFit(events: seq<Event>) {
    forall k :: 0 <= k < |events| ==> KindFits(events[k].body)
  }

  /** ... exactly if user and assistant take turns, the user first. */
  lemma KindsFitAlternation(messages: seq<Message>)
    ensures KindsFit(Events(messages)) <==> Alternates(messages)
  {
    var events := Events(messages);
    if KindsFit(events) {
      forall i | 0 <= i < |messages| ensures messages[i].role == if i % 2 == 0 then User else Assistant {
        var k := if i % 2 == 0 then 3 * i + 1 else 3 * i;
        assert k / 3 == i && events[k].body == BodiesOf(i, messages[i])[k % 3];
        assert KindFits(events[k].body);
      }
    }
    if Alternates(messages) {
      forall k | 0 <= k < |events| ensures KindFits(events[k].body) {
        assert events[k].body == BodiesOf(k / 3, messages[k / 3])[k % 3];
      }
    }
  }

  /** Taking turns goes on exactly if the next to speak is the one whose turn it is. */
  lemma TurnTaking(messages: seq<Message>, next: Message)
    ensures Alternates(messages + [next]) <==>
            Alternates(messages) && next.role == if |messages| % 2 == 0 then User else Assistant
  {
    if Alternates(messages + [next]) {
      assert (messages + [next])[|messages|] == next;
      forall i | 0 <= i < |messages| ensures messages[i] == (messages + [next])[i] {
      }
    }
  }

  /** What a prompt adds to the history. */
  function Added(content: string, answer: Completion, outcome: Outcome): seq<Message> {
    if outcome == Refused then []
    else if outcome == QueueFull(Status) || !answer.Reply? then [Message(User, content)]
    else [Message(User, content), Message(Assistant, answer.text)]
  }

  lemma AddedTakesTurns(messages: seq<Message>, content: string, answer: Completion, outcome: Outcome)
    ensures var more := Added(content, answer, outcome);
            && (Alternates(messages + more) <==>
                  Alternates(messages) && (outcome == Refused || |messages| % 2 == 0))
            && |messages + more| % 2 == (|messages| + |more|) % 2
  {
    var user := Message(User, content);
    TurnTaking(messages, user);
    if answer.Reply? {
      TurnTaking(messages + [user], Message(Assistant, answer.text));
      assert messages + [user] + [Message(Assistant, answer.text)]
          == messages + [user, Message(Assistant, answer.text)];
    }
    assert messages + [] == messages;
  }

  // ------------------------------------------------------------------
  // What decides: the queues before the call
  // ------------------------------------------------------------------

  /** As much of the host as decides what a call does: how full its queues are, the active session, whether a
      decision is awaited, whether the number of messages is odd, whether user and assistant took turns, and
      whether every session event was published. */
  datatype Desk = Desk(mux: nat, host: nat, session: Option<string>, pending: bool,
                       odd: bool, inTurn: bool, complete: bool)
  {
    predicate Valid() {
      mux <= MAX_PENDING_EVENTS && host <= MAX_PENDING_EVENTS
    }

    /** User and assistant took turns so far, and the user's last message is unanswered exactly while a decision
        is awaited. */
    predicate InStep() {
      inTurn && (odd <==> pending)
    }
  }

  /** A queue takes what fits. */
  function Queued(length: nat, more: nat): nat {
    if length + more <= MAX_PENDING_EVENTS then length + more else MAX_PENDING_EVENTS
  }

  /** The session events of a prompt: three for each message. */
  function NewEvents(answer: Completion): nat {
    match answer case Reply(_) => 6 case AwaitsApproval => 3 case Fails => 0
  }

  /** A prompt on an idle session needs two places for status events, then places for its session events, then one
      for the approval request. */
  function PromptOutcome(desk: Desk, answer: Completion): Outcome {
    if desk.host + 2 > MAX_PENDING_EVENTS then QueueFull(Status)
    else if answer.Fails? then Refused
    else if desk.mux + NewEvents(answer) > MAX_PENDING_EVENTS then QueueFull(SessionEvents)
    else if answer.AwaitsApproval? && desk.mux + 4 > MAX_PENDING_EVENTS then QueueFull(Approval)
    else Accepted
  }

  /** ... and leaves this behind. */
  function AfterPrompt(desk: Desk, answer: Completion): Desk {
    var outcome := PromptOutcome(desk, answer);
    if outcome == QueueFull(Status) then
      desk.(host := MAX_PENDING_EVENTS, odd := !desk.odd, inTurn := desk.inTurn && !desk.odd, complete := false)
    else if answer.Fails? then desk.(host := desk.host + 2)
    else
      desk.(host := desk.host + 2,
            mux := Queued(desk.mux, NewEvents(answer) + if answer.AwaitsApproval? then 1 else 0),
            pending := answer.AwaitsApproval? && outcome != QueueFull(SessionEvents),
            odd := if answer.Reply? then desk.odd else !desk.odd,
            inTurn := desk.inTurn && !desk.odd,
            complete := desk.complete && outcome != QueueFull(SessionEvents))
  }

  /** A decision that is taken needs one place for its resolution, then one for the error of a failed tool, or
      three for the events of a reply, then one for the next request. */
  function DecisionOutcome(desk: Desk, reply: Option<string>, again: bool, failed: bool): Outcome {
    if desk.mux + 1 > MAX_PENDING_EVENTS then QueueFull(Approval)
    else if failed then if desk.mux + 2 > MAX_PENDING_EVENTS then QueueFull(Approval) else Accepted
    else if reply.Some? && desk.mux + 4 > MAX_PENDING_EVENTS then QueueFull(SessionEvents)
    else if again && desk.mux + (if reply.Some? then 5 else 2) > MAX_PENDING_EVENTS then QueueFull(Approval)
    else Accepted
  }

  function AfterDecision(desk: Desk, reply: Option<string>, again: bool, failed: bool): Desk {
    var taken := desk.(pending := false);
    if desk.mux + 1 > MAX_PENDING_EVENTS then taken
    else if failed then taken.(mux := Queued(desk.mux, 2))
    else if reply.None? then taken.(pending := again, mux := Queued(desk.mux, if again then 2 else 1))
    else
      var lost := desk.mux + 4 > MAX_PENDING_EVENTS;
      taken.(pending := again && !lost, mux := Queued(desk.mux, if again then 5 else 4),
             odd := !desk.odd, inTurn := desk.inTurn && desk.odd, complete := desk.complete && !lost)
  }

  /** Another session starts a new publication from its stored messages. */
  function Switched(desk: Desk, sessionId: string, stored: seq<Message>): Desk {
    desk.(session := Some(sessionId), pending := false, odd := |stored| % 2 == 1, inTurn := Alternates(stored),
          complete := true)
  }

  /** The calls that touch the history, the approval or the queues. */
  datatype WebCall =
    | Prompted(sessionId: string, content: string, stored: Option<seq<Message>>, answer: Completion)
    | Responded(matches: bool, reply: Option<string>, again: bool, failed: bool)
    | Created(sessionId: string, made: bool)
    | Announced
    | TookEvents(mux: bool, count: nat)

  function Next(desk: Desk, call: WebCall): Desk {
    match call
    case Prompted(sessionId, _, stored, answer) =>
      if desk.pending || (desk.session != Some(sessionId) && stored.None?) then desk
      else if desk.session == Some(sessionId) then AfterPrompt(desk, answer)
      else AfterPrompt(Switched(desk, sessionId, stored.value), answer)
    case Responded(matches, reply, again, failed) =>
      if desk.pending && matches then AfterDecision(desk, reply, again, failed) else desk
    case Created(sessionId, made) =>
      if desk.pending || !made then desk
      else
        Switched(desk, sessionId, []).(host := Queued(desk.host, 1),
                                       mux := if desk.host + 1 > MAX_PENDING_EVENTS then desk.mux
                                              else Queued(desk.mux, 1))
    case Announced => desk.(host := Queued(desk.host, 1))
    case TookEvents(mux, count) =>
      if !mux then desk.(host := if count < desk.host then desk.host - count else 0)
      else if desk.mux == 0 && desk.pending then desk.(mux := if count == 0 then 1 else 0)
      else desk.(mux := if count < desk.mux then desk.mux - count else 0)
  }

  function After(desk: Desk, calls: seq<WebCall>): Desk {
    if calls == [] then desk else Next(After(desk, calls[..|calls| - 1]), calls[|calls| - 1])
  }

  /** The call goes to the session that is active, or to none. */
  predicate StaysOn(call: WebCall, sessionId: string) {
    match call case Prompted(id, _, _, _) => id == sessionId case Created(_, _) => false case _ => true
  }

  /** A call on the active session publishes all its events exactly if there is room for them: a prompt that is not
      refused needs two places in one queue and three for each of its messages in the other, and the reply to a
      decision needs four. (With no place at all the decision is dropped before its reply gets to the history.) */
  predicate HasRoom(desk: Desk, call: WebCall) {
    match call
    case Prompted(_, _, _, answer) =>
      desk.pending
      || (desk.host + 2 <= MAX_PENDING_EVENTS && desk.mux + NewEvents(answer) <= MAX_PENDING_EVENTS)
    case Responded(matches, reply, _, failed) =>
      desk.pending && matches && !failed && reply.Some? ==>
        desk.mux + 4 <= MAX_PENDING_EVENTS || desk.mux == MAX_PENDING_EVENTS
    case _ => true
  }

  /** Every call, where the ones before it have led. */
  ghost predicate Always(holds: (Desk, WebCall) -> bool, desk: Desk, calls: seq<WebCall>) {
    forall k :: 0 <= k < |calls| ==> holds(After(desk, calls[..k]), calls[k])
  }

  lemma AlwaysGrows(holds: (Desk, WebCall) -> bool, desk: Desk, calls: seq<WebCall>, call: WebCall)
    ensures Always(holds, desk, calls + [call]) <==> Always(holds, desk, calls) && holds(After(desk, calls), call)
  {
    var more := calls + [call];
    assert forall k :: 0 <= k < |calls| ==> more[k] == calls[k] && more[..k] == calls[..k];
    assert more[|calls|] == call && more[..|calls|] == calls;
    if Always(holds, desk, more) {
      forall k | 0 <= k < |calls| ensures holds(After(desk, calls[..k]), calls[k]) {
        assert holds(After(desk, more[..k]), more[k]);
      }
    }
  }

  ghost predicate StayOn(calls: seq<WebCall>, sessionId: string) {
    forall k :: 0 <= k < |calls| ==> StaysOn(calls[k], sessionId)
  }

  /** The call adds no message out of turn: a user's when an answer is due, or an answer when none is. */
  predicate InTurn(desk: Desk, call: WebCall) {
    match call
    case Prompted(_, _, _, answer) =>
      desk.pending || !desk.odd || (answer.Fails? && desk.host + 2 <= MAX_PENDING_EVENTS)
    case Responded(matches, reply, _, failed) =>
      desk.pending && matches && !failed && reply.Some? && desk.mux < MAX_PENDING_EVENTS ==> desk.odd
    case _ => true
  }

  lemma OneCallOn(desk: Desk, call: WebCall, sessionId: string)
    requires desk.Valid() && desk.session == Some(sessionId) && StaysOn(call, sessionId)
    ensures Next(desk, call).Valid() && Next(desk, call).session == desk.session
    ensures Next(desk, call).complete <==> desk.complete && HasRoom(desk, call)
    ensures Next(desk, call).inTurn <==> desk.inTurn && InTurn(desk, call)
  {
  }

  /** Over any calls on one session, all its events are published exactly if every call found room for its own, and
      the roles alternate exactly if no call added a message out of turn. */
  lemma {:induction false} RunsOnOneSession(desk: Desk, calls: seq<WebCall>, sessionId: string)
    requires desk.Valid() && desk.session == Some(sessionId) && StayOn(calls, sessionId)
    ensures After(desk, calls).Valid() && After(desk, calls).session == desk.session
    ensures After(desk, calls).complete <==> desk.complete && Always(HasRoom, desk, calls)
    ensures After(desk, calls).inTurn <==> desk.inTurn && Always(InTurn, desk, calls)
  {
    if calls != [] {
      var before, call := calls[..|calls| - 1], calls[|calls| - 1];
      assert calls == before + [call];
      RunsOnOneSession(desk, before, sessionId);
      OneCallOn(After(desk, before), call, sessionId);
      AlwaysGrows(HasRoom, desk, before, call);
      AlwaysGrows(InTurn, desk, before, call);
    }
  }

  /** The call leaves no user message unanswered without a decision to wait for, and answers none that was
      answered: a prompt needs its status places, and those of its message if it waits for a decision; a decision
      needs a place, must not fail, and must lead to a reply or to the next request but not to both. */
  predicate StepsOn(desk: Desk, call: WebCall) {
    match call
    case Prompted(_, _, _, answer) =>
      desk.pending
      || (desk.host + 2 <= MAX_PENDING_EVENTS && (answer.AwaitsApproval? ==> desk.mux + 3 <= MAX_PENDING_EVENTS))
    case Responded(matches, reply, again, failed) =>
      desk.pending && matches ==>
        && desk.mux < MAX_PENDING_EVENTS && !failed
        && (if reply.Some? then !again || desk.mux + 4 > MAX_PENDING_EVENTS else again)
    case _ => true
  }

  lemma StaysInStep(desk: Desk, call: WebCall, sessionId: string)
    requires desk.Valid() && desk.session == Some(sessionId) && StaysOn(call, sessionId) && desk.InStep()
    ensures Next(desk, call).InStep() <==> StepsOn(desk, call)
  {
  }

  class WebHost {
    var history: seq<Message>
    var session: Option<string>
    var pendingApproval: Option<string>   // the session that owns the approval
    var muxQueued: nat
    var hostQueued: nat
    /** Session events handed to the Mux queue since this session was activated. */
    var published: seq<Event>
    /** How many messages the active session was loaded with. */
    ghost var base: nat

    ghost predicate Valid()
      reads this
    {
      && base <= |history| && PublishedInOrder(history, published)
      && muxQueued <= MAX_PENDING_EVENTS && hostQueued <= MAX_PENDING_EVENTS
    }

    ghost function View(): Desk
      reads this
    {
      Desk(muxQueued, hostQueued, session, pendingApproval.Some?, |history| % 2 == 1, Alternates(history),
           AllPublished())
    }

    ghost predicate AllPublished()
      reads this
    {
      Complete(history, base, published)
    }

    constructor ()
      ensures Valid() && View() == Desk(0, 0, None, false, false, true, true) && history == []
    {
      history, session, pendingApproval := [], None, None;
      muxQueued, hostQueued, published, base := 0, 0, [], 0;
    }

    /** The transport takes up to `count` events of one channel; an approval that is still awaited is shown again
        when there is nothing else. */
    method TakeEvents(mux: bool, count: nat) returns (taken: nat)
      requires Valid()
      modifies this`muxQueued, this`hostQueued, this`pendingApproval
      ensures Valid() && View() == Next(old(View()), TookEvents(mux, count))
      ensures pendingApproval == old(pendingApproval) && taken <= count
    {
      if !mux {
        taken := if count < hostQueued then count else hostQueued;
        hostQueued := hostQueued - taken;
        return;
      }
      taken := if count < muxQueued then count else muxQueued;
      muxQueued := muxQueued - taken;
      if taken == 0 && pendingApproval.Some? && muxQueued == 0 {
        var ok := PublishPendingApproval(pendingApproval.value);
        taken := if count < muxQueued then count else muxQueued;
        muxQueued := muxQueued - taken;
      }
    }

    /** Another host event, as for changed settings. */
    method Announce() returns (ok: bool)
      requires Valid()
      modifies this`hostQueued
      ensures Valid() && View() == Next(old(View()), Announced)
      ensures ok == (old(hostQueued) < MAX_PENDING_EVENTS)
    {
      ok := PublishSessionStatus();
    }

    method PublishSessionStatus() returns (ok: bool)
      modifies this`hostQueued
      ensures ok == (old(hostQueued) < MAX_PENDING_EVENTS)
      ensures hostQueued == old(hostQueued) + (if ok then 1 else 0)
    {
      ok := hostQueued < MAX_PENDING_EVENTS;
      if ok {
        hostQueued := hostQueued + 1;
      }
    }

    /** Running before the session completes the prompt, and idle again after it. */
    method PublishStatuses() returns (ok: bool)
      requires hostQueued <= MAX_PENDING_EVENTS
      modifies this`hostQueued
      ensures ok == (old(hostQueued) + 2 <= MAX_PENDING_EVENTS) && hostQueued == Queued(old(hostQueued), 2)
    {
      ok := PublishSessionStatus();
      if ok {
        ok := PublishSessionStatus();
      }
    }

    /** Publishes the events of the messages from `start` on; stops at a full queue. */
    method PublishTurnEvents(start: nat) returns (ok: bool)
      requires start <= |history| && muxQueued <= MAX_PENDING_EVENTS
      modifies this`muxQueued, this`published
      ensures var news := Events(history)[3 * start..];
              && ok == (old(muxQueued) + |news| <= MAX_PENDING_EVENTS)
              && muxQueued == Queued(old(muxQueued), |news|)
              && published == old(published) + news[..muxQueued - old(muxQueued)]
    {
      var events := SessionEventValues(history);
      ClosedFormCountsEvents(history, start);
      assert forall k :: 0 <= k < |events| ==> events[k].sequence == k;
      ok := PublishFrom(events, FirstEventSeqForMessage(start));
    }

    method PublishFrom(events: seq<Event>, firstSeq: nat) returns (ok: bool)
      requires firstSeq <= |events| && forall k :: 0 <= k < |events| ==> events[k].sequence == k
      requires muxQueued <= MAX_PENDING_EVENTS
      modifies this`muxQueued, this`published
      ensures ok == (old(muxQueued) + |events| - firstSeq <= MAX_PENDING_EVENTS)
      ensures muxQueued == Queued(old(muxQueued), |events| - firstSeq)
      ensures published == old(published) + events[firstSeq..][..muxQueued - old(muxQueued)]
    {
      ghost var news := events[firstSeq..];
      ghost var sent := 0;
      for k := 0 to |events|
        invariant sent == if k <= firstSeq then 0 else k - firstSeq
        invariant muxQueued == old(muxQueued) + sent <= MAX_PENDING_EVENTS
        invariant published == old(published) + news[..sent]
      {
        if events[k].sequence >= firstSeq {
          if muxQueued >= MAX_PENDING_EVENTS {
            return false;
          }
          assert news[..sent + 1] == news[..sent] + [events[k]];
          published := published + [events[k]];
          muxQueued := muxQueued + 1;
          sent := sent + 1;
        }
      }
      assert news[..|news|] == news;
      return true;
    }

    method PublishPendingApproval(sessionId: string) returns (ok: bool)
      modifies this`pendingApproval, this`muxQueued
      ensures pendingApproval == (if old(pendingApproval).Some? then old(pendingApproval) else Some(sessionId))
      ensures ok == (old(muxQueued) < MAX_PENDING_EVENTS)
      ensures muxQueued == old(muxQueued) + (if ok then 1 else 0)
    {
      if pendingApproval.None? {
        pendingApproval := Some(sessionId);
      }
      ok := muxQueued < MAX_PENDING_EVENTS;
      if ok {
        muxQueued := muxQueued + 1;
      }
    }

    /** Activating another session starts a new publication from its stored messages. */
    method EnsureWebSession(sessionId: string, stored: Option<seq<Message>>) returns (ok: bool)
      requires Valid()
      modifies this
      ensures Valid() && ok == (old(session) == Some(sessionId) || stored.Some?)
      ensures old(session) == Some(sessionId) ==>
                && View() == old(View()) && history == old(history) && published == old(published)
                && base == old(base) && pendingApproval == old(pendingApproval)
      ensures old(session) != Some(sessionId) && ok ==>
                && View() == Switched(old(View()), sessionId, stored.value)
                && history == stored.value && published == [] && base == |history|
      ensures !ok ==> View() == old(View()) && history == old(history) && published == old(published)
                      && base == old(base) && pendingApproval == old(pendingApproval)
    {
      if session == Some(sessionId) {
        return true;
      }
      if stored.None? {
        return false;
      }
      StartPublication(sessionId, stored.value);
      return true;
    }

    method StartPublication(sessionId: string, messages: seq<Message>)
      modifies this`history, this`session, this`pendingApproval, this`published, this`base
      ensures history == messages && session == Some(sessionId) && pendingApproval == None
      ensures published == [] && base == |history|
      ensures PublishedInOrder(history, published) && Complete(history, base, published)
    {
      history, session, pendingApproval := messages, Some(sessionId), None;
      published, base := [], |messages|;
    }

    /** `session.create`: a new blank session, announced on both channels. */
    method CreateSession(sessionId: string, made: bool) returns (outcome: Outcome)
      requires Valid()
      modifies this
      ensures Valid() && View() == Next(old(View()), Created(sessionId, made))
      ensures outcome == Refused <==> old(pendingApproval).Some? || !made
      ensures outcome == Refused ==> history == old(history) && published == old(published) && base == old(base)
      ensures outcome != Refused ==> history == [] && published == [] && base == 0
      ensures outcome == Accepted <==>
                && old(pendingApproval).None? && made
                && old(hostQueued) < MAX_PENDING_EVENTS && old(muxQueued) < MAX_PENDING_EVENTS
    {
      if pendingApproval.Some? || !made {
        return Refused;
      }
      StartPublication(sessionId, []);
      if hostQueued >= MAX_PENDING_EVENTS {
        return QueueFull(Status);
      }
      hostQueued := hostQueued + 1;
      if muxQueued >= MAX_PENDING_EVENTS {
        return QueueFull(SessionEvents);
      }
      muxQueued := muxQueued + 1;
      return Accepted;
    }

    /** The part of a prompt after its session is active and idle. */
    method CompletePrompt(sessionId: string, content: string, answer: Completion) returns (outcome: Outcome)
      requires Valid() && pendingApproval.None?
      modifies this
      ensures Valid() && base == old(base) && session == old(session)
      ensures outcome == PromptOutcome(old(View()), answer)
      ensures View() == AfterPrompt(old(View()), answer)
      ensures history == old(history) + Added(content, answer, outcome)
      ensures outcome == Refused ==> published == old(published)
      ensures pendingApproval.Some? ==> pendingApproval == Some(sessionId)
    {
      ghost var was := history;
      var previousLength := |history|;
      history := history + [Message(User, content)];
      NothingSentLeavesHole(was, base, published, [Message(User, content)]);
      AddedTakesTurns(was, content, answer, PromptOutcome(View(), answer));
      var ok := PublishStatuses();
      if !ok {
        return QueueFull(Status);
      }
      if answer.Fails? {
        history := history[..previousLength];
        assert history == was;
        return Refused;
      }
      outcome := PublishAnswer(sessionId, content, answer, previousLength, was);
    }

    /** The session has answered, or asked for a decision. */
    method PublishAnswer(sessionId: string, content: string, answer: Completion, previousLength: nat,
                         ghost was: seq<Message>)
      returns (outcome: Outcome)
      requires previousLength == |was|
      requires history == was + [Message(User, content)] && base <= |was| && PublishedInOrder(was, published)
      requires muxQueued <= MAX_PENDING_EVENTS && pendingApproval.None? && !answer.Fails?
      modifies this`history, this`muxQueued, this`pendingApproval, this`published
      ensures history == was + Added(content, answer, Accepted) && PublishedInOrder(history, published)
      ensures AllPublished() <==>
                old(Complete(was, base, published)) && old(muxQueued) + NewEvents(answer) <= MAX_PENDING_EVENTS
      ensures muxQueued == Queued(old(muxQueued), NewEvents(answer) + if answer.AwaitsApproval? then 1 else 0)
      ensures outcome == if old(muxQueued) + NewEvents(answer) > MAX_PENDING_EVENTS then QueueFull(SessionEvents)
                         else if answer.AwaitsApproval? && old(muxQueued) + 4 > MAX_PENDING_EVENTS
                         then QueueFull(Approval) else Accepted
      ensures pendingApproval ==
              if answer.AwaitsApproval? && outcome != QueueFull(SessionEvents) then Some(sessionId) else None
    {
      ghost var sentBefore := published;
      if answer.Reply? {
        history := history + [Message(Assistant, answer.text)];
      }
      ghost var more := Added(content, answer, Accepted);
      assert history == was + more;
      var ok := PublishTurnEvents(previousLength);
      PublishedGrows(was, base, sentBefore, more, |published| - |sentBefore|);
      if !ok {
        return QueueFull(SessionEvents);
      }
      if answer.AwaitsApproval? {
        ok := PublishPendingApproval(sessionId);
        return if ok then Accepted else QueueFull(Approval);
      }
      return Accepted;
    }

    /** One prompt. It is refused while a decision is awaited or if its session cannot be loaded; otherwise the
        queues before it decide where it ends. */
    method Prompt(sessionId: string, content: string, stored: Option<seq<Message>>, answer: Completion)
      returns (outcome: Outcome)
      requires Valid()
      modifies this
      ensures Valid() && View() == Next(old(View()), Prompted(sessionId, content, stored, answer))
      ensures outcome == if old(pendingApproval).Some? || (old(session) != Some(sessionId) && stored.None?) then Refused
                         else PromptOutcome(old(View()), answer)
      ensures old(session) == Some(sessionId) || old(pendingApproval).Some? ==> base == old(base)
      ensures old(session) == Some(sessionId) && old(pendingApproval).None? ==>
                history == old(history) + Added(content, answer, outcome)
      ensures old(session) == Some(sessionId) && old(pendingApproval).None? ==>
                (AllPublished() <==>
                   && old(AllPublished()) && old(hostQueued) + 2 <= MAX_PENDING_EVENTS
                   && old(muxQueued) + NewEvents(answer) <= MAX_PENDING_EVENTS)
      ensures old(session) == Some(sessionId) && outcome == Refused ==>
                history == old(history) && published == old(published)
      ensures old(pendingApproval).None? && pendingApproval.Some? ==> pendingApproval == Some(sessionId)
    {
      if pendingApproval.Some? && session != Some(sessionId) {
        return Refused;
      }
      var ready := EnsureWebSession(sessionId, stored);
      if !ready || pendingApproval.Some? {
        return Refused;
      }
      outcome := CompletePrompt(sessionId, content, answer);
    }

    /** The reply that ends a turn. */
    method PublishReply(text: string) returns (ok: bool)
      requires Valid()
      modifies this`history, this`muxQueued, this`published
      ensures Valid() && history == old(history) + [Message(Assistant, text)]
      ensures ok == (old(muxQueued) + 3 <= MAX_PENDING_EVENTS) && muxQueued == Queued(old(muxQueued), 3)
      ensures AllPublished() <==> old(AllPublished()) && ok
      ensures Alternates(history) <==> old(Alternates(history)) && |old(history)| % 2 == 1
    {
      ghost var was, sentBefore := history, published;
      TurnTaking(history, Message(Assistant, text));
      history := history + [Message(Assistant, text)];
      ok := PublishTurnEvents(|history| - 1);
      PublishedGrows(was, base, sentBefore, [Message(Assistant, text)], |published| - |sentBefore|);
    }

    /** Resolving an approval: a reply ends the turn, `again` asks for the next decision. */
    method Respond(matches: bool, reply: Option<string>, again: bool, failed: bool) returns (outcome: Outcome)
      requires Valid()
      modifies this
      ensures Valid() && base == old(base) && session == old(session)
      ensures View() == Next(old(View()), Responded(matches, reply, again, failed))
      ensures outcome == if old(pendingApproval).None? || !matches then Refused
                         else DecisionOutcome(old(View()), reply, again, failed)
      ensures outcome == Refused ==> history == old(history) && published == old(published)
      ensures history == if old(pendingApproval).Some? && matches && !failed && reply.Some?
                            && old(muxQueued) < MAX_PENDING_EVENTS
                         then old(history) + [Message(Assistant, reply.value)] else old(history)
      ensures pendingApproval.Some? ==> pendingApproval == old(pendingApproval)
    {
      if pendingApproval.None? || !matches {
        return Refused;
      }
      var owner := pendingApproval.value;
      pendingApproval := None;
      if muxQueued >= MAX_PENDING_EVENTS {
        return QueueFull(Approval);
      }
      muxQueued := muxQueued + 1;
      if failed {
        if muxQueued >= MAX_PENDING_EVENTS {
          return QueueFull(Approval);
        }
        muxQueued := muxQueued + 1;
        return Accepted;
      }
      if reply.Some? {
        var ok := PublishReply(reply.value);
        if !ok {
          return QueueFull(SessionEvents);
        }
      }
      if again {
        var ok := PublishPendingApproval(owner);
        if !ok {
          return QueueFull(Approval);
        }
      }
      return Accepted;
    }
  }

  method PerformOne(host: WebHost, call: WebCall)
    requires host.Valid()
    modifies host
    ensures host.Valid() && host.View() == Next(old(host.View()), call)
  {
    match call
    case Prompted(sessionId, content, stored, answer) =>
      var _ := host.Prompt(sessionId, content, stored, answer);
    case Responded(matches, reply, again, failed) =>
      var _ := host.Respond(matches, reply, again, failed);
    case Created(sessionId, made) =>
      var _ := host.CreateSession(sessionId, made);
    case Announced =>
      var _ := host.Announce();
    case TookEvents(mux, count) =>
      var _ := host.TakeEvents(mux, count);
  }

  /** Any sequence of calls, sessions and all: the host does what the desk says. On one session that means: every event
      is published, once and in order, if and only if each call found room in the queues for its own events; and the
      event kinds fit the roles if and only if no call added a message out of turn. */
  method PerformAll(host: WebHost, calls: seq<WebCall>)
    requires host.Valid()
    modifies host
    ensures host.Valid() && host.View() == After(old(host.View()), calls)
    ensures forall sessionId :: old(host.session) == Some(sessionId) && StayOn(calls, sessionId) ==>
              && (host.AllPublished() <==> old(host.AllPublished()) && Always(HasRoom, old(host.View()), calls))
              && (KindsFit(Events(host.history)) <==>
                    old(KindsFit(Events(host.history))) && Always(InTurn, old(host.View()), calls))
  {
    ghost var before := host.View();
    KindsFitAlternation(host.history);
    for k := 0 to |calls|
      invariant host.Valid() && host.View() == After(before, calls[..k])
    {
      assert calls[..k + 1][..k] == calls[..k];
      PerformOne(host, calls[k]);
    }
    assert calls[..|calls|] == calls;
    KindsFitAlternation(host.history);
    forall sessionId | before.session == Some(sessionId) && StayOn(calls, sessionId)
      ensures host.AllPublished() <==> before.complete && Always(HasRoom, before, calls)
      ensures Alternates(host.history) <==> before.inTurn && Always(InTurn, before, calls)
    {
      RunsOnOneSession(before, calls, sessionId);
    }
  }

  /** Forty-three answered prompts that nobody takes the events of: the last one meets a full queue, and taking all
      events and prompting again does not bring back what it lost. */
  method FullQueueLosesEvents(sessionId: string, content: string, answer: string)
    returns (last: Outcome, next: Outcome, events: seq<Event>, published: seq<Event>)
    ensures last == QueueFull(SessionEvents) && next == Accepted && published != events
  {
    var host := new WebHost();
    var ok := host.EnsureWebSession(sessionId, Some([]));
    for k := 0 to 42
      invariant fresh(host) && host.Valid() && host.pendingApproval.None? && host.session == Some(sessionId)
      invariant host.muxQueued == 6 * k && host.hostQueued == 2 * k && host.base == 0
    {
      var outcome := host.Prompt(sessionId, content, None, Reply(answer));
    }
    last := host.Prompt(sessionId, content, None, Reply(answer));
    var taken := host.TakeEvents(true, MAX_PENDING_EVENTS);
    next := host.Prompt(sessionId, content, None, Reply(answer));
    events := SessionEventValues(host.history);
    published := host.published;
    assert !Covers(host.history, 0, published);
  }

  /** After a failed approval the next prompt is numbered as an answer: the events of the
      session no longer fit its messages. */
  method FailedApprovalBreaksKinds(sessionId: string, first: string, second: string, answer: string)
    returns (events: seq<Event>)
    ensures !KindsFit(events)
    ensures |events| == 9 && events[3].body == AssistantMessage(0, 1, Message(User, second))
  {
    var host := new WebHost();
    var ok := host.EnsureWebSession(sessionId, Some([]));
    var asked := host.Prompt(sessionId, first, None, AwaitsApproval);
    assert host.history == [Message(User, first)];
    var failed := host.Respond(true, None, false, true);
    var next := host.Prompt(sessionId, second, None, Reply(answer));
    assert host.history == [Message(User, first), Message(User, second), Message(Assistant, answer)];
    events := SessionEventValues(host.history);
    KindsFitAlternation(host.history);
  }

  /** Publishing a part of the new events keeps the order; publishing all of them keeps
      completeness; publishing fewer loses it. */
  lemma PublishedGrows(was: seq<Message>, base: nat, sentBefore: seq<Event>, more: seq<Message>, sent: nat)
    requires base <= |was| && PublishedInOrder(was, sentBefore) && sent <= 3 * |more|
    ensures var now := sentBefore + Events(was + more)[3 * |was|..][..sent];
            && PublishedInOrder(was + more, now)
            && (Complete(was + more, base, now) <==> Complete(was, base, sentBefore) && sent == 3 * |more|)
  {
    assert InOrder(was, sentBefore);
    PublishedJoins(was, sentBefore, more, sent);
    if Complete(was + more, base, sentBefore + Events(was + more)[3 * |was|..][..sent]) {
      HolesStay(was, base, sentBefore, more, sent);
      AllSentMeansAll(was, base, sentBefore, more, sent);
    }
    if Complete(was, base, sentBefore) && sent == 3 * |more| {
      NothingIsMissing(was, base, sentBefore, more);
    }
  }

  lemma PublishedJoins(was: seq<Message>, sentBefore: seq<Event>, more: seq<Message>, sent: nat)
    requires PublishedInOrder(was, sentBefore) && sent <= 3 * |more|
    ensures PublishedInOrder(was + more, sentBefore + Events(was + more)[3 * |was|..][..sent])
  {
    assert InOrder(was, sentBefore);
    var all := Events(was + more);
    var tail := all[3 * |was|..][..sent];
    GrowingHistoryKeepsPublished(was, more, sentBefore);
    forall k | 0 <= k < sent ensures tail[k] == all[3 * |was| + k] && tail[k].sequence == 3 * |was| + k {
    }
    forall k | 0 <= k < |sentBefore| ensures sentBefore[k].sequence < 3 * |was| {
    }
  }

  lemma AllSentMeansAll(was: seq<Message>, base: nat, sentBefore: seq<Event>, more: seq<Message>, sent: nat)
    requires Complete(was, base, sentBefore) && sent <= 3 * |more|
    requires Complete(was + more, base, sentBefore + Events(was + more)[3 * |was|..][..sent])
    ensures sent == 3 * |more|
  {
    assert Covers(was, base, sentBefore)
        && Covers(was + more, base, sentBefore + Events(was + more)[3 * |was|..][..sent]);
    assert |sentBefore + Events(was + more)[3 * |was|..][..sent]| == |sentBefore| + sent;
  }

  lemma NothingIsMissing(was: seq<Message>, base: nat, sentBefore: seq<Event>, more: seq<Message>)
    requires Complete(was, base, sentBefore)
    ensures Complete(was + more, base, sentBefore + Events(was + more)[3 * |was|..][..3 * |more|])
  {
    assert Covers(was, base, sentBefore);
    var all := Events(was + more);
    assert (was + more)[..|was|] == was;
    ClosedFormCountsEvents(was + more, |was|);
    assert sentBefore == all[3 * base..3 * |was|];
    assert all[3 * |was|..][..3 * |more|] == all[3 * |was|..];
    assert all[3 * base..] == all[3 * base..3 * |was|] + all[3 * |was|..];
  }

  lemma NothingSentLeavesHole(was: seq<Message>, base: nat, published: seq<Event>, more: seq<Message>)
    requires base <= |was| && PublishedInOrder(was, published) && more != []
    ensures PublishedInOrder(was + more, published) && !Complete(was + more, base, published)
  {
    assert InOrder(was, published);
    PublishedGrows(was, base, published, more, 0);
    assert published + Events(was + more)[3 * |was|..][..0] == published;
  }
}
