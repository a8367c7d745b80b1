/** The ticket entity of tickets/models.py and its notification-synchronising save. */
module Tickets {
  import opened Wrappers
  import opened Records
  import Trello
  import Slack

  // ---------------------------------------------------------------------------
  // Outcomes of the adapter calls a save makes
  // ---------------------------------------------------------------------------

  /** A create adapter either returns a pair of values (possibly the ("", "") sentinel) or raises. */
  datatype CreateOutcome = Returned(first: Option<string>, second: Option<string>) | Raised

  /** The message refresh either completes or raises; nothing in save catches it. */
  datatype UpdateOutcome = Completed | UpdateRaised

  /** The adapter invocations of one save, each with the ticket fields it is handed. */
  datatype Invocation =
    | CreateCard(ticket: TicketData)
    | CreateMessage(ticket: TicketData)
    | UpdateMessage(ticket: TicketData)
    | Persist(ticket: TicketData)

  /** The result of one save: the ticket's fields afterwards and the invocations, in order. */
  datatype SaveResult = SaveResult(ticket: TicketData, calls: seq<Invocation>)

  /** A created pair as a `Returned` outcome. */
  function ReturnedPair(p: (Option<string>, Option<string>)): CreateOutcome
  {
    Returned(p.0, p.1)
  }

  // ---------------------------------------------------------------------------
  // The decision table
  // ---------------------------------------------------------------------------

  /** The card step runs for a non-draft ticket whose card is not yet marked created. */
  predicate WantsCard(t: TicketData) { !t.content.draft && !t.card.created }

  /** The message step runs for a non-draft ticket whose message is not yet marked sent. */
  predicate WantsMessage(t: TicketData) { !t.content.draft && !t.message.sent }

  /** The refresh step runs whenever both message identifiers are truthy. */
  predicate HasMessage(t: TicketData) { Truthy(t.message.ts) && Truthy(t.message.channelId) }

  function AfterCard(t: TicketData, card: CreateOutcome): TicketData
  {
    if WantsCard(t) && card.Returned? then
      t.(card := CardState(true, card.first, card.second))
    else t
  }

  function AfterMessage(t: TicketData, message: CreateOutcome): TicketData
  {
    if WantsMessage(t) && message.Returned? then
      t.(message := MessageState(true, message.first, message.second))
    else t
  }

  /** The kinds of invocation, in the order a save makes them. */
  datatype Kind = CardCreate | MessageCreate | MessageUpdate | Persistence

  function KindOf(c: Invocation): Kind
  {
    match c
    case CreateCard(_) => CardCreate
    case CreateMessage(_) => MessageCreate
    case UpdateMessage(_) => MessageUpdate
    case Persist(_) => Persistence
  }

  function Rank(k: Kind): nat
  {
    match k
    case CardCreate => 0
    case MessageCreate => 1
    case MessageUpdate => 2
    case Persistence => 3
  }

  /** The kinds of a run of invocations, position by position. */
  function Kinds(calls: seq<Invocation>): (ks: seq<Kind>)
    ensures |ks| == |calls|
  {
    if |calls| == 0 then [] else [KindOf(calls[0])] + Kinds(calls[1..])
  }

  lemma {:induction false} KindsAppend(a: seq<Invocation>, b: seq<Invocation>)
    ensures Kinds(a + b) == Kinds(a) + Kinds(b)
  {
    if |a| == 0 {
      assert a + b == b;
    } else {
      assert (a + b)[0] == a[0];
      assert (a + b)[1..] == a[1..] + b;
      KindsAppend(a[1..], b);
    }
  }

  /** Each kind at most once, in the order card, message, refresh, persist. */
  predicate Ordered(calls: seq<Invocation>)
  {
    forall i, j :: 0 <= i < j < |calls| ==> Rank(KindOf(calls[i])) < Rank(KindOf(calls[j]))
  }

  predicate CreatesCard(calls: seq<Invocation>) { CardCreate in Kinds(calls) }
  predicate CreatesMessage(calls: seq<Invocation>) { MessageCreate in Kinds(calls) }
  predicate Updates(calls: seq<Invocation>) { MessageUpdate in Kinds(calls) }
  predicate Persists(calls: seq<Invocation>) { Persistence in Kinds(calls) }

  /** All invocations rank at least `k`. */
  predicate RanksFrom(calls: seq<Invocation>, k: nat)
  {
    forall i :: 0 <= i < |calls| ==> Rank(KindOf(calls[i])) >= k
  }

  lemma OrderedCons(c: Invocation, rest: seq<Invocation>)
    requires Ordered(rest) && RanksFrom(rest, Rank(KindOf(c)) + 1)
    ensures Ordered([c] + rest) && RanksFrom([c] + rest, Rank(KindOf(c)))
    ensures Kinds([c] + rest) == [KindOf(c)] + Kinds(rest)
  {
    var calls := [c] + rest;
    assert calls[1..] == rest;
    forall i, j | 0 <= i < j < |calls|
      ensures Rank(KindOf(calls[i])) < Rank(KindOf(calls[j]))
    {
      assert calls[j] == rest[j - 1];
      if i > 0 { assert calls[i] == rest[i - 1]; }
    }
  }

  /** The refresh step and persistence, on the fields left by the two create steps. */
  function Finish(t: TicketData, update: UpdateOutcome): (calls: seq<Invocation>)
    ensures Ordered(calls) && RanksFrom(calls, 2)
    ensures forall i :: 0 <= i < |calls| ==> calls[i].ticket == t
    ensures Updates(calls) <==> HasMessage(t)
    ensures Persists(calls) <==> !(HasMessage(t) && update.UpdateRaised?)
  {
    if HasMessage(t) then
      if update.UpdateRaised? then [UpdateMessage(t)]
      else
        assert Kinds([UpdateMessage(t), Persist(t)]) == [MessageUpdate] + Kinds([Persist(t)]);
        [UpdateMessage(t), Persist(t)]
    else [Persist(t)]
  }

  /** The message step and everything after it, on the fields left by the card step. */
  function MessagePhase(t: TicketData, message: CreateOutcome, update: UpdateOutcome): (r: SaveResult)
    ensures r.ticket == AfterMessage(t, message)
    ensures Ordered(r.calls) && RanksFrom(r.calls, 1)
    ensures CreatesMessage(r.calls) <==> WantsMessage(t)
    ensures forall i :: 0 <= i < |r.calls| && r.calls[i].CreateMessage? ==> r.calls[i].ticket == t
    ensures forall i :: 0 <= i < |r.calls| && !r.calls[i].CreateMessage? ==> r.calls[i].ticket == r.ticket
    ensures Updates(r.calls) <==> HasMessage(r.ticket)
    ensures Persists(r.calls) <==> !(HasMessage(r.ticket) && update.UpdateRaised?)
  {
    var t2 := AfterMessage(t, message);
    var rest := Finish(t2, update);
    if WantsMessage(t) then
      var calls := [CreateMessage(t)] + rest;
      assert forall i :: 1 <= i < |calls| ==> calls[i] == rest[i - 1];
      OrderedCons(CreateMessage(t), rest);
      SaveResult(t2, calls)
    else
      SaveResult(t2, rest)
  }

  /** `Ticket.save`: card step, message step, refresh step, then persist. */
  function Sync(t: TicketData, card: CreateOutcome, message: CreateOutcome, update: UpdateOutcome): (r: SaveResult)
    ensures r.ticket.content == t.content
    ensures Ordered(r.calls)
    ensures t.card.created ==> r.ticket.card.created
    ensures t.message.sent ==> r.ticket.message.sent
  {
    var rest := MessagePhase(AfterCard(t, card), message, update);
    if WantsCard(t) then
      OrderedCons(CreateCard(t), rest.calls);
      SaveResult(rest.ticket, [CreateCard(t)] + rest.calls)
    else
      rest
  }

  /** How one save decomposes into the card step and the rest. */
  lemma SyncSplit(t: TicketData, card: CreateOutcome, message: CreateOutcome, update: UpdateOutcome)
    ensures var r := Sync(t, card, message, update);
            var rest := MessagePhase(AfterCard(t, card), message, update);
            r.ticket == rest.ticket
            && (WantsCard(t) ==> r.calls == [CreateCard(t)] + rest.calls && Kinds(r.calls) == [CardCreate] + Kinds(rest.calls))
            && (!WantsCard(t) ==> r.calls == rest.calls)
  {
    var rest := MessagePhase(AfterCard(t, card), message, update);
    if WantsCard(t) {
      OrderedCons(CreateCard(t), rest.calls);
    }
  }

  /** A draft ticket causes no card-create and no message-create call, and its tracking fields stay. */
  lemma SaveDraftCreatesNothing(t: TicketData, card: CreateOutcome, message: CreateOutcome, update: UpdateOutcome)
    requires t.content.draft
    ensures var r := Sync(t, card, message, update);
            !CreatesCard(r.calls) && !CreatesMessage(r.calls)
            && r.ticket.card == t.card && r.ticket.message == t.message
  {
    SyncSplit(t, card, message, update);
  }

  /**
   * The card step: one card-create call, handed the ticket as it was, exactly when the ticket is not a
   * draft and not yet marked; a returned pair is stored as is and marks the card created; a raise
   * leaves the three card fields as they were.
   */
  lemma SaveCardStep(t: TicketData, card: CreateOutcome, message: CreateOutcome, update: UpdateOutcome)
    ensures var r := Sync(t, card, message, update);
            (CreatesCard(r.calls) <==> WantsCard(t))
            && (forall i :: 0 <= i < |r.calls| && r.calls[i].CreateCard? ==> r.calls[i].ticket == t)
            && (WantsCard(t) && card.Returned? ==> r.ticket.card == CardState(true, card.first, card.second))
            && (!WantsCard(t) || card.Raised? ==> r.ticket.card == t.card)
  {
    SyncSplit(t, card, message, update);
    var r := Sync(t, card, message, update);
    var rest := MessagePhase(AfterCard(t, card), message, update);
    if WantsCard(t) {
      assert forall i :: 1 <= i < |r.calls| ==> r.calls[i] == rest.calls[i - 1];
    }
  }

  /**
   * The message step runs whatever the card step did: one message-create call exactly when the ticket
   * is not a draft and not yet marked sent, handed the card fields the card step just stored; a
   * returned pair is stored and marks the message sent; a raise leaves the three fields as they were.
   */
  lemma SaveMessageStep(t: TicketData, card: CreateOutcome, message: CreateOutcome, update: UpdateOutcome)
    ensures var r := Sync(t, card, message, update);
            (CreatesMessage(r.calls) <==> WantsMessage(t))
            && (forall i :: 0 <= i < |r.calls| && r.calls[i].CreateMessage? ==>
                  r.calls[i].ticket.card == r.ticket.card
                  && r.calls[i].ticket.message == t.message)
            && (WantsMessage(t) && message.Returned? ==> r.ticket.message == MessageState(true, message.first, message.second))
            && (!WantsMessage(t) || message.Raised? ==> r.ticket.message == t.message)
  {
    SyncSplit(t, card, message, update);
    var r := Sync(t, card, message, update);
    var rest := MessagePhase(AfterCard(t, card), message, update);
    assert WantsMessage(AfterCard(t, card)) == WantsMessage(t);
    if WantsCard(t) {
      assert forall i :: 1 <= i < |r.calls| ==> r.calls[i] == rest.calls[i - 1];
    }
  }

  /**
   * The refresh step runs exactly when both message identifiers are truthy after the two create steps,
   * including the save that has just stored them, and it is handed those final fields; persistence
   * follows unless the refresh raised.
   */
  lemma SaveRefreshAndPersist(t: TicketData, card: CreateOutcome, message: CreateOutcome, update: UpdateOutcome)
    ensures var r := Sync(t, card, message, update);
            (Updates(r.calls) <==> HasMessage(r.ticket))
            && (Persists(r.calls) <==> !(HasMessage(r.ticket) && update.UpdateRaised?))
            && (forall i :: 0 <= i < |r.calls| && !r.calls[i].CreateCard? && !r.calls[i].CreateMessage? ==>
                  r.calls[i].ticket == r.ticket)
  {
    SyncSplit(t, card, message, update);
    var r := Sync(t, card, message, update);
    var rest := MessagePhase(AfterCard(t, card), message, update);
    if WantsCard(t) {
      assert forall i :: 1 <= i < |r.calls| ==> r.calls[i] == rest.calls[i - 1];
    }
  }

  // ---------------------------------------------------------------------------
  // The adapters' sentinels as seen by save
  // ---------------------------------------------------------------------------

  /**
   * A transport error inside the card adapter is not an exception for save: the card is still
   * marked created, with empty identifiers, and the next save does not retry it.
   */
  lemma CardSentinelMarksCreated(t: TicketData, message: CreateOutcome, update: UpdateOutcome)
    requires WantsCard(t)
    ensures Sync(t, ReturnedPair(Trello.CreateResult(TransportError)), message, update).ticket.card
         == CardState(true, Some(""), Some(""))
  {
  }

  /**
   * A transport error inside the message adapter likewise marks the message sent with empty
   * identifiers; those are falsy, so this save does not refresh the message.
   */
  lemma MessageSentinelMarksSent(t: TicketData, card: CreateOutcome, post: Transport<Response>,
                                 reactionDelivered: bool, update: UpdateOutcome)
    requires WantsMessage(t)
    requires post.TransportError? || !reactionDelivered
    ensures Sync(t, card, ReturnedPair(Slack.CreateMessageResult(post, reactionDelivered)), update).ticket.message
         == MessageState(true, Some(""), Some(""))
    ensures !Updates(Sync(t, card, ReturnedPair(Slack.CreateMessageResult(post, reactionDelivered)), update).calls)
  {
  }

  // ---------------------------------------------------------------------------
  // Repeated saves
  // ---------------------------------------------------------------------------

  /**
   * One save of a history: the content fields as they stand when the save starts (after any edit,
   * or after the key was assigned by an earlier persist) and the adapters' outcomes during it.
   */
  datatype SaveInput = SaveInput(content: Content, card: CreateOutcome, message: CreateOutcome, update: UpdateOutcome)

  /** A run of saves of one in-memory ticket: the fields afterwards and every invocation made. */
  function History(t: TicketData, inputs: seq<SaveInput>): SaveResult
    decreases |inputs|
  {
    if |inputs| == 0 then SaveResult(t, [])
    else
      var i := inputs[0];
      var first := Sync(t.(content := i.content), i.card, i.message, i.update);
      var rest := History(first.ticket, inputs[1..]);
      SaveResult(rest.ticket, first.calls + rest.calls)
  }

  /** Once a card is marked created it stays so, and no later save creates another card. */
  lemma {:induction false} CardCreatedIsFinal(t: TicketData, inputs: seq<SaveInput>)
    requires t.card.created
    ensures History(t, inputs).ticket.card.created
    ensures !CreatesCard(History(t, inputs).calls)
    decreases |inputs|
  {
    if |inputs| > 0 {
      var i := inputs[0];
      var first := Sync(t.(content := i.content), i.card, i.message, i.update);
      SaveCardStep(t.(content := i.content), i.card, i.message, i.update);
      CardCreatedIsFinal(first.ticket, inputs[1..]);
      var rest := History(first.ticket, inputs[1..]);
      assert History(t, inputs).calls == first.calls + rest.calls;
      KindsAppend(first.calls, rest.calls);
    }
  }

  /** Once a message is marked sent it stays so, and no later save posts another message. */
  lemma {:induction false} MessageSentIsFinal(t: TicketData, inputs: seq<SaveInput>)
    requires t.message.sent
    ensures History(t, inputs).ticket.message.sent
    ensures !CreatesMessage(History(t, inputs).calls)
    decreases |inputs|
  {
    if |inputs| > 0 {
      var i := inputs[0];
      var first := Sync(t.(content := i.content), i.card, i.message, i.update);
      SaveMessageStep(t.(content := i.content), i.card, i.message, i.update);
      MessageSentIsFinal(first.ticket, inputs[1..]);
      var rest := History(first.ticket, inputs[1..]);
      assert History(t, inputs).calls == first.calls + rest.calls;
      KindsAppend(first.calls, rest.calls);
    }
  }

  /** A raised card adapter leaves the card unmarked, so the next non-draft save tries again. */
  lemma CardRetriedAfterRaise(t: TicketData, message: CreateOutcome, update: UpdateOutcome, next: SaveInput)
    requires WantsCard(t)
    requires !next.content.draft
    ensures CreatesCard(History(t, [SaveInput(t.content, Raised, message, update), next]).calls)
  {
    var inputs := [SaveInput(t.content, Raised, message, update), next];
    var first := Sync(t, Raised, message, update);
    SaveCardStep(t, Raised, message, update);
    var u := first.ticket.(content := next.content);
    var second := Sync(u, next.card, next.message, next.update);
    SaveCardStep(u, next.card, next.message, next.update);
    assert t.(content := t.content) == t;
    assert inputs[1..] == [next];
    assert History(first.ticket, [next]).calls == second.calls + [];
    KindsAppend(first.calls, second.calls + []);
  }

  /**
   * The stored row after one save that starts from it: the save's fields when it persisted, otherwise
   * the row as it was, since nothing that save changed reached the database.
   */
  function StoredAfter(row: TicketData, i: SaveInput): TicketData
  {
    var r := Sync(row.(content := i.content), i.card, i.message, i.update);
    if Persists(r.calls) then r.ticket else row
  }

  /**
   * A message posted by a save whose refresh then raised is never stored: the row still reads unsent,
   * so the next save that starts from the stored row posts the message again.
   */
  lemma MessageRepostedAfterRaisedRefresh(row: TicketData, i: SaveInput, next: SaveInput)
    requires !i.content.draft && !row.message.sent
    requires i.message.Returned? && Truthy(i.message.first) && Truthy(i.message.second)
    requires i.update.UpdateRaised?
    requires !next.content.draft
    ensures var r := Sync(row.(content := i.content), i.card, i.message, i.update);
            CreatesMessage(r.calls) && r.ticket.message.sent && !Persists(r.calls)
    ensures StoredAfter(row, i) == row
    ensures CreatesMessage(Sync(StoredAfter(row, i).(content := next.content), next.card, next.message, next.update).calls)
  {
    var t := row.(content := i.content);
    SaveMessageStep(t, i.card, i.message, i.update);
    SaveRefreshAndPersist(t, i.card, i.message, i.update);
    var u := row.(content := next.content);
    SaveMessageStep(u, next.card, next.message, next.update);
  }

  /**
   * Likewise a card created by a save whose refresh of an existing message raised: the row still reads
   * not created, so the next save that starts from the stored row creates another card.
   */
  lemma CardRecreatedAfterRaisedRefresh(row: TicketData, i: SaveInput, next: SaveInput)
    requires !i.content.draft && !row.card.created && i.card.Returned?
    requires row.message.sent && HasMessage(row)
    requires i.update.UpdateRaised?
    requires !next.content.draft
    ensures var r := Sync(row.(content := i.content), i.card, i.message, i.update);
            CreatesCard(r.calls) && r.ticket.card.created && !Persists(r.calls)
    ensures StoredAfter(row, i) == row
    ensures CreatesCard(Sync(StoredAfter(row, i).(content := next.content), next.card, next.message, next.update).calls)
  {
    var t := row.(content := i.content);
    SaveCardStep(t, i.card, i.message, i.update);
    SaveMessageStep(t, i.card, i.message, i.update);
    SaveRefreshAndPersist(t, i.card, i.message, i.update);
    var u := row.(content := next.content);
    SaveCardStep(u, next.card, next.message, next.update);
  }

  // ---------------------------------------------------------------------------
  // The entity
  // ---------------------------------------------------------------------------

  /** A ticket row held in memory; `Save` updates its tracking fields in place. */
  class Ticket {
    var content: Content
    var trelloTicketCreated: bool
    var trelloTicketId: Option<string>
    var trelloTicketUrl: Option<string>
    var slackNotificationSent: bool
    var slackMessageTs: Option<string>
    var slackChannelId: Option<string>

    /** The ticket's fields as a value. */
    function Snapshot(): TicketData
      reads this
    {
      TicketData(content,
                 CardState(trelloTicketCreated, trelloTicketId, trelloTicketUrl),
                 MessageState(slackNotificationSent, slackMessageTs, slackChannelId))
    }

    /** A new, unsaved ticket with the field defaults: a draft with nothing synchronised. */
    constructor (title: string, status: string)
      ensures Snapshot() == TicketData(Content(None, None, true, "", title, None, None, status),
                                       CardState(false, None, None), MessageState(false, None, None))
    {
      content := Content(None, None, true, "", title, None, None, status);
      trelloTicketCreated, trelloTicketId, trelloTicketUrl := false, None, None;
      slackNotificationSent, slackMessageTs, slackChannelId := false, None, None;
    }

    /** The card block of `save`: a raise from the adapter is swallowed. */
    method CardStep(card: CreateOutcome) returns (calls: seq<Invocation>)
      modifies this
      ensures Snapshot() == AfterCard(old(Snapshot()), card)
      ensures calls == if WantsCard(old(Snapshot())) then [CreateCard(old(Snapshot()))] else []
    {
      calls := [];
      if !content.draft && !trelloTicketCreated {
        calls := [CreateCard(Snapshot())];
        match card {
          case Returned(cardId, cardUrl) =>
            trelloTicketId, trelloTicketUrl, trelloTicketCreated := cardId, cardUrl, true;
          case Raised =>
        }
      }
    }

    /** The message block of `save`: a raise from the adapter is swallowed. */
    method MessageStep(message: CreateOutcome) returns (calls: seq<Invocation>)
      modifies this
      ensures Snapshot() == AfterMessage(old(Snapshot()), message)
      ensures calls == if WantsMessage(old(Snapshot())) then [CreateMessage(old(Snapshot()))] else []
    {
      calls := [];
      if !content.draft && !slackNotificationSent {
        calls := [CreateMessage(Snapshot())];
        match message {
          case Returned(ts, channelId) =>
            slackMessageTs, slackChannelId, slackNotificationSent := ts, channelId, true;
          case Raised =>
        }
      }
    }

    /**
     * `save`: the card step and the message step swallow what their adapters raise; the refresh
     * step does not, and `raised` reports that persistence was skipped for it.
     */
    method Save(card: CreateOutcome, message: CreateOutcome, update: UpdateOutcome)
      returns (calls: seq<Invocation>, raised: bool)
      modifies this
      ensures Snapshot() == Sync(old(Snapshot()), card, message, update).ticket
      ensures calls == Sync(old(Snapshot()), card, message, update).calls
      ensures raised <==> !Persists(calls)
    {
      ghost var t := Snapshot();
      var cardCalls := CardStep(card);
      ghost var t1 := Snapshot();
      var messageCalls := MessageStep(message);
      ghost var t2 := Snapshot();
      assert WantsMessage(t1) == WantsMessage(t);
      var finish: seq<Invocation> := [];
      raised := false;
      if Truthy(slackMessageTs) && Truthy(slackChannelId) {
        finish := [UpdateMessage(Snapshot())];
        raised := update.UpdateRaised?;
      }
      if !raised {
        finish := finish + [Persist(Snapshot())];
      }
      assert finish == Finish(t2, update);
      calls := cardCalls + (messageCalls + finish);
      assert messageCalls + finish == MessagePhase(t1, message, update).calls;
      SyncSplit(t, card, message, update);
      assert calls == Sync(t, card, message, update).calls;
      SaveRefreshAndPersist(t, card, message, update);
    }
  }
}
