/** The team-chat adapter of tickets/slack.py. */
module Slack {
  import opened Wrappers
  import opened Strings
  import opened Records

  // ---------------------------------------------------------------------------
  // Message rendering
  // ---------------------------------------------------------------------------

  datatype TextObject = TextObject(kind: string, text: string)

  /** One layout block: its type, an optional block id and its text object. */
  datatype Block = Block(kind: string, blockId: Option<string>, text: TextObject)

  /**
   * What the rendering needs beyond the ticket: the absolute admin-page URL of the ticket
   * (the site's base URL followed by the reversed admin route, taken as an opaque string)
   * and the status choices behind `get_status_display()`.
   */
  datatype Rendering = Rendering(adminUrl: string, statusChoices: map<string, string>)

  /** The human-readable label of a status, or the stored value when it is not a choice. */
  function StatusDisplay(status: string, choices: map<string, string>): string
  {
    if status in choices then choices[status] else status
  }

  function ClientName(c: Option<Client>): string
  {
    if c.Some? then c.value.name else "N/A"
  }

  function ClientId(c: Option<Client>): string
  {
    if c.Some? then NatToString(c.value.pk) else "N/A"
  }

  const HeaderPrefix: string := "SM - \U{1FAB2} Ticket #"

  function HeaderText(t: TicketData): (s: string)
    ensures HeaderPrefix <= s && s[|HeaderPrefix|..] == t.content.ticketNo
  {
    HeaderPrefix + t.content.ticketNo
  }

  function AdminText(env: Rendering): (s: string)
    ensures IsInfix(env.adminUrl, s)
  {
    InfixOfConcat("Admin: ", env.adminUrl, "");
    assert "Admin: " + env.adminUrl + "" == "Admin: " + env.adminUrl;
    "Admin: " + env.adminUrl
  }

  /** The client line pair of the details block. */
  function ClientPart(c: Option<Client>): string
  {
    "Kunde: " + ClientName(c) + "\nKunden ID: " + ClientId(c)
  }

  function DetailsHead(t: TicketData): (s: string)
    ensures IsInfix(t.content.title, s)
  {
    var tail := "*\nModul: " + ShowText(t.content.moduleName) + "\n";
    InfixOfConcat("*", t.content.title, tail);
    "*" + t.content.title + tail
  }

  function DetailsTail(t: TicketData): string
  {
    " - Shard: " + ShowNat(t.content.pk) + " - JTL-Version: " + ShowNat(t.content.pk)
  }

  /** Title, module, client name, client id and the ticket key twice. */
  function DetailsText(t: TicketData): (s: string)
    ensures IsInfix(t.content.title, s)
    ensures IsInfix(ClientPart(t.content.client), s)
  {
    var head := DetailsHead(t);
    InfixOfConcat(head, ClientPart(t.content.client), DetailsTail(t));
    var k :| 0 <= k <= |head| && t.content.title <= head[k..];
    assert t.content.title <= (head + ClientPart(t.content.client) + DetailsTail(t))[k..];
    head + ClientPart(t.content.client) + DetailsTail(t)
  }

  function CardText(t: TicketData): (s: string)
    ensures IsInfix(ShowText(t.card.url), s)
  {
    InfixOfConcat("Trello: ", ShowText(t.card.url), "");
    assert "Trello: " + ShowText(t.card.url) + "" == "Trello: " + ShowText(t.card.url);
    "Trello: " + ShowText(t.card.url)
  }

  function StatusText(display: string): (s: string)
    ensures IsInfix(display, s)
  {
    InfixOfConcat("*Status: ", display, "*");
    "*Status: " + display + "*"
  }

  /** `slack_message_blocks`: the fixed five-block layout shared by create and update. */
  function MessageBlocks(t: TicketData, env: Rendering): (blocks: seq<Block>)
    ensures |blocks| == 5
    ensures blocks[0].kind == "header" && blocks[0].text.kind == "plain_text"
    ensures forall i :: 1 <= i < 5 ==> blocks[i].kind == "section" && blocks[i].text.kind == "mrkdwn"
    ensures forall i :: 0 <= i < 5 ==> (blocks[i].blockId.Some? <==> i == 4)
    ensures blocks[4].blockId == Some("status")
    ensures HeaderPrefix <= blocks[0].text.text
    ensures blocks[0].text.text[|HeaderPrefix|..] == t.content.ticketNo
    ensures IsInfix(env.adminUrl, blocks[1].text.text)
    ensures IsInfix(t.content.title, blocks[2].text.text)
    ensures IsInfix(ShowText(t.card.url), blocks[3].text.text)
    ensures IsInfix(StatusDisplay(t.content.status, env.statusChoices), blocks[4].text.text)
  {
    [ Block("header", None, TextObject("plain_text", HeaderText(t))),
      Block("section", None, TextObject("mrkdwn", AdminText(env))),
      Block("section", None, TextObject("mrkdwn", DetailsText(t))),
      Block("section", None, TextObject("mrkdwn", CardText(t))),
      Block("section", Some("status"), TextObject("mrkdwn", StatusText(StatusDisplay(t.content.status, env.statusChoices)))) ]
  }

  /** Without a client, both the client name and the client id render as "N/A". */
  lemma ClientFallback(t: TicketData, env: Rendering)
    ensures t.content.client.None? ==> IsInfix("Kunde: N/A\nKunden ID: N/A", MessageBlocks(t, env)[2].text.text)
    ensures t.content.client.Some? ==>
      IsInfix("Kunde: " + t.content.client.value.name + "\nKunden ID: " + NatToString(t.content.client.value.pk),
              MessageBlocks(t, env)[2].text.text)
  {
    if t.content.client.None? {
      calc {
        ClientPart(t.content.client);
        "Kunde: " + "N/A" + "\nKunden ID: " + "N/A";
        "Kunde: N/A\nKunden ID: N/A";
      }
    }
  }

  // ---------------------------------------------------------------------------
  // Remote state: messages and their reactions
  // ---------------------------------------------------------------------------

  /** A chat message is addressed by channel id and message timestamp. */
  datatype MessageKey = MessageKey(channel: Option<string>, ts: Option<string>)

  /** The key a ticket's stored identifiers point at. */
  function KeyOf(t: TicketData): MessageKey
  {
    MessageKey(t.message.channelId, t.message.ts)
  }

  /** A posted message: its blocks and the reaction names on it. */
  datatype Message = Message(blocks: seq<Block>, reactions: seq<string>)

  /** The chat-service requests the adapter sends (tokens and headers are not modelled). */
  datatype SlackRequest =
    | PostMessage(channel: Option<string>, blocks: seq<Block>)
    | ChatUpdate(key: MessageKey, blocks: seq<Block>)
    | ReactionsGet(key: MessageKey)
    | ReactionsAdd(key: MessageKey, name: string)
    | ReactionsRemove(key: MessageKey, name: string)

  /** The decoded reply of `reactions.get`: `message` and its `reactions` may each be missing. */
  datatype Reaction = Reaction(name: string)
  datatype FetchedMessage = FetchedMessage(reactions: Option<seq<Reaction>>)
  datatype ReactionsPayload = ReactionsPayload(message: Option<FetchedMessage>)

  /** `data.get("message", {}).get("reactions", [])`, reduced to the reaction names. */
  function ListedReactions(p: ReactionsPayload): (names: seq<string>)
    ensures p.message.None? ==> names == []
    ensures p.message.Some? && p.message.value.reactions.None? ==> names == []
    ensures p.message.Some? && p.message.value.reactions.Some? ==>
      |names| == |p.message.value.reactions.value| &&
      forall i :: 0 <= i < |names| ==> names[i] == p.message.value.reactions.value[i].name
  {
    match p.message
    case None => []
    case Some(m) =>
      match m.reactions
      case None => []
      case Some(rs) => seq(|rs|, i requires 0 <= i < |rs| => rs[i].name)
  }

  /** The service's `reactions.remove`: the name is no longer on the message. */
  function Without(rs: seq<string>, name: string): (r: seq<string>)
    ensures forall x :: x in r <==> x in rs && x != name
  {
    if |rs| == 0 then []
    else (if rs[0] == name then [] else [rs[0]]) + Without(rs[1..], name)
  }

  /** The service's `reactions.add`: the name is on the message, once. */
  function Added(rs: seq<string>, name: string): (r: seq<string>)
    ensures forall x :: x in r <==> x in rs || x == name
  {
    if name in rs then rs else rs + [name]
  }

  /** The reactions left after removing each of `names` in turn. */
  function RemoveAll(rs: seq<string>, names: seq<string>): (r: seq<string>)
    ensures forall x :: x in r <==> x in rs && x !in names
    decreases |names|
  {
    if |names| == 0 then rs
    else
      var n := |names| - 1;
      assert names == names[..n] + [names[n]];
      Without(RemoveAll(rs, names[..n]), names[n])
  }

  /** One `reactions.remove` request per listed name, in list order. */
  function RemoveRequests(key: MessageKey, names: seq<string>): (r: seq<SlackRequest>)
    ensures |r| == |names|
    ensures forall i :: 0 <= i < |names| ==> r[i] == ReactionsRemove(key, names[i])
  {
    seq(|names|, i requires 0 <= i < |names| => ReactionsRemove(key, names[i]))
  }

  function ReactionsAt(ms: map<MessageKey, Message>, key: MessageKey): seq<string>
  {
    if key in ms then ms[key].reactions else []
  }

  /** Replace the reactions of the message at `key`; nothing happens when there is no such message. */
  function SetReactions(ms: map<MessageKey, Message>, key: MessageKey, rs: seq<string>): (r: map<MessageKey, Message>)
    ensures r.Keys == ms.Keys
    ensures forall k :: k in ms && k != key ==> r[k] == ms[k]
    ensures key in ms ==> r[key] == Message(ms[key].blocks, rs)
  {
    if key in ms then ms[key := Message(ms[key].blocks, rs)] else ms
  }

  /** Replace the blocks of the message at `key`; nothing happens when there is no such message. */
  function SetBlocks(ms: map<MessageKey, Message>, key: MessageKey, blocks: seq<Block>): (r: map<MessageKey, Message>)
    ensures r.Keys == ms.Keys
    ensures forall k :: k in ms && k != key ==> r[k] == ms[k]
    ensures key in ms ==> r[key] == Message(blocks, ms[key].reactions)
  {
    if key in ms then ms[key := Message(blocks, ms[key].reactions)] else ms
  }

  /** The message after one full refresh: listed reactions removed, status reaction added, blocks replaced. */
  function Refreshed(m: Message, listed: seq<string>, reaction: string, blocks: seq<Block>): Message
  {
    Message(blocks, Added(RemoveAll(m.reactions, listed), reaction))
  }

  /** The reply of `reactions.get` names every reaction the message carries. */
  predicate Covers(listed: seq<string>, m: Message)
  {
    forall x :: x in m.reactions ==> x in listed
  }

  lemma HeadIsMember(s: seq<string>)
    requires s != []
    ensures s[0] in s
  {
  }

  /** When the fetch listed every reaction, a refresh leaves exactly the status reaction. */
  lemma RefreshLeavesOnlyStatus(m: Message, listed: seq<string>, reaction: string, blocks: seq<Block>)
    requires Covers(listed, m)
    ensures Refreshed(m, listed, reaction, blocks) == Message(blocks, [reaction])
  {
    var left := RemoveAll(m.reactions, listed);
    if left != [] {
      HeadIsMember(left);
      assert false;
    }
  }

  /** A second refresh with the same status and blocks changes nothing, whatever the second fetch listed. */
  lemma RefreshIdempotent(m: Message, listed1: seq<string>, listed2: seq<string>, reaction: string, blocks: seq<Block>)
    requires Covers(listed1, m)
    ensures Refreshed(Refreshed(m, listed1, reaction, blocks), listed2, reaction, blocks)
         == Refreshed(m, listed1, reaction, blocks)
  {
    RefreshLeavesOnlyStatus(m, listed1, reaction, blocks);
    var once := Message(blocks, [reaction]);
    if reaction in listed2 {
      RefreshLeavesOnlyStatus(once, listed2, reaction, blocks);
    } else {
      assert RemoveAll([reaction], listed2) == [reaction] by {
        var left := RemoveAll([reaction], listed2);
        assert reaction in left;
        assert forall x :: x in left ==> x == reaction;
        if |left| > 1 {
          assert left[1] in left && left[0] in left;
          assert left[0] == left[1];
          RemoveAllNoDuplicates([reaction], listed2);
          assert false;
        }
      }
    }
  }

  predicate NoDuplicates(rs: seq<string>)
  {
    forall i, j :: 0 <= i < j < |rs| ==> rs[i] != rs[j]
  }

  lemma {:induction false} WithoutNoDuplicates(rs: seq<string>, name: string)
    requires NoDuplicates(rs)
    ensures NoDuplicates(Without(rs, name))
  {
    if |rs| > 0 {
      WithoutNoDuplicates(rs[1..], name);
      var tail := Without(rs[1..], name);
      assert rs[0] !in tail;
    }
  }

  /** Removing reactions never creates duplicates. */
  lemma {:induction false} RemoveAllNoDuplicates(rs: seq<string>, names: seq<string>)
    requires NoDuplicates(rs)
    ensures NoDuplicates(RemoveAll(rs, names))
    decreases |names|
  {
    if |names| > 0 {
      var n := |names| - 1;
      RemoveAllNoDuplicates(rs, names[..n]);
      WithoutNoDuplicates(RemoveAll(rs, names[..n]), names[n]);
    }
  }

  /** The message store of the chat service and the log of requests sent to it. */
  class Workspace {
    var messages: map<MessageKey, Message>
    var requests: seq<SlackRequest>

    constructor ()
      ensures messages == map[] && requests == []
    {
      messages := map[];
      requests := [];
    }

    /**
     * `slack_remove_message_reaction`: fetch the reactions, then one remove per listed name, in order.
     * `fetched` is the decoded reply of the fetch.
     */
    method RemoveMessageReaction(t: TicketData, fetched: ReactionsPayload)
      modifies this
      ensures requests == old(requests) + [ReactionsGet(KeyOf(t))] + RemoveRequests(KeyOf(t), ListedReactions(fetched))
      ensures messages == SetReactions(old(messages), KeyOf(t),
                                       RemoveAll(ReactionsAt(old(messages), KeyOf(t)), ListedReactions(fetched)))
    {
      var key := KeyOf(t);
      requests := requests + [ReactionsGet(key)];
      var names := ListedReactions(fetched);
      var i := 0;
      while i < |names|
        invariant 0 <= i <= |names|
        invariant requests == old(requests) + [ReactionsGet(key)] + RemoveRequests(key, names[..i])
        invariant messages == SetReactions(old(messages), key, RemoveAll(ReactionsAt(old(messages), key), names[..i]))
      {
        var name := names[i];
        requests := requests + [ReactionsRemove(key, name)];
        messages := SetReactions(messages, key, Without(ReactionsAt(messages, key), name));
        assert names[..i + 1][..i] == names[..i];
        i := i + 1;
      }
      assert names[..i] == names;
    }

    /** `slack_update_message_reaction`: add the status reaction to the ticket's message. */
    method UpdateMessageReaction(t: TicketData, statusReaction: map<string, string>)
      requires t.content.status in statusReaction
      modifies this
      ensures requests == old(requests) + [ReactionsAdd(KeyOf(t), statusReaction[t.content.status])]
      ensures messages == SetReactions(old(messages), KeyOf(t),
                                       Added(ReactionsAt(old(messages), KeyOf(t)), statusReaction[t.content.status]))
    {
      var name := statusReaction[t.content.status];
      requests := requests + [ReactionsAdd(KeyOf(t), name)];
      messages := SetReactions(messages, KeyOf(t), Added(ReactionsAt(messages, KeyOf(t)), name));
    }

    /** `slack_update_message_status`: overwrite the ticket's message with freshly rendered blocks. */
    method UpdateMessageStatus(t: TicketData, env: Rendering)
      modifies this
      ensures requests == old(requests) + [ChatUpdate(KeyOf(t), MessageBlocks(t, env))]
      ensures messages == SetBlocks(old(messages), KeyOf(t), MessageBlocks(t, env))
    {
      requests := requests + [ChatUpdate(KeyOf(t), MessageBlocks(t, env))];
      messages := SetBlocks(messages, KeyOf(t), MessageBlocks(t, env));
    }

    /**
     * `slack_update_message`: clear the reactions, add the status reaction, replace the content,
     * in that order. Every request is taken to be delivered.
     */
    method UpdateMessage(t: TicketData, env: Rendering, statusReaction: map<string, string>, fetched: ReactionsPayload)
      requires t.content.status in statusReaction
      modifies this
      ensures requests == old(requests) + [ReactionsGet(KeyOf(t))]
                          + RemoveRequests(KeyOf(t), ListedReactions(fetched))
                          + [ReactionsAdd(KeyOf(t), statusReaction[t.content.status]),
                             ChatUpdate(KeyOf(t), MessageBlocks(t, env))]
      ensures messages.Keys == old(messages).Keys
      ensures forall k :: k in old(messages) && k != KeyOf(t) ==> messages[k] == old(messages)[k]
      ensures KeyOf(t) in old(messages) ==>
        messages[KeyOf(t)] == Refreshed(old(messages)[KeyOf(t)], ListedReactions(fetched),
                                        statusReaction[t.content.status], MessageBlocks(t, env))
    {
      RemoveMessageReaction(t, fetched);
      UpdateMessageReaction(t, statusReaction);
      UpdateMessageStatus(t, env);
    }

    /**
     * `slack_create_message`: post the rendered blocks to the configured channel, then add the status
     * reaction. The reaction targets the identifiers the ticket holds when the call starts, not the
     * new message. A transport error on either request yields the sentinel ("", ""), even when the post
     * itself went through. The service stores a delivered post under the channel and timestamp it
     * reports back.
     */
    method CreateMessage(t: TicketData, settings: Settings, env: Rendering, statusReaction: map<string, string>,
                         post: Transport<Response>, reactionDelivered: bool)
      returns (ts: Option<string>, channel: Option<string>)
      requires t.content.status in statusReaction
      modifies this
      ensures requests == old(requests) + [PostMessage(settings.slackChannelId, MessageBlocks(t, env))]
                          + (if post.Delivered? then [ReactionsAdd(KeyOf(t), statusReaction[t.content.status])] else [])
      ensures (ts, channel) == CreateMessageResult(post, reactionDelivered)
      ensures messages == AfterCreate(old(messages), KeyOf(t), MessageBlocks(t, env), statusReaction[t.content.status],
                                      post, reactionDelivered)
    {
      var blocks := MessageBlocks(t, env);
      requests := requests + [PostMessage(settings.slackChannelId, blocks)];
      if post.TransportError? {
        return Some(""), Some("");
      }
      if Posted(post.reply) {
        messages := messages[PostedKey(post.reply) := Message(blocks, [])];
      }
      var name := statusReaction[t.content.status];
      requests := requests + [ReactionsAdd(KeyOf(t), name)];
      if !reactionDelivered {
        return Some(""), Some("");
      }
      messages := SetReactions(messages, KeyOf(t), Added(ReactionsAt(messages, KeyOf(t)), name));
      ts, channel := Get(post.reply.fields, "ts"), Get(post.reply.fields, "channel");
    }
  }

  /** The reply reports a created message: it carries both `ts` and `channel`. */
  predicate Posted(reply: Response)
  {
    "ts" in reply.fields && "channel" in reply.fields
  }

  /** The key under which a delivered post is stored: the reply's `channel` and `ts`. */
  function PostedKey(reply: Response): MessageKey
  {
    MessageKey(Get(reply.fields, "channel"), Get(reply.fields, "ts"))
  }

  /** What `slack_create_message` returns. */
  function CreateMessageResult(post: Transport<Response>, reactionDelivered: bool): (r: (Option<string>, Option<string>))
    ensures post.TransportError? || !reactionDelivered ==> r == (Some(""), Some(""))
    ensures post.Delivered? && reactionDelivered ==> MessageKey(r.1, r.0) == PostedKey(post.reply)
    ensures post.Delivered? && reactionDelivered && !Posted(post.reply) ==> r.0.None? || r.1.None?
  {
    if post.TransportError? || !reactionDelivered then (Some(""), Some(""))
    else (Get(post.reply.fields, "ts"), Get(post.reply.fields, "channel"))
  }

  /** The message store after `slack_create_message`. */
  function AfterCreate(ms: map<MessageKey, Message>, target: MessageKey, blocks: seq<Block>, reaction: string,
                       post: Transport<Response>, reactionDelivered: bool): map<MessageKey, Message>
  {
    if post.TransportError? then ms
    else
      var posted := if Posted(post.reply) then ms[PostedKey(post.reply) := Message(blocks, [])] else ms;
      if reactionDelivered then SetReactions(posted, target, Added(ReactionsAt(posted, target), reaction))
      else posted
  }

  /**
   * The reaction added while creating a message does not land on the new message unless the ticket
   * already held that message's identifiers: the new message carries the rendered blocks and no reaction.
   * A reply that reports no message creates none.
   */
  lemma CreateReactionMissesNewMessage(ms: map<MessageKey, Message>, target: MessageKey, blocks: seq<Block>,
                                       reaction: string, reply: Response, reactionDelivered: bool)
    requires target != PostedKey(reply)
    ensures Posted(reply) ==>
      PostedKey(reply) in AfterCreate(ms, target, blocks, reaction, Delivered(reply), reactionDelivered)
      && AfterCreate(ms, target, blocks, reaction, Delivered(reply), reactionDelivered)[PostedKey(reply)]
         == Message(blocks, [])
    ensures !Posted(reply) ==>
      AfterCreate(ms, target, blocks, reaction, Delivered(reply), reactionDelivered).Keys == ms.Keys
  {
  }
}
