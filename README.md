# Ticket notification synchronisation, modelled in Dafny

This project models the notification core of a ticket-tracking admin tool. Each time a ticket is
saved, the core keeps an external card board (Trello) and a team chat (Slack) in step with the ticket:

- **Ticket save** (`Tickets`): a `Ticket` class with the six tracking fields (`trelloTicketCreated`,
  `trelloTicketId`, `trelloTicketUrl`, `slackNotificationSent`, `slackMessageTs`, `slackChannelId`).
  Its `Save` method runs three steps in a fixed order and then persists:
  1. create a card for a non-draft ticket that has no card yet;
  2. post a message for a non-draft ticket that has no message yet;
  3. refresh the message whenever both message identifiers are truthy.
  The adapters' outcomes are parameters: a create adapter returns a pair or raises, and the refresh
  completes or raises. `Save` returns the adapter invocations it made, in order, each with the ticket
  fields it handed over. It also reports whether the refresh raised, which skips persistence.
  `Save` is proved equal to the pure function `Sync`. The lemmas about `Sync` and `History` (runs of
  saves) state the decision table, how exceptions are handled, the call order, and that the two flags
  never fall back.
- **Card adapter** (`Trello`): the card-name format, the `("", "")` sentinel on a transport error, and
  the label lookup (first label of the ticket's module). Label attachment sends no request when no
  label matches. A `TrelloApi` object keeps the log of requests sent.
- **Chat adapter** (`Slack`): the pure five-block message rendering; a `Workspace` object holding the
  service's messages (blocks and reaction names) and the request log. Its methods model the
  reaction-removal loop, the status-reaction add, the content update, the full refresh and message
  creation. The lemmas prove that a refresh after a complete fetch leaves exactly the status reaction,
  and that a second refresh changes nothing.

Nullable text columns are `Option<string>`. Python truthiness is `Records.Truthy` (present and
non-empty). An f-string renders `None` as `"None"` (`Strings.ShowText`, `Strings.ShowNat`). The primary
key is `Option<nat>` because it is `None` before the first persist.

Points of the code's behaviour that the model keeps as written:
- `save` does not check for a settings row. It never attaches a label.
- The card adapter turns a transport error into `("", "")`, and `save` marks the card created even
  when the adapter returns that sentinel (`Tickets.CardSentinelMarksCreated`). Only a raised exception
  leaves the card unmarked. The message adapter behaves the same way (`Tickets.MessageSentinelMarksSent`).
- A refresh that raises skips the persist, so the flags that save set never reach the stored row. A
  later save that starts from the stored row creates the card or posts the message again
  (`Tickets.CardRecreatedAfterRaisedRefresh`, `Tickets.MessageRepostedAfterRaisedRefresh`).
- The reaction added while creating a message targets the identifiers the ticket held before the post.
  It therefore does not land on the new message (`Slack.CreateReactionMissesNewMessage`). The refresh
  step of the same save adds the status reaction to the new message.

## Model

| member | source | states |
|---|---|---|
| `Tickets.Ticket.constructor` | notifications/apps/tickets/models.py:16-35 | a new ticket is an unsaved draft with both flags false and every identifier `None` |
| `Tickets.Ticket.CardStep` | notifications/apps/tickets/models.py:62-70 | the card block: with a create call exactly when not a draft and not yet created; a returned pair is stored and sets the flag; a raise changes nothing |
| `Tickets.Ticket.MessageStep` | notifications/apps/tickets/models.py:72-80 | the message block, with the same shape for the three message fields |
| `Tickets.Ticket.Save` | notifications/apps/tickets/models.py:46-86 | the new fields and the ordered invocations equal those of `Sync`; `raised` holds exactly when persistence did not happen |
| `Tickets.Sync` | notifications/apps/tickets/models.py:62-86 | one save changes only tracking fields; invocations come at most once each in the order card, message, refresh, persist; neither flag goes from true to false |
| `Tickets.SaveDraftCreatesNothing` | notifications/apps/tickets/models.py:62-72 | a draft ticket causes no card-create and no message-create call and keeps its card and message fields |
| `Tickets.SaveCardStep` | notifications/apps/tickets/models.py:62-70 | a card-create call happens iff the ticket is not a draft and not marked; it gets the ticket as it was; a returned `(id, url)`, even empty strings, is stored with the flag set; a raise leaves all three fields unchanged |
| `Tickets.SaveMessageStep` | notifications/apps/tickets/models.py:72-80 | the message step runs iff not draft and not sent, whatever the card step did; it is handed the card fields just stored; returned values are stored with the flag set; a raise leaves the fields unchanged |
| `Tickets.SaveRefreshAndPersist` | notifications/apps/tickets/models.py:82-86 | the refresh runs iff both identifiers are truthy after the create steps, on the final fields; persistence happens iff the refresh did not raise |
| `Tickets.CardSentinelMarksCreated` | notifications/apps/tickets/models.py:64-67 | feeding the card adapter's transport-error sentinel into save marks the card created with empty id and url |
| `Tickets.MessageSentinelMarksSent` | notifications/apps/tickets/models.py:74-83 | the message adapter's sentinel marks the message sent with empty identifiers, and that save makes no refresh call |
| `Tickets.CardCreatedIsFinal` | notifications/apps/tickets/models.py:62-67 | over any run of saves of one in-memory ticket, with content edits in between, a created card stays marked and no further card-create call happens |
| `Tickets.MessageSentIsFinal` | notifications/apps/tickets/models.py:72-77 | over any run of saves of one in-memory ticket a sent message stays marked and no further message-create call happens |
| `Tickets.MessageRepostedAfterRaisedRefresh` | notifications/apps/tickets/models.py:72-86 | a save that posts a message with truthy identifiers and whose refresh raises marks it sent but does not persist; the stored row is unchanged and the next save from it posts again |
| `Tickets.CardRecreatedAfterRaisedRefresh` | notifications/apps/tickets/models.py:62-86 | a save that creates a card while an existing message refresh raises marks it created but does not persist; the stored row is unchanged and the next save from it creates another card |
| `Tickets.CardRetriedAfterRaise` | notifications/apps/tickets/models.py:62-70 | after a save whose card adapter raised, the next non-draft save calls the card adapter again |
| `Trello.CardName` | notifications/apps/tickets/trello.py:28 | the card name starts with the title, holds the separator, `Ticket #` and the rendered key, and ends with `Module: ` and the module |
| `Trello.CardNameSeparatesTickets` | notifications/apps/tickets/trello.py:28 | two saved tickets with the same title and module but different keys get different card names |
| `Trello.CreateResult` | notifications/apps/tickets/trello.py:20-37 | a transport error yields `("", "")`; a reply yields its `id` and `url`, each `None` when the key is missing |
| `Trello.TrelloApi.CreateTicket` | notifications/apps/tickets/trello.py:9-37 | exactly one card-create request to the configured list with the formatted name and the description unchanged; the result is `CreateResult` of the outcome |
| `Trello.FindLabel` | notifications/apps/tickets/trello.py:55 | no label iff no label has the ticket's module; otherwise the first label in order with that module |
| `Trello.TrelloApi.AddLabel` | notifications/apps/tickets/trello.py:40-68 | no request and no exception when no label matches; otherwise exactly one request targeting the stored card id with the matched label's id as value, and it raises exactly on a transport error |
| `Slack.MessageBlocks` | notifications/apps/tickets/slack.py:141-192 | exactly five blocks: a header then four sections; only the last has a block id, and it is `"status"`; the header text ends with the ticket number; the admin URL, title, card URL and status label appear in blocks two to five |
| `Slack.ClientFallback` | notifications/apps/tickets/slack.py:153-154 | without a client the details block reads `Kunde: N/A` and `Kunden ID: N/A`; with one it shows the client's name and key |
| `Slack.ListedReactions` | notifications/apps/tickets/slack.py:124 | no names when the reply lacks `message` or `reactions`; otherwise one name per listed reaction, in order |
| `Slack.RemoveRequests` | notifications/apps/tickets/slack.py:124-138 | exactly one remove request per listed name, in list order, each aimed at the ticket's message |
| `Slack.Without` | notifications/apps/tickets/slack.py:127-138 | after a remove the name is gone and every other reaction stays |
| `Slack.Added` | notifications/apps/tickets/slack.py:90-101 | after an add the name is present, alongside every earlier reaction |
| `Slack.RemoveAll` | notifications/apps/tickets/slack.py:124-138 | after the removal loop exactly the reactions that were not listed remain |
| `Slack.RemoveAllNoDuplicates` | notifications/apps/tickets/slack.py:124-138 | the removals never introduce a repeated reaction |
| `Slack.Workspace.RemoveMessageReaction` | notifications/apps/tickets/slack.py:104-138 | one fetch, then the removes in list order; the ticket's message loses every listed reaction and nothing else changes |
| `Slack.Workspace.UpdateMessageReaction` | notifications/apps/tickets/slack.py:82-101 | one add request naming the status table's entry for the ticket's status; that reaction is then on the message |
| `Slack.Workspace.UpdateMessageStatus` | notifications/apps/tickets/slack.py:60-79 | one content-update request with the rendered blocks; the message's blocks are replaced and its reactions kept |
| `Slack.Workspace.UpdateMessage` | notifications/apps/tickets/slack.py:12-25 | the requests are fetch, removes, add, content update, in that order; only the ticket's message changes, to `Refreshed` of its old value |
| `Slack.RefreshLeavesOnlyStatus` | notifications/apps/tickets/slack.py:12-25 | when the fetch listed every reaction, the refreshed message carries exactly the one status reaction |
| `Slack.RefreshIdempotent` | notifications/apps/tickets/slack.py:12-25 | refreshing a second time with the same status and blocks gives the same message, whatever the second fetch lists |
| `Slack.Workspace.CreateMessage` | notifications/apps/tickets/slack.py:28-57 | posts the same blocks the update uses to the configured channel; when the reply reports `ts` and `channel` the service holds the new message there; on delivery adds the status reaction at the ticket's old identifiers; returns `CreateMessageResult` |
| `Slack.CreateMessageResult` | notifications/apps/tickets/slack.py:52-57 | `("", "")` when the post or the reaction add fails in transport; otherwise the `ts` and `channel` of the reply, naming the posted message, with a `None` among them when the reply reports no message |
| `Slack.CreateReactionMissesNewMessage` | notifications/apps/tickets/slack.py:51 | unless the ticket already held the new message's identifiers, the posted message carries no reaction after creation; a reply without `ts` and `channel` creates no message |
| `Strings.NatToString` | notifications/apps/tickets/trello.py:28 | `str(pk)` is a non-empty string of decimal digits without a leading zero |
| `Strings.ParseNatToString` | notifications/apps/tickets/trello.py:28 | the rendered decimal number reads back to the same number |
| `Wrappers.Get` | notifications/apps/tickets/trello.py:37 | `d.get(k)` is present iff the key is in the dictionary, and then holds its value |

## Left out

- HTTP itself is not modelled: URLs, headers, tokens, JSON decoding and timeouts. Each request is one
  entry in a request log. The outcome of the card create, the message post, its reaction add and the
  label attach (delivered with a reply, or a transport error) is a parameter; the refresh requests are
  taken to be delivered (see the `Slack.Workspace.UpdateMessage` line).
- The diagnostic `print` calls (models.py:70, models.py:80, trello.py:34, slack.py:54) only write to
  the console and are not modelled.
- Persistence is not modelled: `super().save` is the `Persist` invocation. The key that the first
  persist assigns is not written back into the `Ticket` object; `History` takes it from the next
  save's content. The label query is a
  sequence search over labels in primary-key order, which is the order `.first()` uses on an unordered
  query set. The admin URL (`settings.BASE_URL` plus `reverse(...)`) is an opaque string.
- The status tables `TICKET_STATUS_CHOICES` and `SLACK_STATUS_REACTION` are not part of this model.
  They are maps passed in. `get_status_display()` is the choice label, or the stored value when the
  status is not a choice.
- The label model (`TrelloLabel`) is not part of this model. Its `module` and `trello_label_id` fields
  are taken from trello.py:55-66, and its `trello_label_name` and `trello_label_color` fields from
  management/commands/sync_trello_labels.py:30-31.
- Slack.Workspace.UpdateMessageReaction: requires the status to be in the reaction table. The code
  raises `KeyError` for an unmapped status, and that error path is not modelled.
- Slack.Workspace.UpdateMessage: every request of the refresh is taken to be delivered. A transport
  error part-way through the refresh only appears at the save level, as `UpdateRaised`. A partial
  refresh followed by the exception is not modelled.
- Slack.Workspace.CreateMessage: the service is assumed to store a delivered post under the `channel`
  and `ts` it returns, and to create no message when the reply lacks either (an `ok: false` reply).
  A `KeyError` from the status table is an exception for `save`, which catches it; it appears only as
  a `Raised` outcome of the message step. Reversing the admin route for an unsaved ticket does not
  raise: the key renders as `None`, so a message posted by the first save of a new non-draft ticket
  links to `.../None/change/` and its details line reads `Shard: None`. The admin URL is an opaque string in the model.
- Tickets.Ticket.Save: the adapters are not wired into `save`. Their outcomes are parameters, and the
  lemmas `CardSentinelMarksCreated` and `MessageSentinelMarksSent` connect the adapters' results to
  the save. The model describes the save the code evidently intends, not the code as it would run:
  - models.py:58 imports `slack_create_ticket` and `slack_update_ticket`, which slack.py does not
    define. The import is outside any `try`, so every save, drafts included, raises `ImportError`
    there and nothing is ever persisted.
  - models.py:59 would fail as well: trello.py:6 imports `TrelloLabel` from `tickets.models`, which
    defines only `Ticket`.
  - The adapters require a `core_settings` argument that `save` never passes: at models.py:64 and
    models.py:74 the resulting `TypeError` is caught as a raise of the create step, and at models.py:83
    it is not caught, so persistence is skipped whenever both message identifiers are truthy.
- Tickets.CardCreatedIsFinal: covers one in-memory ticket saved repeatedly. A save whose refresh raised
  is not persisted, so a later save from the stored row creates the card again
  (`Tickets.CardRecreatedAfterRaisedRefresh`). The admin form can also edit the two flags directly.
- Tickets.MessageSentIsFinal: the same in-memory scope. After a save whose refresh raised, the stored
  row still reads unsent and the next save from it posts again
  (`Tickets.MessageRepostedAfterRaisedRefresh`); that includes the very save that posted the message,
  since its refresh runs at once.
- Concurrent saves of the same ticket are not modelled. The code has no coordination between them.
- The admin screens, the management commands (`init_db`, `sync_trello_labels`, `set_trello_label`) and
  the field-only models are not modelled. The client and settings models are used only as record
  shapes.
- The API credentials and the board id in the settings record are carried but never checked.
