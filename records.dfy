/** Value shapes of the entities the notification core reads. */
module Records {
  import opened Wrappers

  /** clients/models.py: a client has a primary key and a name. */
  datatype Client = Client(pk: nat, name: string)

  /** core/models.py: the singleton settings row; every field is nullable. */
  datatype Settings = Settings(
    trelloApiKey: Option<string>,
    trelloApiToken: Option<string>,
    trelloBoardId: Option<string>,
    trelloListId: Option<string>,
    slackToken: Option<string>,
    slackChannelId: Option<string>)

  /** A board label cached for one ticket module. */
  datatype Label = Label(trelloLabelId: string, name: string, color: string, moduleName: Option<string>)

  /** A decoded JSON reply, reduced to its string-valued top-level keys. */
  datatype Response = Response(fields: map<string, string>)

  /** The fields of a ticket that the notification core reads but never writes. */
  datatype Content = Content(
    pk: Option<nat>,
    client: Option<Client>,
    draft: bool,
    ticketNo: string,
    title: string,
    description: Option<string>,
    moduleName: Option<string>,
    status: string)

  /** `trello_ticket_created`, `trello_ticket_id`, `trello_ticket_url`. */
  datatype CardState = CardState(created: bool, id: Option<string>, url: Option<string>)

  /** `slack_notification_sent`, `slack_message_ts`, `slack_channel_id`. */
  datatype MessageState = MessageState(sent: bool, ts: Option<string>, channelId: Option<string>)

  /** The fields of a ticket, as a value. */
  datatype TicketData = TicketData(content: Content, card: CardState, message: MessageState)

  /** Python truthiness of a nullable text field: present and non-empty. */
  predicate Truthy(o: Option<string>)
  {
    o.Some? && o.value != ""
  }

}
