/** The card-board adapter of tickets/trello.py. */
module Trello {
  import opened Wrappers
  import opened Strings
  import opened Records

  /** The requests the adapter sends to the board service (credentials are not modelled). */
  datatype TrelloRequest =
    | CreateCard(idList: Option<string>, name: string, desc: Option<string>)
    | AddCardLabel(cardId: Option<string>, value: string)

  /** The card title: "<title> | Ticket #<pk> | Module: <module>". */
  function CardName(t: TicketData): (name: string)
    ensures t.content.title <= name
    ensures IsInfix(" | Ticket #" + ShowNat(t.content.pk) + " | ", name)
    ensures |name| >= |"Module: " + ShowText(t.content.moduleName)|
    ensures name[|name| - |"Module: " + ShowText(t.content.moduleName)|..] == "Module: " + ShowText(t.content.moduleName)
  {
    var name := t.content.title + " | Ticket #" + ShowNat(t.content.pk) + " | " + "Module: " + ShowText(t.content.moduleName);
    assert t.content.title + (" | Ticket #" + ShowNat(t.content.pk) + " | ") + ("Module: " + ShowText(t.content.moduleName)) == name;
    InfixOfConcat(t.content.title, " | Ticket #" + ShowNat(t.content.pk) + " | ", "Module: " + ShowText(t.content.moduleName));
    name
  }

  /** Strings equal around a common prefix and suffix are equal in the middle. */
  lemma MiddleDetermined(p: string, a: string, b: string, q: string)
    requires p + a + q == p + b + q
    ensures a == b
  {
    assert |a| == |b|;
    assert a == (p + a + q)[|p|..|p| + |a|];
    assert b == (p + b + q)[|p|..|p| + |b|];
  }

  /** Distinct ticket keys give distinct card names for the same title and module. */
  lemma CardNameSeparatesTickets(t: TicketData, u: TicketData)
    requires t.content.title == u.content.title && t.content.moduleName == u.content.moduleName
    requires t.content.pk.Some? && u.content.pk.Some? && t.content.pk != u.content.pk
    ensures CardName(t) != CardName(u)
  {
    var pre := t.content.title + " | Ticket #";
    var post := " | " + "Module: " + ShowText(t.content.moduleName);
    assert CardName(t) == pre + ShowNat(t.content.pk) + post;
    assert CardName(u) == pre + ShowNat(u.content.pk) + post;
    if CardName(t) == CardName(u) {
      MiddleDetermined(pre, ShowNat(t.content.pk), ShowNat(u.content.pk), post);
      NatToStringInjective(t.content.pk.value, u.content.pk.value);
    }
  }

  /** What `trello_create_ticket` returns for a given transport outcome. */
  function CreateResult(outcome: Transport<Response>): (r: (Option<string>, Option<string>))
    ensures outcome.TransportError? ==> r == (Some(""), Some(""))
    ensures outcome.Delivered? ==>
      (r.0.Some? <==> "id" in outcome.reply.fields) && (r.1.Some? <==> "url" in outcome.reply.fields)
    ensures outcome.Delivered? && r.0.Some? ==> r.0.value == outcome.reply.fields["id"]
    ensures outcome.Delivered? && r.1.Some? ==> r.1.value == outcome.reply.fields["url"]
  {
    match outcome
    case TransportError => (Some(""), Some(""))
    case Delivered(reply) => (Get(reply.fields, "id"), Get(reply.fields, "url"))
  }

  /** `TrelloLabel.objects.filter(module=...).first()`: the first label of the module, if any. */
  function FindLabel(labels: seq<Label>, moduleName: Option<string>): (r: Option<Label>)
    ensures r.None? <==> forall i :: 0 <= i < |labels| ==> labels[i].moduleName != moduleName
    ensures r.Some? ==>
      r.value.moduleName == moduleName &&
      exists i :: 0 <= i < |labels| && labels[i] == r.value &&
        forall j :: 0 <= j < i ==> labels[j].moduleName != moduleName
  {
    if |labels| == 0 then None
    else if labels[0].moduleName == moduleName then Some(labels[0])
    else
      var r := FindLabel(labels[1..], moduleName);
      assert forall i :: 1 <= i < |labels| ==> labels[i] == labels[1..][i - 1];
      if r.Some? then
        ghost var i :| 0 <= i < |labels[1..]| && labels[1..][i] == r.value
          && r.value.moduleName == moduleName
          && forall j :: 0 <= j < i ==> labels[1..][j].moduleName != moduleName;
        assert labels[i + 1] == r.value;
        r
      else r
  }

  /** The request log of the board service, as seen from this adapter. */
  class TrelloApi {
    var requests: seq<TrelloRequest>

    constructor ()
      ensures requests == []
    {
      requests := [];
    }

    /** `trello_create_ticket`: one card-create request; the sentinel on a transport error. */
    method CreateTicket(t: TicketData, settings: Settings, outcome: Transport<Response>)
      returns (cardId: Option<string>, cardUrl: Option<string>)
      modifies this
      ensures requests == old(requests) + [CreateCard(settings.trelloListId, CardName(t), t.content.description)]
      ensures (cardId, cardUrl) == CreateResult(outcome)
    {
      requests := requests + [CreateCard(settings.trelloListId, CardName(t), t.content.description)];
      match outcome {
        case TransportError =>
          return Some(""), Some("");
        case Delivered(reply) =>
          cardId, cardUrl := Get(reply.fields, "id"), Get(reply.fields, "url");
      }
    }

    /**
     * `trello_add_label`: attach the module's first label to the stored card, or do nothing. The
     * request is not guarded, so a transport error escapes as an exception (`raised`).
     */
    method AddLabel(t: TicketData, settings: Settings, labels: seq<Label>, outcome: Transport<Response>)
      returns (raised: bool)
      modifies this
      ensures FindLabel(labels, t.content.moduleName).None? ==> requests == old(requests) && !raised
      ensures FindLabel(labels, t.content.moduleName).Some? ==>
        requests == old(requests) + [AddCardLabel(t.card.id, FindLabel(labels, t.content.moduleName).value.trelloLabelId)]
        && (raised <==> outcome.TransportError?)
    {
      var found := FindLabel(labels, t.content.moduleName);
      if found.None? {
        return false;
      }
      requests := requests + [AddCardLabel(t.card.id, found.value.trelloLabelId)];
      raised := outcome.TransportError?;
    }
  }
}
