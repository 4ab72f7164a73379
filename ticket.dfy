/** The ticket-creation payload, as a value rather than JSON text:
    {'ticket': {'brand_id', 'subject', 'tags', 'is_public',
                'comment': {['uploads',] 'public', 'html_body'},
                'requester': {'name', 'email'}}}. */
module Ticket {
  import opened Wrappers
  import Routing

  /** An opaque upload token returned by the uploads endpoint. */
  type Token = string

  datatype Requester = Requester(name: string, email: string)

  /** The comment block; `uploads` is None when the key is absent. */
  datatype Comment = Comment(uploads: Option<seq<Token>>, public: bool, htmlBody: string)

  /** `subject` is None when the message has no Subject header (JSON null). */
  datatype TicketFields = TicketFields(
    brandId: Routing.BrandId,
    subject: Option<string>,
    tags: seq<string>,
    isPublic: bool,
    comment: Comment,
    requester: Requester)

  datatype Payload = Payload(ticket: TicketFields)

  /** The payload the script builds: the variant with `comment.uploads` when
      uploads is Some, the one without it otherwise. Tags are always the
      empty list and the ticket and its comment are always public. */
  function TicketPayload(brand: Routing.BrandId, subject: Option<string>, requester: Requester,
                         htmlBody: string, uploads: Option<seq<Token>>): (p: Payload)
    ensures p.ticket.brandId == brand && p.ticket.subject == subject
    ensures p.ticket.tags == [] && p.ticket.isPublic && p.ticket.comment.public
    ensures p.ticket.comment.htmlBody == htmlBody && p.ticket.requester == requester
    ensures p.ticket.comment.uploads == uploads
  {
    Payload(TicketFields(brand, subject, [], true, Comment(uploads, true, htmlBody), requester))
  }

  /** The two variants differ only in whether `comment.uploads` is present. */
  lemma VariantsDifferOnlyInUploads(brand: Routing.BrandId, subject: Option<string>, requester: Requester,
                                    htmlBody: string, tokens: seq<Token>)
    ensures var p := TicketPayload(brand, subject, requester, htmlBody, Some(tokens));
            var q := TicketPayload(brand, subject, requester, htmlBody, None);
            p != q && p.ticket.(comment := p.ticket.comment.(uploads := None)) == q.ticket
  {
  }
}
