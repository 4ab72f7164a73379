/** The effectful part of the script: `insert_data` (read the message,
    route it, decrypt the token, upload every attachment, post the ticket,
    check for 201) and `lambda_handler` (fetch the object, insert_data,
    delete the object; any error ends the invocation without deletion).

    Every external call is an input: the parsed message, the decrypted
    credential, the token in each upload response, the ticket status and
    whether the deletion went through. Each request the script makes is
    appended to an effect log. The methods follow the script statement by
    statement. Each is proved equal to a trace function, and the lemmas
    state what the script promises about those traces. */
module Pipeline {
  import opened Wrappers
  import EmailAddress
  import DisplayName
  import Routing
  import opened Ticket

  newtype byte = x: int | 0 <= x < 256

  /** An attachment part: get_filename() (None when the part names no file),
      get_content_type() and get_content(). */
  datatype Attachment = Attachment(filename: Option<string>, contentType: string, content: seq<byte>)

  /** The parsed message: msg['to'], msg['from'] and msg['subject'] (None
      when the header is missing), the content of
      get_body(preferencelist=('html', 'plain')) (None when there is no such
      part) and the parts iter_attachments() yields, in order. */
  datatype Message = Message(
    to: Option<string>,
    from: Option<string>,
    subject: Option<string>,
    body: Option<string>,
    attachments: seq<Attachment>)

  /** The answers of the outside world during one invocation: the decrypted
      token of the selected instance (None when the environment lookup or
      the decryption fails), upload.token of the k-th upload response (None
      when it is not JSON or has no upload.token), the ticket response's
      status code, and whether delete_object went through. */
  datatype World = World(
    credential: Option<string>,
    uploadReply: nat -> Option<Token>,
    ticketStatus: int,
    deleteOk: bool)

  /** The basic-auth pair of every request. */
  datatype Auth = Auth(user: string, secret: string)

  /** The calls the script makes to the outside world. */
  datatype Effect =
    | Fetch
    | Decrypt(tokenEnv: string)
    | Upload(url: string, contentType: string, content: seq<byte>, auth: Auth)
    | PostTicket(url: string, payload: Payload, auth: Auth)
    | Delete

  /** Why an invocation fails. */
  datatype Failure =
    | FetchFailed
    | NoBodyContent
    | MissingHeader(header: string)
    | NoAddressFound(header: string)
    | CredentialUnavailable
    | MissingFilename(index: nat)
    | InvalidUploadResponse(index: nat)
    | TicketCreationFailed(status: int)
    | DeleteFailed

  datatype Result<T> = Ok(value: T) | Err(failure: Failure)

  datatype Outcome = Success | Failed(failure: Failure)

  // ---------------------------------------------------------------------
  // Lines 31-87 up to the decryption: nothing here touches the network.

  /** What insert_data has computed by the time it decrypts the token. */
  datatype Prepared = Prepared(
    brand: Routing.BrandId,
    instance: string,
    endpoint: Routing.Endpoint,
    subject: Option<string>,
    requester: Requester,
    htmlBody: string)

  /** The body, the recipient and its route, the subject, the requester and
      the ticket endpoint, in the script's order; the first step that raises
      decides the failure. */
  function Prepare(msg: Message): (r: Result<Prepared>)
    ensures r.Ok? <==>
              && msg.body.Some? && msg.to.Some? && msg.from.Some?
              && EmailAddress.ExtractAddress(msg.to.value).Some?
              && EmailAddress.ExtractAddress(msg.from.value).Some?
    ensures msg.body.None? ==> r == Err(NoBodyContent)
    ensures msg.body.Some? && msg.to.None? ==> r == Err(MissingHeader("to"))
    ensures msg.body.Some? && msg.to.Some? && EmailAddress.ExtractAddress(msg.to.value).None? ==>
              r == Err(NoAddressFound("to"))
    ensures (&& msg.body.Some? && msg.to.Some? && EmailAddress.ExtractAddress(msg.to.value).Some?
             && msg.from.None?) ==> r == Err(MissingHeader("from"))
    ensures (&& msg.body.Some? && msg.to.Some? && EmailAddress.ExtractAddress(msg.to.value).Some?
             && msg.from.Some? && EmailAddress.ExtractAddress(msg.from.value).None?) ==>
              r == Err(NoAddressFound("from"))
    ensures r.Err? ==> r.failure in {NoBodyContent, MissingHeader("to"), NoAddressFound("to"),
                                     MissingHeader("from"), NoAddressFound("from")}
    ensures r.Ok? ==>
              && r.value.htmlBody == msg.body.value && r.value.subject == msg.subject
              && Routing.Route(r.value.brand, r.value.instance)
                 == Routing.RouteFor(EmailAddress.ExtractAddress(msg.to.value).value)
              && r.value.endpoint == Routing.TicketEndpoint(r.value.instance)
              && r.value.requester.email == EmailAddress.ExtractAddress(msg.from.value).value
              && r.value.requester.name == DisplayName.RequesterName(msg.from.value, r.value.requester.email)
              && r.value.requester.name != []
  {
    if msg.body.None? then Err(NoBodyContent)
    else if msg.to.None? then Err(MissingHeader("to"))
    else match EmailAddress.ExtractAddress(msg.to.value)
    case None => Err(NoAddressFound("to"))
    case Some(toEmail) =>
      var route := Routing.RouteFor(toEmail);
      if msg.from.None? then Err(MissingHeader("from"))
      else match EmailAddress.ExtractAddress(msg.from.value)
      case None => Err(NoAddressFound("from"))
      case Some(email) =>
        assert EmailAddress.IsBareAddress(email);
        var requester := Requester(DisplayName.RequesterName(msg.from.value, email), email);
        Ok(Prepared(route.brand, route.instance, Routing.TicketEndpoint(route.instance),
                    msg.subject, requester, msg.body.value))
  }

  // ---------------------------------------------------------------------
  // Lines 91-106: the upload loop.

  /** The upload request for an attachment that has a filename. */
  function UploadRequest(instance: string, auth: Auth, att: Attachment): Effect
    requires att.filename.Some?
  {
    Upload(Routing.UploadUrl(instance, att.filename.value), att.contentType, att.content, auth)
  }

  /** Attachment k can be uploaded and its response carries a token. */
  ghost predicate Uploadable(atts: seq<Attachment>, reply: nat -> Option<Token>, k: nat)
    requires k < |atts|
  {
    atts[k].filename.Some? && reply(k).Some?
  }

  /** The loop after its first n iterations: the tokens collected and the
      requests made, or the failure that ended it with the requests made. */
  function UploadsUpTo(instance: string, auth: Auth, atts: seq<Attachment>,
                       reply: nat -> Option<Token>, n: nat): (Result<seq<Token>>, seq<Effect>)
    requires n <= |atts|
    decreases n
  {
    if n == 0 then (Ok([]), [])
    else
      var prev := UploadsUpTo(instance, auth, atts, reply, n - 1);
      if prev.0.Err? then prev
      // 'https://' + instance + '...' + None raises before the request.
      else if atts[n - 1].filename.None? then (Err(MissingFilename(n - 1)), prev.1)
      else
        var effects := prev.1 + [UploadRequest(instance, auth, atts[n - 1])];
        match reply(n - 1)
        case None => (Err(InvalidUploadResponse(n - 1)), effects)
        case Some(t) => (Ok(prev.0.value + [t]), effects)
  }

  /** Once the loop has failed, later iterations never run. */
  lemma {:induction false} FailureSticks(instance: string, auth: Auth, atts: seq<Attachment>,
                                         reply: nat -> Option<Token>, n: nat, m: nat)
    requires n <= m <= |atts|
    requires UploadsUpTo(instance, auth, atts, reply, n).0.Err?
    ensures UploadsUpTo(instance, auth, atts, reply, m) == UploadsUpTo(instance, auth, atts, reply, n)
    decreases m
  {
    if m > n {
      FailureSticks(instance, auth, atts, reply, n, m - 1);
    }
  }

  /** One request per attachment, in iteration order, each to the upload URL
      of the routed instance; when the loop completes, the tokens are the
      responses' tokens in the same order. */
  lemma {:induction false} UploadRequests(instance: string, auth: Auth, atts: seq<Attachment>,
                                          reply: nat -> Option<Token>, n: nat)
    requires n <= |atts|
    ensures var (res, effects) := UploadsUpTo(instance, auth, atts, reply, n);
            && (forall k :: 0 <= k < |effects| ==>
                  k < n && atts[k].filename.Some? && effects[k] == UploadRequest(instance, auth, atts[k]))
            && (res.Ok? ==>
                  && |effects| == n && |res.value| == n
                  && forall k :: 0 <= k < n ==> reply(k) == Some(res.value[k]))
    decreases n
  {
    if n > 0 {
      UploadRequests(instance, auth, atts, reply, n - 1);
    }
  }

  /** The loop completes exactly when every attachment has a filename and
      its response carries a token. */
  lemma {:induction false} UploadsOkIff(instance: string, auth: Auth, atts: seq<Attachment>,
                                        reply: nat -> Option<Token>, n: nat)
    requires n <= |atts|
    ensures UploadsUpTo(instance, auth, atts, reply, n).0.Ok? <==>
              forall k :: 0 <= k < n ==> Uploadable(atts, reply, k)
    decreases n
  {
    if n > 0 {
      UploadsOkIff(instance, auth, atts, reply, n - 1);
      if UploadsUpTo(instance, auth, atts, reply, n - 1).0.Ok? && !Uploadable(atts, reply, n - 1) {
        assert UploadsUpTo(instance, auth, atts, reply, n).0.Err?;
      }
    }
  }

  /** A failed loop stopped at the first attachment that has no filename or
      no token in its response. */
  lemma {:induction false} UploadsError(instance: string, auth: Auth, atts: seq<Attachment>,
                                        reply: nat -> Option<Token>, n: nat)
    requires n <= |atts|
    ensures var res := UploadsUpTo(instance, auth, atts, reply, n).0;
            res.Err? ==>
              && (res.failure.MissingFilename? || res.failure.InvalidUploadResponse?)
              && res.failure.index < n
              && (forall k :: 0 <= k < res.failure.index ==> Uploadable(atts, reply, k))
              && !Uploadable(atts, reply, res.failure.index)
              && (res.failure.MissingFilename? <==> atts[res.failure.index].filename.None?)
    decreases n
  {
    if n > 0 {
      if UploadsUpTo(instance, auth, atts, reply, n - 1).0.Err? {
        UploadsError(instance, auth, atts, reply, n - 1);
      } else {
        UploadsOkIff(instance, auth, atts, reply, n - 1);
      }
    }
  }

  /** A failed loop made one request for each attachment before the one it
      stopped at, and one for that attachment when it had a filename. */
  lemma {:induction false} UploadsErrorRequests(instance: string, auth: Auth, atts: seq<Attachment>,
                                                reply: nat -> Option<Token>, n: nat)
    requires n <= |atts|
    ensures var (res, effects) := UploadsUpTo(instance, auth, atts, reply, n);
            res.Err? && (res.failure.MissingFilename? || res.failure.InvalidUploadResponse?) ==>
              |effects| == if res.failure.MissingFilename? then res.failure.index
                           else res.failure.index + 1
    decreases n
  {
    if n > 0 {
      if UploadsUpTo(instance, auth, atts, reply, n - 1).0.Err? {
        UploadsErrorRequests(instance, auth, atts, reply, n - 1);
      } else {
        UploadRequests(instance, auth, atts, reply, n - 1);
      }
    }
  }

  /** The `for attachment in attachments` loop of lines 91-106. */
  method UploadAttachments(instance: string, auth: Auth, atts: seq<Attachment>,
                           reply: nat -> Option<Token>)
    returns (result: Result<seq<Token>>, effects: seq<Effect>)
    ensures (result, effects) == UploadsUpTo(instance, auth, atts, reply, |atts|)
  {
    var tokens: seq<Token> := [];
    effects := [];
    var i := 0;
    while i < |atts|
      invariant 0 <= i <= |atts|
      invariant UploadsUpTo(instance, auth, atts, reply, i) == (Ok(tokens), effects)
    {
      var attachment := atts[i];
      if attachment.filename.None? {
        result := Err(MissingFilename(i));
        FailureSticks(instance, auth, atts, reply, i + 1, |atts|);
        return;
      }
      var url := Routing.UploadUrl(instance, attachment.filename.value);
      effects := effects + [Upload(url, attachment.contentType, attachment.content, auth)];
      var token := reply(i);
      if token.None? {
        result := Err(InvalidUploadResponse(i));
        FailureSticks(instance, auth, atts, reply, i + 1, |atts|);
        return;
      }
      tokens := tokens + [token.value];
      i := i + 1;
    }
    result := Ok(tokens);
  }

  // ---------------------------------------------------------------------
  // insert_data and lambda_handler.

  /** The ticket request, and the outcome of the 201 check on its status. */
  function Submit(p: Prepared, auth: Auth, uploads: Option<seq<Token>>, status: int,
                  before: seq<Effect>): (Outcome, seq<Effect>)
  {
    var payload := TicketPayload(p.brand, p.subject, p.requester, p.htmlBody, uploads);
    (if status == 201 then Success else Failed(TicketCreationFailed(status)),
     before + [PostTicket(p.endpoint.ticketsUrl, payload, auth)])
  }

  /** Lines 68-124 of insert_data as a trace, from the prepared values:
      decrypt the selected token, upload the attachments when the guard
      holds, post the ticket, check for 201. attachmentsGuard is the truth
      value of the iterator tested at line 90; a Python iterator object is
      always true, so in the script it always holds, even for a message
      without attachments. */
  function SendRun(p: Prepared, atts: seq<Attachment>, attachmentsGuard: bool, world: World): (Outcome, seq<Effect>)
  {
    var decrypt := [Decrypt(p.endpoint.tokenEnv)];
    match world.credential
    case None => (Failed(CredentialUnavailable), decrypt)
    case Some(secret) =>
      var auth := Auth(p.endpoint.user, secret);
      if attachmentsGuard then
        var (res, uploads) := UploadsUpTo(p.instance, auth, atts, world.uploadReply, |atts|);
        match res
        case Err(f) => (Failed(f), decrypt + uploads)
        case Ok(tokens) => Submit(p, auth, Some(tokens), world.ticketStatus, decrypt + uploads)
      else
        Submit(p, auth, None, world.ticketStatus, decrypt)
  }

  /** insert_data as a trace: nothing is sent when preparation fails. */
  function InsertDataRun(msg: Message, attachmentsGuard: bool, world: World): (Outcome, seq<Effect>)
  {
    match Prepare(msg)
    case Err(f) => (Failed(f), [])
    case Ok(p) => SendRun(p, msg.attachments, attachmentsGuard, world)
  }

  /** lambda_handler as a trace: Fetch, then insert_data, then Delete when
      insert_data returned normally. */
  function HandlerRun(fetched: Option<Message>, attachmentsGuard: bool, world: World): (Outcome, seq<Effect>)
  {
    match fetched
    case None => (Failed(FetchFailed), [Fetch])
    case Some(msg) => AfterInsert(InsertDataRun(msg, attachmentsGuard, world), world.deleteOk)
  }

  /** The handler's trace once the object was fetched and insert_data ended
      with `inserted`: the object is deleted only when insert_data returned
      normally. */
  function AfterInsert(inserted: (Outcome, seq<Effect>), deleteOk: bool): (Outcome, seq<Effect>)
  {
    var (outcome, effects) := inserted;
    if outcome.Failed? then (outcome, [Fetch] + effects)
    else (if deleteOk then Success else Failed(DeleteFailed), [Fetch] + effects + [Delete])
  }

  /** Lines 68-124 of insert_data. */
  method Send(p: Prepared, atts: seq<Attachment>, attachmentsGuard: bool, world: World)
    returns (outcome: Outcome, effects: seq<Effect>)
    ensures (outcome, effects) == SendRun(p, atts, attachmentsGuard, world)
  {
    effects := [Decrypt(p.endpoint.tokenEnv)];
    if world.credential.None? {
      outcome := Failed(CredentialUnavailable);
      return;
    }
    var auth := Auth(p.endpoint.user, world.credential.value);
    var uploads: Option<seq<Token>> := None;
    if attachmentsGuard {
      var result, uploadEffects := UploadAttachments(p.instance, auth, atts, world.uploadReply);
      effects := effects + uploadEffects;
      if result.Err? {
        outcome := Failed(result.failure);
        return;
      }
      uploads := Some(result.value);
    }
    var payload := TicketPayload(p.brand, p.subject, p.requester, p.htmlBody, uploads);
    effects := effects + [PostTicket(p.endpoint.ticketsUrl, payload, auth)];
    if world.ticketStatus != 201 {
      outcome := Failed(TicketCreationFailed(world.ticketStatus));
      return;
    }
    outcome := Success;
  }

  /** insert_data, lines 28-124. */
  method InsertData(msg: Message, attachmentsGuard: bool, world: World)
    returns (outcome: Outcome, effects: seq<Effect>)
    ensures (outcome, effects) == InsertDataRun(msg, attachmentsGuard, world)
  {
    var prepared := Prepare(msg);
    if prepared.Err? {
      outcome, effects := Failed(prepared.failure), [];
      return;
    }
    outcome, effects := Send(prepared.value, msg.attachments, attachmentsGuard, world);
  }

  /** lambda_handler, lines 127-157. */
  method LambdaHandler(fetched: Option<Message>, attachmentsGuard: bool, world: World)
    returns (outcome: Outcome, effects: seq<Effect>)
    ensures (outcome, effects) == HandlerRun(fetched, attachmentsGuard, world)
  {
    effects := [Fetch];
    if fetched.None? {
      outcome := Failed(FetchFailed);
      return;
    }
    var inserted, insertEffects := InsertData(fetched.value, attachmentsGuard, world);
    effects := effects + insertEffects;
    if inserted.Failed? {
      outcome := inserted;
      return;
    }
    effects := effects + [Delete];
    outcome := if world.deleteOk then Success else Failed(DeleteFailed);
  }

  // ---------------------------------------------------------------------
  // What the traces promise.

  /** The trace ends with a ticket request. */
  ghost predicate EndsWithTicket(effects: seq<Effect>) {
    |effects| > 0 && effects[|effects| - 1].PostTicket?
  }

  /** After preparation, insert_data starts with the decryption and makes at
      most one ticket request, as its last one. */
  lemma TicketIsLastRequest(p: Prepared, atts: seq<Attachment>,
                            attachmentsGuard: bool, world: World)
    ensures var (outcome, effects) := SendRun(p, atts, attachmentsGuard, world);
            && |effects| >= 1 && effects[0] == Decrypt(p.endpoint.tokenEnv)
            && (forall q :: 0 <= q < |effects| && effects[q].PostTicket? ==> q == |effects| - 1)
            && (forall q :: 0 <= q < |effects| ==> effects[q].Decrypt? || effects[q].Upload? || effects[q].PostTicket?)
            && (outcome == Success ==> EndsWithTicket(effects) && world.ticketStatus == 201)
  {
    if world.credential.Some? && attachmentsGuard {
      var auth := Auth(p.endpoint.user, world.credential.value);
      UploadRequests(p.instance, auth, atts, world.uploadReply, |atts|);
    }
  }

  /** A ticket request goes to the selected endpoint with the decrypted
      token, and its payload carries the prepared fields, plus the upload
      tokens exactly when the guard holds. Without the guard the decryption
      is the only request before it. */
  lemma TicketRequestFields(p: Prepared, atts: seq<Attachment>,
                            attachmentsGuard: bool, world: World)
    requires EndsWithTicket(SendRun(p, atts, attachmentsGuard, world).1)
    ensures world.credential.Some?
    ensures var effects := SendRun(p, atts, attachmentsGuard, world).1;
            var ticket := effects[|effects| - 1];
            var uploads := ticket.payload.ticket.comment.uploads;
            && ticket.url == p.endpoint.ticketsUrl
            && ticket.auth == Auth(p.endpoint.user, world.credential.value)
            && ticket.payload == TicketPayload(p.brand, p.subject, p.requester, p.htmlBody, uploads)
            && (uploads.Some? <==> attachmentsGuard)
            && (!attachmentsGuard ==> |effects| == 2)
  {
    if world.credential.Some? && attachmentsGuard {
      var auth := Auth(p.endpoint.user, world.credential.value);
      UploadRequests(p.instance, auth, atts, world.uploadReply, |atts|);
    }
  }

  /** With the guard, a ticket request is made only after every attachment
      was uploaded, in order, to the routed instance, and answered with a
      token; the payload's uploads are those tokens in the same order. */
  lemma TicketOnlyAfterEveryUpload(p: Prepared, atts: seq<Attachment>, world: World)
    requires EndsWithTicket(SendRun(p, atts, true, world).1)
    ensures world.credential.Some?
    ensures var effects := SendRun(p, atts, true, world).1;
            var uploads := effects[|effects| - 1].payload.ticket.comment.uploads;
            var auth := Auth(p.endpoint.user, world.credential.value);
            && |effects| == |atts| + 2 && uploads.Some? && |uploads.value| == |atts|
            && forall k :: 0 <= k < |atts| ==>
                 && atts[k].filename.Some? && world.uploadReply(k) == Some(uploads.value[k])
                 && effects[k + 1] == UploadRequest(p.instance, auth, atts[k])
  {
    var auth := Auth(p.endpoint.user, world.credential.value);
    var (res, uploads) := UploadsUpTo(p.instance, auth, atts, world.uploadReply, |atts|);
    UploadRequests(p.instance, auth, atts, world.uploadReply, |atts|);
    var decrypt := [Decrypt(p.endpoint.tokenEnv)];
    // A failed loop ends the trace with an upload or the decryption.
    assert res.Err? ==> SendRun(p, atts, true, world).1 == decrypt + uploads;
    assert res.Ok?;
    var ticket := PostTicket(p.endpoint.ticketsUrl,
                             TicketPayload(p.brand, p.subject, p.requester, p.htmlBody, Some(res.value)), auth);
    var effects := decrypt + uploads + [ticket];
    assert SendRun(p, atts, true, world).1 == effects;
    forall k | 0 <= k < |atts|
      ensures effects[k + 1] == UploadRequest(p.instance, auth, atts[k])
    {
      assert effects[k + 1] == uploads[k];
    }
  }

  /** After preparation, insert_data succeeds exactly when decryption
      succeeds, every attachment is uploaded with a token (when the guard
      holds) and the ticket request answers 201. */
  lemma SendSucceedsIff(p: Prepared, atts: seq<Attachment>,
                        attachmentsGuard: bool, world: World)
    ensures SendRun(p, atts, attachmentsGuard, world).0 == Success <==>
              && world.credential.Some?
              && (attachmentsGuard ==> forall k :: 0 <= k < |atts| ==> Uploadable(atts, world.uploadReply, k))
              && world.ticketStatus == 201
    ensures var outcome := SendRun(p, atts, attachmentsGuard, world).0;
            outcome.Failed? ==>
              || outcome.failure == CredentialUnavailable
              || outcome.failure.MissingFilename? || outcome.failure.InvalidUploadResponse?
              || outcome.failure == TicketCreationFailed(world.ticketStatus)
  {
    if world.credential.Some? && attachmentsGuard {
      var auth := Auth(p.endpoint.user, world.credential.value);
      UploadsOkIff(p.instance, auth, atts, world.uploadReply, |atts|);
      UploadsError(p.instance, auth, atts, world.uploadReply, |atts|);
    }
  }

  /** An attachment without a filename, or an upload response without a
      token, ends insert_data with an upload failure at or before it, and
      before any ticket request is made. */
  lemma FailedUploadMeansNoTicket(p: Prepared, atts: seq<Attachment>, world: World, k: nat)
    requires world.credential.Some?
    requires k < |atts| && !Uploadable(atts, world.uploadReply, k)
    ensures var (outcome, effects) := SendRun(p, atts, true, world);
            && outcome.Failed?
            && (outcome.failure.MissingFilename? || outcome.failure.InvalidUploadResponse?)
            && outcome.failure.index <= k
            && forall q :: 0 <= q < |effects| ==> !effects[q].PostTicket?
  {
    var auth := Auth(p.endpoint.user, world.credential.value);
    UploadsOkIff(p.instance, auth, atts, world.uploadReply, |atts|);
    UploadsError(p.instance, auth, atts, world.uploadReply, |atts|);
    UploadRequests(p.instance, auth, atts, world.uploadReply, |atts|);
  }

  /** The guard at line 90 always holds in the script, so a message without
      attachments is posted with an empty `uploads` list; only a false guard
      would leave the key out. */
  lemma NoAttachmentsStillCarryUploads(p: Prepared, attachmentsGuard: bool, world: World)
    requires world.credential.Some?
    ensures var (outcome, effects) := SendRun(p, [], attachmentsGuard, world);
            && |effects| == 2 && effects[1].PostTicket?
            && effects[1].payload.ticket.comment.uploads == if attachmentsGuard then Some([]) else None
  {
  }

  /** insert_data neither fetches nor deletes, and when it returns normally
      its last request was a ticket request that answered 201. */
  lemma InsertDataRequests(msg: Message, attachmentsGuard: bool, world: World)
    ensures var (outcome, effects) := InsertDataRun(msg, attachmentsGuard, world);
            && (forall q :: 0 <= q < |effects| ==> effects[q] != Fetch && effects[q] != Delete)
            && (outcome == Success ==> EndsWithTicket(effects) && world.ticketStatus == 201)
            && outcome != Failed(DeleteFailed)
  {
    var r := Prepare(msg);
    if r.Ok? {
      SendRequests(r.value, msg.attachments, attachmentsGuard, world);
    }
  }

  /** InsertDataRequests once preparation has succeeded. */
  lemma SendRequests(p: Prepared, atts: seq<Attachment>, attachmentsGuard: bool, world: World)
    ensures var (outcome, effects) := SendRun(p, atts, attachmentsGuard, world);
            && (forall q :: 0 <= q < |effects| ==> effects[q] != Fetch && effects[q] != Delete)
            && (outcome == Success ==> EndsWithTicket(effects) && world.ticketStatus == 201)
            && outcome != Failed(DeleteFailed)
  {
    TicketIsLastRequest(p, atts, attachmentsGuard, world);
    SendSucceedsIff(p, atts, attachmentsGuard, world);
  }

  /** DeleteOnlyAfterCreated for a given insert_data result. */
  lemma DeleteFollowsTicket(inserted: (Outcome, seq<Effect>), world: World)
    requires forall q :: 0 <= q < |inserted.1| ==> inserted.1[q] != Fetch && inserted.1[q] != Delete
    requires inserted.0 == Success ==> EndsWithTicket(inserted.1) && world.ticketStatus == 201
    requires inserted.0 != Failed(DeleteFailed)
    ensures var (outcome, effects) := AfterInsert(inserted, world.deleteOk);
            && |effects| >= 1 && effects[0] == Fetch
            && (forall k :: 0 <= k < |effects| && effects[k] == Delete ==>
                  && k == |effects| - 1 && k >= 2 && effects[k - 1].PostTicket?
                  && world.ticketStatus == 201)
            && (outcome == Success ==> effects[|effects| - 1] == Delete)
            && (outcome.Failed? ==> (outcome.failure == DeleteFailed <==> Delete in effects))
  {
    var e := inserted.1;
    assert forall q :: 0 <= q < |e| ==> ([Fetch] + e)[q + 1] == e[q];
    assert forall q :: 0 <= q < |e| ==> ([Fetch] + e + [Delete])[q + 1] == e[q];
  }

  /** The handler deletes the object at most once, as its last request, and
      only right after a ticket request that answered 201. Any other failure
      leaves the object in place. */
  lemma DeleteOnlyAfterCreated(fetched: Option<Message>, attachmentsGuard: bool, world: World)
    ensures var (outcome, effects) := HandlerRun(fetched, attachmentsGuard, world);
            && |effects| >= 1 && effects[0] == Fetch
            && (forall k :: 0 <= k < |effects| && effects[k] == Delete ==>
                  && k == |effects| - 1 && k >= 2 && effects[k - 1].PostTicket?
                  && world.ticketStatus == 201)
            && (outcome == Success ==> effects[|effects| - 1] == Delete)
            && (outcome.Failed? ==> (outcome.failure == DeleteFailed <==> Delete in effects))
  {
    if fetched.Some? {
      var inserted := InsertDataRun(fetched.value, attachmentsGuard, world);
      InsertDataRequests(fetched.value, attachmentsGuard, world);
      DeleteFollowsTicket(inserted, world);
    }
  }

  /** The invocation succeeds exactly when everything it depends on does:
      the fetch, extraction, decryption, every upload (when the guard holds),
      the 201 check and the deletion. Failing extraction sends nothing
      after the fetch. */
  lemma HandlerSucceedsIff(fetched: Option<Message>, attachmentsGuard: bool, world: World)
    ensures var (outcome, effects) := HandlerRun(fetched, attachmentsGuard, world);
            && (outcome == Success <==>
                  && fetched.Some? && Prepare(fetched.value).Ok? && world.credential.Some?
                  && (attachmentsGuard ==> forall k :: 0 <= k < |fetched.value.attachments| ==>
                                             Uploadable(fetched.value.attachments, world.uploadReply, k))
                  && world.ticketStatus == 201 && world.deleteOk)
            && (fetched.Some? && Prepare(fetched.value).Err? ==>
                  outcome == Failed(Prepare(fetched.value).failure) && effects == [Fetch])
  {
    if fetched.Some? {
      var msg := fetched.value;
      match Prepare(msg)
      case Err(_) =>
      case Ok(p) =>
        SendSucceedsIff(p, msg.attachments, attachmentsGuard, world);
    }
  }
}
