# SES2Zendesk in Dafny

The SES2Zendesk Lambda script turns an e-mail into a Zendesk ticket. A mail
stored in S3 is fetched and parsed. The recipient address picks a brand and a
Zendesk instance, and the sender's display name and address become the
ticket's requester. The API token is then decrypted. Every attachment is
uploaded, the ticket is posted with the upload tokens, and the object is
deleted from S3 once the ticket comes back with 201 Created.

This project models the script's logic and proves properties of that model.

- `EmailAddress` (address.dfy) gives the meaning of
  `re.search(emailRegex, v).group(1)`. It is written as the regex engine's
  search: the greedy local run, then the backtracking of the greedy domain run
  down to a dot followed by a non-empty final label. It is proved to return
  the leftmost occurrence, and the longest one at that start, of a declarative
  address shape.
- `DisplayName` (display_name.dfy) gives the meaning of
  `re.search(nameRegex, v).group(1)`. It also models the fallback that uses
  the requester's address as its name.
- `Routing` (routing.dfy) covers the if/elif ladder from recipient to brand
  and instance, the ticket endpoint and token chosen for an instance, and the
  upload URL.
- `Ticket` (ticket.dfy) is the ticket payload, as a datatype rather than JSON
  text.
- `Pipeline` (pipeline.dfy) covers `insert_data` and `lambda_handler`. Each
  external call is an input: the parsed message, the decrypted token, the
  token in each upload response, the ticket status, and whether the deletion
  succeeds. Each request the script makes is appended to an effect log.
  - The upload loop, `insert_data` and `lambda_handler` are methods that
    follow the script statement by statement.
  - Each method is proved equal to a trace function.
  - The lemmas state what the script promises about those traces: ordering,
    all-or-nothing uploads, and deletion only after a 201.
- `Wrappers` (wrappers.dfy) holds the `Option` type.

Where the script's behaviour is easy to misread, the model follows the
script:

- **The attachments guard.** Line 90 tests the generator that
  `iter_attachments()` returns, and a generator object is always true in
  Python. So a message with no attachments
  is posted with an empty `uploads` list, not without the key. The guard is
  an explicit boolean input, and both branches are proved
  (`Pipeline.NoAttachmentsStillCarryUploads`).
- **How a failed upload is detected.** The script never checks an upload's
  status code. An upload fails when its response is not JSON
  (`json.loads` raises), when it has no `upload.token`, or when
  `requests.post` itself raises. The model folds all three into a response
  without a token.
- **Ticket endpoints.** Tickets for instances 3 and 4 go to instance 2's
  tickets endpoint with instance 2's token. Their uploads go to the routed
  instance (`Routing.TicketHostIsRoutedHostOnlyFor1And2`).
- **Quotes in the display name** are kept exactly as written. Quoted or not,
  they are part of group 1 of `nameRegex`.
- **A missing `To` or `From` header.** `re.search` on `None` raises, so the
  model reports `MissingHeader`.
- **A missing `Subject`.** The payload carries `None` (JSON null).
- **An attachment without a filename.** The URL concatenation raises
  before any request is made, so the model reports `MissingFilename`.

## Model

| member | source | states |
|---|---|---|
| EmailAddress.FindAddress | lambda_function.py:24 | the search returns an occurrence of the address pattern that is leftmost, and the longest at its start; it returns None exactly when the pattern occurs nowhere |
| EmailAddress.SearchFrom | lambda_function.py:24 | trying start positions from i on finds the first one where the pattern matches, with the longest match there; None means the pattern matches at no position at or after i |
| EmailAddress.MatchAt | lambda_function.py:24 | a match attempted at one start is an occurrence starting there, and it is longer than or equal to every occurrence at that start |
| EmailAddress.BacktrackDomain | lambda_function.py:24 | backtracking the greedy domain run from position m finds a dot and a final label that form a valid domain, and no domain with its dot at or before m ends later |
| EmailAddress.RunEnd | lambda_function.py:24 | a greedy character-class run ends at the first character outside the class (or at the end), and covers only class characters |
| EmailAddress.OccurrenceShape | lambda_function.py:24 | every occurrence starting at i has its '@' exactly where the greedy local run stops, and its final dot inside the greedy domain run |
| EmailAddress.ExtractAddress | lambda_function.py:34 | at line 34 and again at line 58, group 1 is absent exactly when no occurrence exists (the failing `.group` call); otherwise it is a bare address that occurs in the header at a position before which no occurrence starts (the leftmost match), and no occurrence at that position is longer |
| EmailAddress.BareAddressParts | lambda_function.py:24 | an extracted address has exactly one '@', a non-empty local part of `[a-zA-Z0-9._-]`, a non-empty part between the '@' and the final dot, and a dot followed by a non-empty dot-free final label |
| EmailAddress.BareAddressInClass | lambda_function.py:24 | every character of an extracted address is '@' or in `[a-zA-Z0-9._-]`, so it holds no whitespace |
| EmailAddress.ExtractFromAngleBrackets | lambda_function.py:58 | for `prefix<addr>rest` with no '@' in prefix, where rest does not continue the address, extraction yields exactly addr (the `"Display Name" <addr>` form) |
| DisplayName.LineEnd | lambda_function.py:25 | the greedy `.*` stops at the first newline or at the end of the text |
| DisplayName.BacktrackToSpace | lambda_function.py:25 | backtracking from x finds the largest position at or before x that holds a `\s` character, if there is one |
| DisplayName.GroupEnd | lambda_function.py:25 | group 1 ends at the largest position that holds whitespace and has no newline before it; the group is absent exactly when no such position exists |
| DisplayName.NameGroup | lambda_function.py:59 | group 1 is the longest newline-free prefix of the From value directly followed by whitespace, or None when there is none |
| DisplayName.RequesterName | lambda_function.py:59-62 | a present, non-empty group 1 is the name; otherwise (group absent or empty) the name is the address; with a non-empty address the name is never empty |
| DisplayName.NoSpaceMeansAddressAsName | lambda_function.py:59-62 | a From value with no whitespace character at all (a newline counts), such as a bare address, gives the address as the requester name |
| DisplayName.NewlineEndsName | lambda_function.py:25 | the newline is itself whitespace: for `abc\ndef` the name is `abc`, not the address |
| DisplayName.DisplayNameBeforeAddress | lambda_function.py:58-62 | for `name <addr>`, group 1 is name exactly as written (quotes kept), and the requester name is name, or addr when name is empty |
| Routing.RouteFor | lambda_function.py:38-49 | each of the three mailboxes maps to its own brand and instance (in both directions); every other recipient maps to the catch-all brand on instance 4 |
| Routing.BrandDeterminesInstance | lambda_function.py:38-49 | two recipients get the same brand exactly when they get the same instance |
| Routing.CaseVariantIsCatchAll | lambda_function.py:38-49 | the comparison is exact and case-sensitive: case variants of a mailbox fall through to the catch-all |
| Routing.TicketEndpoint | lambda_function.py:68-87 | the instance 1 URL and token are chosen exactly when the instance is instance 1; every other instance gets instance 2's URL and token; the user is always the same |
| Routing.UploadUrl | lambda_function.py:98 | the upload URL is `https://`, then the instance name unescaped, then the uploads path `.zendesk.com/api/v2/uploads?filename=`, then the filename unescaped at the end |
| Routing.UploadUrlInjective | lambda_function.py:98 | on one instance, the upload URL determines the filename |
| Routing.UploadUrlNamesRoutedInstance | lambda_function.py:98 | routes to different instances never share an upload URL |
| Routing.TicketHostIsRoutedHostOnlyFor1And2 | lambda_function.py:68-87 | for the instance the ladder at lines 38-49 picks, the ticket is posted to the routed instance's host exactly when that instance is 1 or 2 |
| Ticket.TicketPayload | lambda_function.py:108-112 | the payload carries the routed brand, the subject, empty tags, a public ticket and comment, the body and the requester, and `comment.uploads` exactly as given |
| Ticket.VariantsDifferOnlyInUploads | lambda_function.py:108-112 | the payloads with and without attachments differ, and only in `comment.uploads` |
| Pipeline.Prepare | lambda_function.py:31-62 | preparation succeeds exactly when the body, both headers and both addresses are found; otherwise the first one missing, in the script's order, decides the failure; on success the route, endpoint and requester are the ones extraction and routing give: the requester's address is the From address and its name is RequesterName of the From value, which is non-empty |
| Pipeline.UploadAttachments | lambda_function.py:91-106 | the loop's tokens and requests are the trace UploadsUpTo of all attachments; the invariant ties the list built so far to the trace of the first i attachments |
| Pipeline.FailureSticks | lambda_function.py:91-106 | once an iteration has failed, later iterations change neither the result nor the requests |
| Pipeline.UploadRequests | lambda_function.py:91-106 | one request per attachment, in order, to the routed instance's upload URL; a completed loop has as many requests and tokens as attachments, and the tokens are the responses' tokens in order |
| Pipeline.UploadsOkIff | lambda_function.py:91-106 | the loop completes exactly when every attachment has a filename and a token in its response |
| Pipeline.UploadsError | lambda_function.py:94-106 | a failed loop stopped at the first attachment with no filename or no token, and the failure kind says which |
| Pipeline.UploadsErrorRequests | lambda_function.py:94-106 | a failed loop made one request for each earlier attachment, plus one for the failing attachment when it had a filename |
| Pipeline.Send | lambda_function.py:68-124 | decryption, the upload loop when the guard holds, the ticket request and the 201 check give the trace SendRun |
| Pipeline.InsertData | lambda_function.py:28-124 | insert_data gives the trace InsertDataRun: no request at all when preparation fails |
| Pipeline.LambdaHandler | lambda_function.py:133-157 | the handler gives the trace HandlerRun: fetch, insert_data, then delete only when insert_data returned normally |
| Pipeline.TicketIsLastRequest | lambda_function.py:68-116 | after preparation, the decryption comes first, only decryption, upload and ticket requests are made, a ticket request can only be the last one, and success means a ticket request answered 201 |
| Pipeline.TicketRequestFields | lambda_function.py:68-116 | a ticket request goes to the selected endpoint with the decrypted token and carries the prepared fields, plus uploads exactly when the guard holds |
| Pipeline.TicketOnlyAfterEveryUpload | lambda_function.py:90-110 | with the guard, a ticket request comes after exactly one upload per attachment, in order, each answered with a token, and its uploads are those tokens in order |
| Pipeline.SendSucceedsIff | lambda_function.py:68-124 | after preparation, insert_data succeeds exactly when decryption succeeds, every upload yields a token (with the guard) and the status is 201; a failure is one of those four kinds |
| Pipeline.FailedUploadMeansNoTicket | lambda_function.py:94-110 | an attachment without a filename, or a response without a token, ends insert_data with an upload failure at or before it, and no ticket request is made |
| Pipeline.NoAttachmentsStillCarryUploads | lambda_function.py:90-116 | a message without attachments is posted with the empty uploads list when the guard holds, and without the key only when it does not |
| Pipeline.InsertDataRequests | lambda_function.py:28-124 | insert_data never fetches or deletes; when it returns normally its last request was a ticket request answered with 201 |
| Pipeline.DeleteOnlyAfterCreated | lambda_function.py:151-152 | the fetch comes first, a delete happens at most once, as the last request and right after a ticket request that passed the 201 check of lines 119-121; a successful invocation always deletes; only a failed deletion leaves a failure after a delete |
| Pipeline.HandlerSucceedsIff | lambda_function.py:133-157 | the invocation succeeds exactly when fetch, preparation, decryption, every upload (with the guard), the 201 check and the deletion all succeed; a failed preparation sends nothing after the fetch |

## Left out

- S3: the event's `Records[0]` lookup, `get`, the UTF-8 decoding of the object and `delete_object` are not modelled. The fetch is an optional parsed message, and the deletion is a log entry plus a boolean answer.
- KMS, base64 and `os.environ`: the environment lookup, the base64 decoding and the decryption with its function-name context are not modelled. Together they are one input, a credential that is present or absent, and one `Decrypt` log entry with the variable's name.
- HTTP and JSON: `requests.post`, JSON serialisation and parsing, headers and basic-auth encoding are not modelled. Each response is an input: the optional upload token, and the ticket status code. A network exception shows up as a missing token, or as a status other than 201.
- MIME parsing: `Parser(policy=policy.default)`, `get_body`, `iter_attachments`, `get_filename`, `get_content_type` and `get_content` are library code. Their results are the fields of the message input. The header parser's rewriting of address headers is part of that library code.
- The truthiness of the iterator at line 90 is an explicit boolean input, because the object is not modelled.
- `print` logging is left out; it has no effect on the outcome.
- SystemExit versus Exception: `exit()` after a non-201 status and a raised exception both end as a failure without deletion. The model does not tell them apart.
- Brand ids: the numerals are placeholders, and leading-zero literals are not valid Python 3. They are four distinct constructors.
- Pipeline.Prepare: it does not model which Python exception each failure raises (AttributeError, TypeError or KeyError). It only states which check failed first.
- Upload responses are given by attachment index, and the ticket status and the deletion answer are single values. The model does not capture responses that depend on timing or on the request's contents.
