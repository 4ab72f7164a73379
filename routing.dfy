/** Routing of a received message: the if/elif ladder from the recipient
    address to a brand and a helpdesk instance, the ticket endpoint and token
    chosen for that instance, and the upload URL built from it. */
module Routing {

  /** The four brand ids of the ladder. The script writes them as numerals
      that stand in for real ids; only their distinctness matters here. */
  datatype BrandId = Brand1 | Brand2 | Brand3 | CatchAllBrand

  const Mailbox1: string := "myemail@mydomain.com"
  const Mailbox2: string := "myemail2@mydomain.com"
  const Mailbox3: string := "myemail3@mydomain.com"

  const Instance1: string := "myinstance1"
  const Instance2: string := "myinstance2"
  const Instance3: string := "myinstance3"
  const Instance4: string := "myinstance4"

  /** The host name of an instance. */
  function Host(instance: string): string {
    instance + ".zendesk.com"
  }

  /** The tickets endpoint on an instance's host. The script writes the two it
      uses as literals, https://myinstance1.zendesk.com/api/v2/tickets.json
      and https://myinstance2.zendesk.com/api/v2/tickets.json. */
  function TicketsUrlOn(instance: string): string {
    "https://" + Host(instance) + "/api/v2/tickets.json"
  }

  const TicketsUrl1: string := TicketsUrlOn(Instance1)
  const TicketsUrl2: string := TicketsUrlOn(Instance2)
  const ApiUser: string := "myuser/token"

  /** Where a message goes: its brand and the instance it is uploaded to. */
  datatype Route = Route(brand: BrandId, instance: string)

  /** The routing ladder. It is total: a case variant or any other address
      falls through to the catch-all brand on instance 4. */
  function RouteFor(toEmail: string): (r: Route)
    ensures r == Route(Brand1, Instance1) <==> toEmail == Mailbox1
    ensures r == Route(Brand2, Instance2) <==> toEmail == Mailbox2
    ensures r == Route(Brand3, Instance3) <==> toEmail == Mailbox3
    ensures r == Route(CatchAllBrand, Instance4) <==> toEmail !in {Mailbox1, Mailbox2, Mailbox3}
  {
    if toEmail == Mailbox1 then Route(Brand1, Instance1)
    else if toEmail == Mailbox2 then Route(Brand2, Instance2)
    else if toEmail == Mailbox3 then Route(Brand3, Instance3)
    else Route(CatchAllBrand, Instance4)
  }

  /** Each brand belongs to exactly one instance. */
  lemma BrandDeterminesInstance(x: string, y: string)
    ensures RouteFor(x).brand == RouteFor(y).brand <==> RouteFor(x).instance == RouteFor(y).instance
  {
  }

  /** The comparison is exact and case-sensitive. */
  lemma CaseVariantIsCatchAll()
    ensures RouteFor("MyEmail@mydomain.com") == Route(CatchAllBrand, Instance4)
    ensures RouteFor("myemail@MYDOMAIN.COM") == Route(CatchAllBrand, Instance4)
  {
  }

  /** The ticket endpoint, API user and the name of the environment variable
      that holds the encrypted token. */
  datatype Endpoint = Endpoint(ticketsUrl: string, user: string, tokenEnv: string)

  /** The endpoint for an instance: instance 1 has its own, every other
      instance uses instance 2's. */
  function TicketEndpoint(instance: string): (e: Endpoint)
    ensures e.user == ApiUser
    ensures e.ticketsUrl == TicketsUrl1 <==> instance == Instance1
    ensures e.tokenEnv == "myinstance1_token" <==> instance == Instance1
    ensures instance != Instance1 ==> e == Endpoint(TicketsUrl2, ApiUser, "myinstance2_token")
  {
    assert TicketsUrl1[18] != TicketsUrl2[18];
    if instance == Instance1 then Endpoint(TicketsUrl1, ApiUser, "myinstance1_token")
    else Endpoint(TicketsUrl2, ApiUser, "myinstance2_token")
  }

  const UploadsPath: string := ".zendesk.com/api/v2/uploads?filename="

  /** The upload URL of an attachment: the instance name and the filename are
      pasted into the text with no escaping. */
  function UploadUrl(instance: string, filename: string): (u: string)
    ensures |u| == 8 + |instance| + |UploadsPath| + |filename|
    ensures u[..8] == "https://" && u[8..8 + |instance|] == instance
    ensures u[8 + |instance|..|u| - |filename|] == UploadsPath
    ensures u[|u| - |filename|..] == filename
  {
    "https://" + instance + UploadsPath + filename
  }

  /** For a given instance, the upload URL determines the filename. */
  lemma UploadUrlInjective(instance: string, f: string, g: string)
    requires UploadUrl(instance, f) == UploadUrl(instance, g)
    ensures f == g
  {
    var u := UploadUrl(instance, f);
    assert |f| == |g|;
    assert f == u[|u| - |f|..] == g;
  }

  /** Tickets go to the routed instance only for instances 1 and 2. For
      instances 3 and 4 uploads go to the routed instance, while the ticket
      that refers to them goes to instance 2, with instance 2's token. */
  lemma TicketHostIsRoutedHostOnlyFor1And2(toEmail: string)
    ensures var r := RouteFor(toEmail);
            TicketEndpoint(r.instance).ticketsUrl == TicketsUrlOn(r.instance)
            <==> r.instance in {Instance1, Instance2}
  {
    var r := RouteFor(toEmail);
    if r.instance == Instance3 || r.instance == Instance4 {
      assert TicketsUrl2[18] == '2' != TicketsUrlOn(r.instance)[18];
    }
  }

  /** Upload URLs name the routed instance, so two routes with different
      instances never share an upload URL. */
  lemma UploadUrlNamesRoutedInstance(x: string, y: string, f: string, g: string)
    requires RouteFor(x).instance != RouteFor(y).instance
    ensures UploadUrl(RouteFor(x).instance, f) != UploadUrl(RouteFor(y).instance, g)
  {
    var u := UploadUrl(RouteFor(x).instance, f);
    var v := UploadUrl(RouteFor(y).instance, g);
    assert u[18] != v[18];
  }
}
