/** What each handler of worker.js answers and what it leaves in the LINKS
    table, as functions of the table before the request. The handlers in
    module Handlers are proved to do exactly this; the lemmas here state what
    the protocol promises across requests. */
module Protocol {
  import opened Wrappers
  import opened Text
  import opened Routing

  /** The fields `url` and `path` of the form body, already parsed. */
  datatype Form = Form(url: Option<string>, path: Option<string>)

  /** An inbound request: its method, its serialized URL (`request.url`), the
      pathname of that URL, the `x-preshared-key` header and the form body. */
  datatype Request = Request(verb: string, href: string, pathname: string,
                             presharedKey: Option<string>, form: Form)

  /** A plain-text response, a 302 redirect, or an exception the handler does
      not catch (the runtime then answers with its own error). */
  datatype Response = Plain(status: int, body: string) | Redirect(location: string) | Fault

  /** A handler's answer and the table it leaves behind. */
  datatype Outcome = Outcome(response: Response, links: map<string, string>)

  /** The table invariant: every stored target is non-empty and parses as a URL. */
  ghost predicate WellFormed(links: map<string, string>, urlParses: string -> bool)
  {
    forall key :: key in links ==> links[key] != "" && urlParses(links[key])
  }

  /** `handlePOST`: check the key, the two fields and the target, then upsert. */
  function Create(links: map<string, string>, secret: string, urlParses: string -> bool,
                  req: Request): (o: Outcome)
    ensures o.response.Plain? && o.response.status in {201, 400, 403}
    ensures o.response.status != 201 ==> o.links == links
    ensures o.response.status == 201 ==>
      && Present(req.form.path)
      && o.links.Keys == links.Keys + {req.form.path.value}
      && o.links[req.form.path.value] != ""
      && urlParses(o.links[req.form.path.value])
  {
    if !Authorized(req.presharedKey, secret) then Outcome(Plain(403, "Bad key"), links)
    else if !Present(req.form.url) || !Present(req.form.path) then
      Outcome(Plain(400, "'url' and 'path' must be set"), links)
    else if !urlParses(req.form.url.value) then
      Outcome(Plain(400, "'url' must be a valid http url"), links)
    else
      Outcome(Plain(201, req.href + req.form.path.value),
              links[req.form.path.value := req.form.url.value])
  }

  /** `handleDELETE`: check the key, then remove the first path segment. */
  function Delete(links: map<string, string>, secret: string, req: Request): (o: Outcome)
    ensures o.response.Plain? && o.response.status in {200, 403, 404}
    ensures o.response.status != 200 ==> o.links == links
    ensures o.response.status == 200 ==>
      && FirstSegment(req.pathname) in links
      && o.links.Keys == links.Keys - {FirstSegment(req.pathname)}
  {
    var path := FirstSegment(req.pathname);
    if !Authorized(req.presharedKey, secret) then Outcome(Plain(403, "Sorry, bad key."), links)
    else if path == "" then Outcome(Plain(404, "Please supply a valid path"), links)
    else if path !in links then Outcome(Plain(404, "Path '" + path + "' not found"), links)
    else Outcome(Plain(200, req.href + " successfully deleted"), links - {path})
  }

  /** The body of the listing: every key followed by a newline, in list order. */
  function ListingBody(keys: seq<string>): (body: string)
    ensures body == "" <==> keys == []
    ensures keys != [] ==> body[|body| - 1] == '\n'
  {
    if keys == [] then "" else keys[0] + "\n" + ListingBody(keys[1..])
  }

  /** `handleRequest`: redirect to the stored target of the first segment;
      at the root, list the keys for the key holder and send everyone else
      to the apex domain. `names` is the store's listing of its keys. */
  function Resolve(links: map<string, string>, names: seq<string>, secret: string,
                   urlParses: string -> bool, req: Request): (r: Response)
    requires HttpScheme(req.href)
    ensures r.Plain? ==> r.status in {200, 404}
    ensures r.Plain? && r.status == 200 ==> FirstSegment(req.pathname) == "" && Authorized(req.presharedKey, secret)
    ensures r.Redirect? ==> urlParses(r.location)
    ensures r.Redirect? && FirstSegment(req.pathname) != "" ==> r.location in links.Values
  {
    var path := FirstSegment(req.pathname);
    if path == "" then
      if Authorized(req.presharedKey, secret) then Plain(200, ListingBody(names))
      else
        match Apex(req.href)
        case None => Fault
        case Some(apex) => if urlParses(apex) then Redirect(apex) else Fault
    else if path in links && links[path] != "" then
      if urlParses(links[path]) then Redirect(links[path]) else Fault
    else Plain(404, "url not found")
  }

  /** The fetch listener: dispatch on the method. */
  function Handle(links: map<string, string>, names: seq<string>, secret: string,
                  urlParses: string -> bool, req: Request): (o: Outcome)
    requires HttpScheme(req.href)
    ensures req.verb != "POST" ==> o.links.Keys <= links.Keys
    ensures forall key :: key in o.links && key in links && o.links[key] != links[key] ==>
      req.verb == "POST" && Present(req.form.path) && key == req.form.path.value
  {
    match Route(req.verb)
    case CreateLink => Create(links, secret, urlParses, req)
    case DeleteLink => Delete(links, secret, req)
    case ResolveLink => Outcome(Resolve(links, names, secret, urlParses, req), links)
  }

  // ---------------------------------------------------------------- dispatch

  /** POST creates, DELETE deletes, and every other method resolves or lists
      without touching the table. */
  lemma DispatchByMethod(links: map<string, string>, names: seq<string>, secret: string,
                         urlParses: string -> bool, req: Request)
    requires HttpScheme(req.href)
    ensures req.verb == "POST" ==> Handle(links, names, secret, urlParses, req) == Create(links, secret, urlParses, req)
    ensures req.verb == "DELETE" ==> Handle(links, names, secret, urlParses, req) == Delete(links, secret, req)
    ensures req.verb != "POST" && req.verb != "DELETE" ==>
      Handle(links, names, secret, urlParses, req) == Outcome(Resolve(links, names, secret, urlParses, req), links)
  {
  }

  /** Only an authorized POST or DELETE changes the table. */
  lemma OnlyAuthorizedWrites(links: map<string, string>, names: seq<string>, secret: string,
                             urlParses: string -> bool, req: Request)
    requires HttpScheme(req.href)
    requires !Authorized(req.presharedKey, secret) || (req.verb != "POST" && req.verb != "DELETE")
    ensures Handle(links, names, secret, urlParses, req).links == links
  {
  }

  /** Every request keeps the table invariant: the only writer is a create,
      and it stores only a non-empty target that parses. */
  lemma HandlePreservesWellFormed(links: map<string, string>, names: seq<string>, secret: string,
                                  urlParses: string -> bool, req: Request)
    requires HttpScheme(req.href)
    requires WellFormed(links, urlParses)
    ensures WellFormed(Handle(links, names, secret, urlParses, req).links, urlParses)
  {
    var after := Handle(links, names, secret, urlParses, req).links;
    forall key | key in after
      ensures after[key] != "" && urlParses(after[key])
    {
      if Route(req.verb) == CreateLink && key !in links {
        assert key == req.form.path.value;
      }
    }
  }

  // ------------------------------------------------------------------ create

  /** Without the right key a create answers 403 and stores nothing. */
  lemma CreateRejectsBadKey(links: map<string, string>, secret: string, urlParses: string -> bool,
                            req: Request)
    requires !Authorized(req.presharedKey, secret)
    ensures Create(links, secret, urlParses, req) == Outcome(Plain(403, "Bad key"), links)
  {
  }

  /** A missing or empty field gives 400 and stores nothing. */
  lemma CreateRejectsMissingField(links: map<string, string>, secret: string,
                                  urlParses: string -> bool, req: Request)
    requires Authorized(req.presharedKey, secret)
    requires !Present(req.form.url) || !Present(req.form.path)
    ensures Create(links, secret, urlParses, req)
      == Outcome(Plain(400, "'url' and 'path' must be set"), links)
  {
  }

  /** A target that does not parse gives 400 and stores nothing. */
  lemma CreateRejectsInvalidUrl(links: map<string, string>, secret: string,
                                urlParses: string -> bool, req: Request)
    requires Authorized(req.presharedKey, secret)
    requires Present(req.form.url) && Present(req.form.path) && !urlParses(req.form.url.value)
    ensures Create(links, secret, urlParses, req)
      == Outcome(Plain(400, "'url' must be a valid http url"), links)
  {
  }

  /** An accepted create answers 201 with the short URL and maps `path` to
      `url`, whether or not `path` was there; no other key changes. */
  lemma CreateStores(links: map<string, string>, secret: string, urlParses: string -> bool,
                     req: Request, url: string, path: string)
    requires Authorized(req.presharedKey, secret)
    requires req.form == Form(Some(url), Some(path)) && url != "" && path != "" && urlParses(url)
    ensures var o := Create(links, secret, urlParses, req);
      && o.response == Plain(201, req.href + path)
      && o.links.Keys == links.Keys + {path}
      && o.links[path] == url
      && forall key :: key in links && key != path ==> o.links[key] == links[key]
  {
  }

  /** Repeating a create changes nothing more: same answer, same table. */
  lemma CreateIdempotent(links: map<string, string>, secret: string, urlParses: string -> bool,
                         req: Request)
    ensures var once := Create(links, secret, urlParses, req);
      Create(once.links, secret, urlParses, req) == once
  {
  }

  // ------------------------------------------------------------------ delete

  /** Without the right key a delete answers 403 and removes nothing. */
  lemma DeleteRejectsBadKey(links: map<string, string>, secret: string, req: Request)
    requires !Authorized(req.presharedKey, secret)
    ensures Delete(links, secret, req) == Outcome(Plain(403, "Sorry, bad key."), links)
  {
  }

  /** An empty first segment gives 404 and removes nothing. */
  lemma DeleteRejectsEmptyPath(links: map<string, string>, secret: string, req: Request)
    requires Authorized(req.presharedKey, secret)
    requires FirstSegment(req.pathname) == ""
    ensures Delete(links, secret, req) == Outcome(Plain(404, "Please supply a valid path"), links)
  {
  }

  /** A first segment the table does not hold gives 404, naming the segment,
      and removes nothing. */
  lemma DeleteRejectsUnknownPath(links: map<string, string>, secret: string, req: Request)
    requires Authorized(req.presharedKey, secret)
    requires FirstSegment(req.pathname) != "" && FirstSegment(req.pathname) !in links
    ensures Delete(links, secret, req)
      == Outcome(Plain(404, "Path '" + FirstSegment(req.pathname) + "' not found"), links)
  {
  }

  /** An accepted delete answers 200 and removes exactly that key. */
  lemma DeleteRemoves(links: map<string, string>, secret: string, req: Request)
    requires Authorized(req.presharedKey, secret)
    requires FirstSegment(req.pathname) in links && FirstSegment(req.pathname) != ""
    ensures var o := Delete(links, secret, req);
      && o.response == Plain(200, req.href + " successfully deleted")
      && o.links.Keys == links.Keys - {FirstSegment(req.pathname)}
      && forall key :: key in o.links ==> o.links[key] == links[key]
  {
  }

  /** Deleting the same key a second time answers 404. */
  lemma DeleteTwice(links: map<string, string>, secret: string, req: Request)
    ensures var once := Delete(links, secret, req);
      var twice := Delete(once.links, secret, req);
      once.response.Plain? && once.response.status == 200 ==>
        twice == Outcome(Plain(404, "Path '" + FirstSegment(req.pathname) + "' not found"), once.links)
  {
  }

  // ----------------------------------------------------------------- resolve

  /** On a well-formed table, a non-empty first segment redirects to its
      stored target when there is one and answers 404 otherwise. */
  lemma ResolveRedirects(links: map<string, string>, names: seq<string>, secret: string,
                         urlParses: string -> bool, req: Request)
    requires HttpScheme(req.href) && WellFormed(links, urlParses)
    requires FirstSegment(req.pathname) != ""
    ensures var path := FirstSegment(req.pathname);
      Resolve(links, names, secret, urlParses, req) ==
        if path in links then Redirect(links[path]) else Plain(404, "url not found")
  {
  }

  /** Resolving after an accepted create redirects to the created target. */
  lemma CreateThenResolve(links: map<string, string>, names: seq<string>, secret: string,
                          urlParses: string -> bool, post: Request, get: Request)
    requires HttpScheme(get.href)
    requires Create(links, secret, urlParses, post).response.Plain?
    requires Create(links, secret, urlParses, post).response.status == 201
    requires post.form.path == Some(FirstSegment(get.pathname))
    ensures Resolve(Create(links, secret, urlParses, post).links, names, secret, urlParses, get)
      == Redirect(post.form.url.value)
  {
  }

  /** Resolving after an accepted delete of the same segment answers 404. */
  lemma DeleteThenResolve(links: map<string, string>, names: seq<string>, secret: string,
                          urlParses: string -> bool, del: Request, get: Request)
    requires HttpScheme(get.href)
    requires Delete(links, secret, del).response.Plain?
    requires Delete(links, secret, del).response.status == 200
    requires FirstSegment(get.pathname) == FirstSegment(del.pathname)
    ensures Resolve(Delete(links, secret, del).links, names, secret, urlParses, get)
      == Plain(404, "url not found")
  {
  }

  /** An anonymous visit to the root never looks at the table: it redirects
      to the apex URL, or fails when there is none. */
  lemma AnonymousRootIgnoresTable(links: map<string, string>, names: seq<string>,
                                  other: map<string, string>, otherNames: seq<string>,
                                  secret: string, urlParses: string -> bool, req: Request)
    requires HttpScheme(req.href)
    requires FirstSegment(req.pathname) == "" && !Authorized(req.presharedKey, secret)
    ensures Resolve(links, names, secret, urlParses, req) == Resolve(other, otherNames, secret, urlParses, req)
    ensures Resolve(links, names, secret, urlParses, req) ==
      if Apex(req.href).Some? && urlParses(Apex(req.href).value) then Redirect(Apex(req.href).value) else Fault
  {
  }

  // ----------------------------------------------------------------- listing

  /** The key holder's root visit lists the store's keys. */
  lemma ListingOnRoot(links: map<string, string>, names: seq<string>, secret: string,
                      urlParses: string -> bool, req: Request)
    requires HttpScheme(req.href)
    requires FirstSegment(req.pathname) == "" && Authorized(req.presharedKey, secret)
    ensures Resolve(links, names, secret, urlParses, req) == Plain(200, ListingBody(names))
  {
  }

  /** Appending a key appends its line. */
  lemma {:induction false} ListingBodyAppend(keys: seq<string>, key: string)
    ensures ListingBody(keys + [key]) == ListingBody(keys) + key + "\n"
  {
    if keys != [] {
      assert (keys + [key])[1..] == keys[1..] + [key];
      ListingBodyAppend(keys[1..], key);
    }
  }

  /** The listing is the keys joined by newlines, with a final newline. */
  lemma {:induction false} ListingIsJoin(keys: seq<string>)
    ensures ListingBody(keys) == Join(keys + [""], '\n')
  {
    if keys != [] {
      ListingIsJoin(keys[1..]);
      assert (keys + [""])[1..] == keys[1..] + [""];
    }
  }

  /** Reading the listing back line by line gives the keys in list order,
      followed by the empty text after the last newline, when no key holds a
      newline (a `path` form field may). */
  lemma ListingLines(keys: seq<string>)
    requires forall i :: 0 <= i < |keys| ==> '\n' !in keys[i]
    ensures Split(ListingBody(keys), '\n') == keys + [""]
  {
    ListingIsJoin(keys);
    SplitJoin(keys + [""], '\n');
  }
}
