/** worker.js: the fetch listener and its three handlers, over the `LINKS`
    namespace, the `SECRET_KEY` binding and the URL parser. */
module Handlers {
  import opened Wrappers
  import opened Routing
  import opened Protocol
  import opened Kv

  class Worker {
    /** The `SECRET_KEY` binding. */
    const secret: string
    /** Whether `new URL(s)` accepts `s` (the WHATWG URL parser). */
    const urlParses: string -> bool
    /** The `LINKS` binding. */
    const links: Namespace

    ghost predicate Valid()
      reads this, links
    {
      links.Valid() && WellFormed(links.entries, urlParses)
    }

    constructor (secret: string, urlParses: string -> bool, links: Namespace)
      requires links.Valid() && WellFormed(links.entries, urlParses)
      ensures Valid()
      ensures this.secret == secret && this.urlParses == urlParses && this.links == links
    {
      this.secret := secret;
      this.urlParses := urlParses;
      this.links := links;
    }

    /** The fetch listener: POST creates, DELETE deletes, the rest resolves. */
    method Fetch(req: Request) returns (resp: Response)
      requires Valid() && HttpScheme(req.href)
      modifies links
      ensures Valid()
      ensures Outcome(resp, links.entries)
        == Handle(old(links.entries), old(links.names), secret, urlParses, req)
    {
      match Route(req.verb)
      case CreateLink =>
        resp := HandlePost(req);
      case DeleteLink =>
        resp := HandleDelete(req);
      case ResolveLink =>
        resp := HandleRequest(req);
    }

    /** `handlePOST`. */
    method HandlePost(req: Request) returns (resp: Response)
      requires Valid()
      modifies links
      ensures Valid()
      ensures Outcome(resp, links.entries) == Create(old(links.entries), secret, urlParses, req)
    {
      var psk := req.presharedKey;
      if psk != Some(secret) {
        return Plain(403, "Bad key");
      }
      var shortener := req.href;
      var redirectUrl := req.form.url;
      var path := req.form.path;
      if redirectUrl.None? || redirectUrl.value == "" || path.None? || path.value == "" {
        return Plain(400, "'url' and 'path' must be set");
      }
      if !urlParses(redirectUrl.value) {
        return Plain(400, "'url' must be a valid http url");
      }
      links.Put(path.value, redirectUrl.value);
      resp := Plain(201, shortener + path.value);
    }

    /** `handleDELETE`. */
    method HandleDelete(req: Request) returns (resp: Response)
      requires Valid()
      modifies links
      ensures Valid()
      ensures Outcome(resp, links.entries) == Delete(old(links.entries), secret, req)
    {
      var psk := req.presharedKey;
      if psk != Some(secret) {
        return Plain(403, "Sorry, bad key.");
      }
      var path := FirstSegment(req.pathname);
      if path == "" {
        return Plain(404, "Please supply a valid path");
      }
      var stored := links.Get(path);
      if stored.None? {
        return Plain(404, "Path '" + path + "' not found");
      }
      links.Delete(path);
      resp := Plain(200, req.href + " successfully deleted");
    }

    /** `handleRequest`: redirect, list, or send to the apex domain. It only
        reads the namespace. */
    method HandleRequest(req: Request) returns (resp: Response)
      requires Valid() && HttpScheme(req.href)
      ensures resp == Resolve(links.entries, links.names, secret, urlParses, req)
    {
      var path := FirstSegment(req.pathname);
      var host := Apex(req.href);
      if path == "" {
        var psk := req.presharedKey;
        if psk == Some(secret) {
          var keys := links.List();
          var paths := "";
          var i := 0;
          while i < |keys|
            invariant 0 <= i <= |keys|
            invariant paths == ListingBody(keys[..i])
          {
            ListingBodyAppend(keys[..i], keys[i]);
            assert keys[..i + 1] == keys[..i] + [keys[i]];
            paths := paths + keys[i] + "\n";
            i := i + 1;
          }
          assert keys[..i] == keys;
          return Plain(200, paths);
        }
        if host.None? || !urlParses(host.value) {
          return Fault;
        }
        return Redirect(host.value);
      }
      var redirectUrl := links.Get(path);
      if redirectUrl.Some? && redirectUrl.value != "" {
        if !urlParses(redirectUrl.value) {
          return Fault;
        }
        return Redirect(redirectUrl.value);
      }
      resp := Plain(404, "url not found");
    }
  }

  /** A client of the worker: create a link, follow it, delete it, follow it
      again, against a namespace that starts empty. */
  method LinkLifecycle(secret: string, urlParses: string -> bool, target: string)
    requires target != "" && urlParses(target)
  {
    var ns := new Namespace();
    var w := new Worker(secret, urlParses, ns);
    FirstSegmentBetweenSlashes("", "docs", "");
    assert "" + "/" + "docs" + "" == "/docs";
    var href := "https://go.example.com/docs";
    assert HttpScheme(href);
    var post := Request("POST", href, "/docs", Some(secret), Form(Some(target), Some("docs")));
    var get := Request("GET", href, "/docs", None, Form(None, None));
    var del := Request("DELETE", href, "/docs", Some(secret), Form(None, None));
    var r := w.Fetch(post);
    assert r.Plain? && r.status == 201;
    r := w.Fetch(get);
    assert r == Redirect(target);
    r := w.Fetch(del);
    assert r.Plain? && r.status == 200;
    r := w.Fetch(get);
    assert r == Plain(404, "url not found");
  }
}
