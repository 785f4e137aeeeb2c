/** The expression-only decisions of worker.js: which handler a method goes
    to, the pre-shared-key check, the first path segment and the apex URL. */
module Routing {
  import opened Wrappers
  import opened Text

  /** The three handlers the fetch listener can hand a request to. */
  datatype Handler = CreateLink | DeleteLink | ResolveLink

  /** The `switch (request.method)` of the fetch listener. */
  function Route(verb: string): Handler
  {
    match verb
    case "POST" => CreateLink
    case "DELETE" => DeleteLink
    case _ => ResolveLink
  }

  /** `psk === SECRET_KEY`: a missing header (`null`) never equals the secret. */
  predicate Authorized(presharedKey: Option<string>, secret: string)
  {
    presharedKey == Some(secret)
  }

  /** JavaScript truthiness of a form field: present and not the empty string. */
  predicate Present(field: Option<string>)
  {
    field.Some? && field.value != ""
  }

  /** `pathname.split('/')[1]`, with `undefined` (no `/` at all) read as the
      empty segment, which every handler treats the same way. */
  function FirstSegment(pathname: string): (segment: string)
    ensures '/' !in segment
  {
    var parts := Split(pathname, '/');
    if |parts| > 1 then parts[1] else ""
  }

  /** The segment is the text between the first and the second `/`. */
  lemma FirstSegmentBetweenSlashes(before: string, segment: string, after: string)
    requires '/' !in before && '/' !in segment
    requires after == [] || after[0] == '/'
    ensures FirstSegment(before + "/" + segment + after) == segment
  {
    var pathname := before + "/" + segment + after;
    assert pathname == before + ['/'] + (segment + after);
    SplitAt(before, segment + after, '/');
    if after == [] {
      assert segment + after == segment;
      SplitWithout(segment, '/');
    } else {
      assert segment + after == segment + ['/'] + after[1..];
      SplitAt(segment, after[1..], '/');
    }
  }

  /** A pathname without any `/` has the empty first segment. */
  lemma FirstSegmentWithoutSlash(pathname: string)
    requires '/' !in pathname
    ensures FirstSegment(pathname) == ""
  {
    SplitWithout(pathname, '/');
  }

  /** The request URLs the Workers runtime hands over are http or https. */
  predicate HttpScheme(href: string)
  {
    "https://" <= href || "http://" <= href
  }

  /** Length of group 1 of the apex regex: the scheme and its `//`. */
  function SchemeLength(href: string): (n: nat)
    requires HttpScheme(href)
    ensures n <= |href|
  {
    if "https://" <= href then 8 else 7
  }

  /** `href.match(/(http[s]?:\/\/)?([^.]*)\.(.*)\//)` followed by
      `host[1] + host[3]`: the scheme, then whatever lies between the first
      `.` after the scheme and the last `/`. None is a failed match (`null`),
      on which the source's `host[1]` throws. */
  function Apex(href: string): (apex: Option<string>)
    requires HttpScheme(href)
    ensures apex.Some? ==> href[..SchemeLength(href)] <= apex.value && |apex.value| <= |href| - 2
  {
    var n := SchemeLength(href);
    ApexAfterScheme(href[..n], href[n..])
  }

  /** Groups 2 and 3 of the apex regex, past the scheme: skip to the first
      `.`, keep what follows up to the last `/`. */
  function ApexAfterScheme(scheme: string, rest: string): (apex: Option<string>)
    ensures apex.Some? ==> scheme <= apex.value && |apex.value| <= |scheme| + |rest| - 2
    ensures apex.Some? ==> '.' in rest && '/' in rest
  {
    var dot := IndexOf(rest, '.');
    if dot == |rest| then None
    else
      var after := rest[dot + 1..];
      var slash := LastIndexOf(after, '/');
      if slash < 0 then None else Some(scheme + after[..slash])
  }

  /** For `scheme://beforeDot.mid/tail`, where `beforeDot` holds no `.` and
      `tail` no `/`, the apex is `scheme://mid`. On `https://go.example.com/`
      this strips the leftmost host label; but `beforeDot` may run past the
      host (a dotless host, then a query holding the first `.`), and `mid`
      runs to the LAST `/`, so a `.` or `/` in a root visit's query ends up in
      the apex. */
  lemma ApexStripsLabel(scheme: string, beforeDot: string, mid: string, tail: string)
    requires scheme == "http://" || scheme == "https://"
    requires '.' !in beforeDot && '/' !in tail
    ensures Apex(scheme + beforeDot + "." + mid + "/" + tail) == Some(scheme + mid)
  {
    var after := mid + ['/'] + tail;
    assert scheme + beforeDot + "." + mid + "/" + tail == scheme + (beforeDot + ['.'] + after);
    ApexAfterFirstDot(scheme, beforeDot, after);
    LastIndexOfAt(mid, tail, '/');
    assert after[..|mid|] == mid;
  }

  /** With the scheme and the first label fixed, the apex is the scheme and
      what follows the first dot up to the last slash. */
  lemma ApexAfterFirstDot(scheme: string, beforeDot: string, after: string)
    requires scheme == "http://" || scheme == "https://"
    requires '.' !in beforeDot
    ensures HttpScheme(scheme + (beforeDot + ['.'] + after))
    ensures var j := LastIndexOf(after, '/');
      Apex(scheme + (beforeDot + ['.'] + after)) == if j < 0 then None else Some(scheme + after[..j])
  {
    var rest := beforeDot + ['.'] + after;
    var href := scheme + rest;
    SchemeLengthOf(scheme, rest);
    assert href[..|scheme|] == scheme;
    assert href[|scheme|..] == rest;
    IndexOfAt(beforeDot, after, '.');
    assert rest[|beforeDot| + 1..] == after;
  }

  lemma SchemeLengthOf(scheme: string, rest: string)
    requires scheme == "http://" || scheme == "https://"
    ensures HttpScheme(scheme + rest) && SchemeLength(scheme + rest) == |scheme|
  {
    var href := scheme + rest;
    assert href[..|scheme|] == scheme;
    if scheme == "http://" {
      assert href[4] == ':';
    }
  }

  lemma IndexOfAt(a: string, b: string, c: char)
    requires c !in a
    ensures IndexOf(a + [c] + b, c) == |a|
  {
    var s := a + [c] + b;
    assert s[|a|] == c;
  }

  lemma LastIndexOfAt(a: string, b: string, c: char)
    requires c !in b
    ensures LastIndexOf(a + [c] + b, c) == |a|
  {
    var s := a + [c] + b;
    assert s[|a|] == c;
  }

  /** Without a `.` after the scheme that some later `/` follows, the regex
      does not match. */
  lemma ApexAbsent(href: string)
    requires HttpScheme(href)
    requires forall i, j :: SchemeLength(href) <= i < j < |href| && href[i] == '.' ==> href[j] != '/'
    ensures Apex(href) == None
  {
    var n := SchemeLength(href);
    var rest := href[n..];
    var dot := IndexOf(rest, '.');
    if dot < |rest| {
      assert href[n + dot] == '.';
    }
  }
}
