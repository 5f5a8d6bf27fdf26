/** The response-header side of the middleware: `_find_header` and the
    `start_response` hook that drops `Content-Length` from HTML responses,
    because the profiler link makes the body longer than the application said. */
module Headers {
  import opened Text

  /** One `(name, value)` pair of a WSGI header list. */
  datatype Header = Header(name: string, value: string)

  /** The arguments the hook hands on to the server's `start_response`. */
  datatype StartCall = StartCall(status: string, headers: seq<Header>)

  const ContentType: string := "Content-Type"
  const ContentLength: string := "Content-Length"
  const HtmlType: string := "text/html"
  const XhtmlType: string := "application/xhtml+xml"

  /** Header names are compared after lower-casing both sides. */
  predicate SameName(a: string, b: string)
  {
    Lower(a) == Lower(b)
  }

  // ---------------------------------------------------------------------------
  // _find_header
  // ---------------------------------------------------------------------------

  /** The index of the first header called `name`, in any letter case. */
  function FirstMatch(headers: seq<Header>, name: string): (r: Option<nat>)
    ensures r.Some? ==> r.value < |headers| && SameName(headers[r.value].name, name)
    ensures r.Some? ==> forall j :: 0 <= j < r.value ==> !SameName(headers[j].name, name)
    ensures r.None? ==> forall j :: 0 <= j < |headers| ==> !SameName(headers[j].name, name)
  {
    if headers == [] then None
    else if SameName(headers[0].name, name) then Some(0)
    else match FirstMatch(headers[1..], name)
      case None => None
      case Some(i) => Some(i + 1)
  }

  /** The value of the first header called `name`, if there is one. */
  function HeaderValue(headers: seq<Header>, name: string): Option<string>
  {
    match FirstMatch(headers, name)
    case None => None
    case Some(i) => Some(headers[i].value)
  }

  /** `_find_header`: the value and the index of the first header whose name
      matches `name` case-insensitively, or `default` and no index. */
  method FindHeader(headers: seq<Header>, name: string, default: Option<string>)
    returns (value: Option<string>, index: Option<nat>)
    ensures index == FirstMatch(headers, name)
    ensures index.Some? ==> index.value < |headers| && value == Some(headers[index.value].value)
    ensures index.None? ==> value == default
  {
    for i := 0 to |headers|
      invariant forall j :: 0 <= j < i ==> !SameName(headers[j].name, name)
    {
      if Lower(headers[i].name) == Lower(name) {
        return Some(headers[i].value), Some(i);
      }
    }
    return default, None;
  }

  // ---------------------------------------------------------------------------
  // What the hook decides and forwards
  // ---------------------------------------------------------------------------

  /** The hook's test of a `Content-Type` value: present, non-empty, and
      naming HTML or XHTML in any letter case. */
  predicate IsHtmlContentType(contentType: Option<string>)
  {
    contentType.Some? && contentType.value != []
    && (Contains(Lower(contentType.value), HtmlType) || Contains(Lower(contentType.value), XhtmlType))
  }

  /** The `html_output` flag the hook records for a header list. */
  predicate HtmlOutput(headers: seq<Header>)
  {
    IsHtmlContentType(HeaderValue(headers, ContentType))
  }

  /** The header list the hook leaves behind: for HTML the first
      `Content-Length` entry is gone, otherwise nothing changes. */
  function Hooked(headers: seq<Header>): seq<Header>
  {
    if HtmlOutput(headers) then DropFirst(headers, ContentLength) else headers
  }

  /** The headers without the first one called `name`, if there is one. */
  function DropFirst(headers: seq<Header>, name: string): seq<Header>
  {
    if headers == [] then []
    else if SameName(headers[0].name, name) then headers[1..]
    else [headers[0]] + DropFirst(headers[1..], name)
  }

  /** Dropping the first `name` header is deleting the entry at the index
      `FirstMatch` finds, or nothing when there is none. */
  lemma {:induction false} DropFirstAt(headers: seq<Header>, name: string)
    ensures FirstMatch(headers, name).None? ==> DropFirst(headers, name) == headers
    ensures FirstMatch(headers, name).Some? ==>
              var i := FirstMatch(headers, name).value;
              DropFirst(headers, name) == headers[..i] + headers[i + 1..]
    decreases |headers|
  {
    if headers != [] && !SameName(headers[0].name, name) {
      var tail := headers[1..];
      DropFirstAt(tail, name);
      match FirstMatch(tail, name)
      case None =>
        assert headers == [headers[0]] + tail;
      case Some(k) =>
        assert headers[..k + 1] == [headers[0]] + tail[..k];
        assert headers[k + 2..] == tail[k + 1..];
    }
  }

  /** The headers not called `name`, in their order. */
  function Without(headers: seq<Header>, name: string): seq<Header>
  {
    if headers == [] then []
    else (if SameName(headers[0].name, name) then [] else [headers[0]]) + Without(headers[1..], name)
  }

  /** How many headers are called `name`. */
  function CountNamed(headers: seq<Header>, name: string): nat
  {
    if headers == [] then 0
    else (if SameName(headers[0].name, name) then 1 else 0) + CountNamed(headers[1..], name)
  }

  lemma {:induction false} WithoutConcat(a: seq<Header>, b: seq<Header>, name: string)
    ensures Without(a + b, name) == Without(a, name) + Without(b, name)
    ensures CountNamed(a + b, name) == CountNamed(a, name) + CountNamed(b, name)
    decreases |a|
  {
    if a == [] {
      assert a + b == b;
    } else {
      assert (a + b)[1..] == a[1..] + b;
      WithoutConcat(a[1..], b, name);
    }
  }

  /** `FirstMatch` is pinned down by where the first match is. */
  lemma FirstMatchAt(headers: seq<Header>, name: string, k: nat)
    requires k < |headers| && SameName(headers[k].name, name)
    requires forall j :: 0 <= j < k ==> !SameName(headers[j].name, name)
    ensures FirstMatch(headers, name) == Some(k)
  {
  }

  /** Removing one header that is not called `name` keeps the value the
      first `name` header has. */
  lemma RemoveKeepsValue(headers: seq<Header>, i: nat, name: string)
    requires i < |headers| && !SameName(headers[i].name, name)
    ensures HeaderValue(headers[..i] + headers[i + 1..], name) == HeaderValue(headers, name)
  {
    var rest := headers[..i] + headers[i + 1..];
    assert forall j :: 0 <= j < i ==> rest[j] == headers[j];
    assert forall j :: i <= j < |rest| ==> rest[j] == headers[j + 1];
    match FirstMatch(headers, name)
    case None =>
      assert forall j :: 0 <= j < |rest| ==> !SameName(rest[j].name, name);
    case Some(k) =>
      var m := if k < i then k else k - 1;
      assert rest[m] == headers[k];
      FirstMatchAt(rest, name, m);
  }

  /** Dropping the first `name` header keeps the value of every other name. */
  lemma {:induction false} DropFirstKeepsOthers(headers: seq<Header>, name: string, other: string)
    requires !SameName(name, other)
    ensures HeaderValue(DropFirst(headers, name), other) == HeaderValue(headers, other)
  {
    DropFirstAt(headers, name);
    if FirstMatch(headers, name).Some? {
      RemoveKeepsValue(headers, FirstMatch(headers, name).value, other);
    }
  }

  /** Dropping the first header called `name` removes exactly one such
      header, the first, and keeps every other header in its order; with
      no such header nothing changes. */
  lemma {:induction false} DropFirstRemovesOne(headers: seq<Header>, name: string)
    ensures FirstMatch(headers, name).None? ==> DropFirst(headers, name) == headers
    ensures FirstMatch(headers, name).Some? ==>
              var i := FirstMatch(headers, name).value;
              |DropFirst(headers, name)| == |headers| - 1
              && DropFirst(headers, name)[..i] == headers[..i]
              && CountNamed(DropFirst(headers, name), name) == CountNamed(headers, name) - 1
              && Without(DropFirst(headers, name), name) == Without(headers, name)
  {
    DropFirstAt(headers, name);
    if FirstMatch(headers, name).Some? {
      RemoveMatch(headers, FirstMatch(headers, name).value, name);
    }
  }

  /** Removing a header called `name` takes one off the count of such
      headers and leaves all the others in their order. */
  lemma RemoveMatch(headers: seq<Header>, i: nat, name: string)
    requires i < |headers| && SameName(headers[i].name, name)
    ensures (headers[..i] + headers[i + 1..])[..i] == headers[..i]
    ensures CountNamed(headers[..i] + headers[i + 1..], name) == CountNamed(headers, name) - 1
    ensures Without(headers[..i] + headers[i + 1..], name) == Without(headers, name)
  {
    var pre, post := headers[..i], headers[i + 1..];
    assert headers == pre + [headers[i]] + post;
    WithoutConcat(pre + [headers[i]], post, name);
    WithoutConcat(pre, [headers[i]], name);
    WithoutConcat(pre, post, name);
    assert [headers[i]][1..] == [];
    assert (pre + post)[..i] == pre;
  }

  /** The hook's decision survives its own edit: the forwarded headers have
      the same `Content-Type`, so they are HTML exactly when the original were. */
  lemma HookKeepsContentType(headers: seq<Header>)
    ensures HeaderValue(Hooked(headers), ContentType) == HeaderValue(headers, ContentType)
    ensures HtmlOutput(Hooked(headers)) == HtmlOutput(headers)
  {
    if HtmlOutput(headers) {
      assert |Lower(ContentLength)| != |Lower(ContentType)|;
      DropFirstKeepsOthers(headers, ContentLength, ContentType);
    }
  }

  // ---------------------------------------------------------------------------
  // The objects the hook works on
  // ---------------------------------------------------------------------------

  /** The application's `response_headers` list, which the hook edits in place. */
  class HeaderList {
    var entries: seq<Header>

    constructor(entries: seq<Header>)
      ensures this.entries == entries
    {
      this.entries := entries;
    }

    /** `del response_headers[i]`. */
    method Delete(i: nat)
      requires i < |entries|
      modifies this
      ensures entries == old(entries[..i] + entries[i + 1..])
    {
      entries := entries[..i] + entries[i + 1..];
    }

    /** Look up the first header called `name` and delete it, if there is one. */
    method DeleteFirst(name: string)
      modifies this
      ensures entries == DropFirst(old(entries), name)
    {
      var value, index := FindHeader(entries, name, None);
      DropFirstAt(entries, name);
      if index.Some? {
        Delete(index.value);
      }
    }
  }

  /** `StartResponseHook`: stands in for the server's `start_response` while
      the application runs and remembers whether the response is HTML. */
  class StartResponseHook {
    /** `html_output`: `None` until the application starts its response. */
    var htmlOutput: Option<bool>

    constructor()
      ensures htmlOutput == None
    {
      htmlOutput := None;
    }

    /** `__call__`: record whether the response is HTML, drop the first
        `Content-Length` header from an HTML response, and forward the
        status and the (edited) header list. */
    method Call(status: string, headers: HeaderList) returns (forwarded: StartCall)
      modifies this, headers
      ensures htmlOutput == Some(HtmlOutput(old(headers.entries)))
      ensures headers.entries == Hooked(old(headers.entries))
      ensures forwarded == StartCall(status, headers.entries)
    {
      ghost var before := headers.entries;
      var contentType, typeIndex := FindHeader(headers.entries, ContentType, None);
      assert contentType == HeaderValue(before, ContentType);
      ghost var html := HtmlOutput(before);
      assert IsHtmlContentType(contentType) == html;
      if IsHtmlContentType(contentType) {
        htmlOutput := Some(true);
        headers.DeleteFirst(ContentLength);
        assert headers.entries == Hooked(before) by { assert html; }
      } else {
        htmlOutput := Some(false);
        assert headers.entries == Hooked(before) by { assert !html; }
      }
      forwarded := StartCall(status, headers.entries);
    }
  }
}
