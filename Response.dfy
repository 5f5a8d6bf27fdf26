/** Response bodies and the profiler link that the record handler adds to
    HTML pages. */
module Response {
  import opened Text

  /** A Python list of byte-string chunks; the record handler appends to an
      application's list in place. */
  class ChunkList {
    var chunks: seq<Bytes>

    constructor(chunks: seq<Bytes>)
      ensures this.chunks == chunks
    {
      this.chunks := chunks;
    }

    /** `list.append(chunk)`. */
    method Append(chunk: Bytes)
      modifies this
      ensures chunks == old(chunks) + [chunk]
    {
      chunks := chunks + [chunk];
    }
  }

  /** What a WSGI application returns: a tuple of chunks, a list of chunks,
      or any other iterable, given by the chunks it yields. */
  datatype Body =
    | TupleBody(items: seq<Bytes>)
    | ListBody(list: ChunkList)
    | IterableBody(items: seq<Bytes>)

  /** The mutable object behind a body, if any. */
  function Objects(body: Body): set<object>
  {
    if body.ListBody? then {body.list} else {}
  }

  /** The chunks a body yields, in order. */
  function Chunks(body: Body): seq<Bytes>
    reads Objects(body)
  {
    match body
    case TupleBody(items) => items
    case ListBody(list) => list.chunks
    case IterableBody(items) => items
  }

  /** The address of a request's page in the viewer, without the id. */
  const DetailsQuery: string := "/__profile__/?request_id="
  const LinkOpen: string := "[ Profiler: "
  const LinkHref: string := "s. <a href=\""
  const LinkClose: string := "\"" + LinkEnd
  const LinkEnd: string := ">Details</a> ]"

  /** The profiler link of a request, UTF-8 encoded; `elapsed` is the
      request's duration already written with three decimals. */
  function ProfileLink(elapsed: string, id: string): Bytes
  {
    Utf8(LinkOpen + elapsed + LinkHref + (DetailsQuery + id) + LinkClose)
  }

  /** The link points at the viewer page of exactly this request: the id is
      followed by the quote that closes the address. */
  lemma ProfileLinkNamesRequest(elapsed: string, id: string)
    ensures Contains(ProfileLink(elapsed, id), Utf8(DetailsQuery + id + "\""))
  {
    var before, address := LinkOpen + elapsed + LinkHref, DetailsQuery + id + "\"";
    assert LinkOpen + elapsed + LinkHref + (DetailsQuery + id) + LinkClose == before + address + LinkEnd;
    Utf8Concat(before, address);
    Utf8Concat(before + address, LinkEnd);
    ContainsInConcat(Utf8(before), Utf8(address), Utf8(LinkEnd));
  }

  /** How `_record_handler` extends the body: a tuple becomes a new list with
      the link at its end, a list gets the link appended in place, and any
      other iterable is chained with the link. Either way the body yields the
      original chunks and then the link. */
  method AppendLink(body: Body, link: Bytes) returns (result: Body)
    modifies Objects(body)
    ensures Chunks(result) == old(Chunks(body)) + [link]
    ensures body.TupleBody? ==> result.ListBody? && fresh(result.list)
    ensures body.ListBody? ==> result == body
    ensures body.IterableBody? ==> result.IterableBody?
  {
    match body
    case TupleBody(items) =>
      var list := new ChunkList(items + [link]);
      result := ListBody(list);
    case ListBody(list) =>
      list.Append(link);
      result := body;
    case IterableBody(items) =>
      result := IterableBody(items + [link]);
  }
}
