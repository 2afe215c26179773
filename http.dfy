/**
 * The part of OkHttp's request model the authorization code touches: a
 * request's encoded path and its header list, read with `header(name)`
 * and rewritten with `Request.Builder.header(name, value)`. Header names
 * are ASCII and compared without regard to case.
 */
module Http {
  import opened Wrappers

  datatype Header = Header(name: string, value: string)

  datatype Url = Url(scheme: string, host: string, encodedPath: string, query: Option<string>)

  datatype Request = Request(verb: string, url: Url, headers: seq<Header>, body: Option<string>)

  function LowerAscii(c: char): char {
    if 'A' <= c <= 'Z' then (c as int + 32) as char else c
  }

  /** `a.equals(b, ignoreCase = true)` on ASCII header names. */
  predicate NameEq(a: string, b: string) {
    |a| == |b| && forall i :: 0 <= i < |a| ==> LowerAscii(a[i]) == LowerAscii(b[i])
  }

  /** `Headers.get(name)`: the value of the last header with that name, or null. */
  function HeaderValue(headers: seq<Header>, name: string): (r: Option<string>)
    ensures r.None? <==> forall i :: 0 <= i < |headers| ==> !NameEq(headers[i].name, name)
    ensures r.Some? ==> exists i :: 0 <= i < |headers| && LastNamed(headers, i, name) && headers[i].value == r.value
  {
    if |headers| == 0 then None
    else
      var later := HeaderValue(headers[1..], name);
      if later.Some? then
        ghost var i :| 0 <= i < |headers[1..]| && LastNamed(headers[1..], i, name) && headers[1..][i].value == later.value;
        assert LastNamed(headers, i + 1, name);
        later
      else if NameEq(headers[0].name, name) then
        assert LastNamed(headers, 0, name) by {
          forall j | 0 < j < |headers| ensures !NameEq(headers[j].name, name) {
            assert headers[j] == headers[1..][j - 1];
          }
        }
        Some(headers[0].value)
      else
        assert forall i :: 0 <= i < |headers| ==> !NameEq(headers[i].name, name) by {
          forall i | 0 < i < |headers| ensures !NameEq(headers[i].name, name) {
            assert headers[i] == headers[1..][i - 1];
          }
        }
        None
  }

  /** Header `i` has the name, and no later header has it. */
  ghost predicate LastNamed(headers: seq<Header>, i: int, name: string)
    requires 0 <= i < |headers|
  {
    NameEq(headers[i].name, name) && forall j :: i < j < |headers| ==> !NameEq(headers[j].name, name)
  }

  /** `Headers.Builder.removeAll(name)`: drops every header with that name, keeping the order of the rest. */
  function RemoveAll(headers: seq<Header>, name: string): (r: seq<Header>)
    ensures forall i :: 0 <= i < |r| ==> !NameEq(r[i].name, name)
    ensures forall h :: h in r <==> h in headers && !NameEq(h.name, name)
    decreases |headers|
  {
    if |headers| == 0 then []
    else if NameEq(headers[0].name, name) then RemoveAll(headers[1..], name)
    else [headers[0]] + RemoveAll(headers[1..], name)
  }

  /** `request.newBuilder().header(name, value).build()`. */
  function SetHeader(request: Request, name: string, value: string): Request {
    request.(headers := RemoveAll(request.headers, name) + [Header(name, value)])
  }

  lemma NameEqSymmetric(a: string, b: string)
    requires NameEq(a, b)
    ensures NameEq(b, a)
  {
  }

  lemma NameEqTransitive(a: string, b: string, c: string)
    requires NameEq(a, b) && NameEq(b, c)
    ensures NameEq(a, c)
  {
  }

  /** Removing headers of one name does not change the value seen under another. */
  lemma {:induction false} RemoveAllKeepsOthers(headers: seq<Header>, name: string, other: string)
    requires !NameEq(other, name)
    ensures HeaderValue(RemoveAll(headers, name), other) == HeaderValue(headers, other)
    decreases |headers|
  {
    if |headers| > 0 {
      var tail := headers[1..];
      RemoveAllKeepsOthers(tail, name, other);
      if NameEq(headers[0].name, name) {
        if NameEq(headers[0].name, other) {
          NameEqSymmetric(headers[0].name, other);
          NameEqTransitive(other, headers[0].name, name);
        }
      } else {
        var r := [headers[0]] + RemoveAll(tail, name);
        assert r[1..] == RemoveAll(tail, name);
      }
    }
  }

  /** Without a header of that name, removing it changes nothing. */
  lemma {:induction false} RemoveAllAbsent(headers: seq<Header>, name: string)
    requires HeaderValue(headers, name).None?
    ensures RemoveAll(headers, name) == headers
    decreases |headers|
  {
    if |headers| > 0 {
      RemoveAllAbsent(headers[1..], name);
      assert HeaderValue(headers[1..], name).None? by {
        forall i | 0 <= i < |headers[1..]| ensures !NameEq(headers[1..][i].name, name) {
          assert headers[1..][i] == headers[i + 1];
        }
      }
      assert [headers[0]] + headers[1..] == headers;
    }
  }

  /** A header appended at the end is the one read under its name. */
  lemma {:induction false} HeaderValueSnoc(headers: seq<Header>, last: Header, name: string)
    ensures HeaderValue(headers + [last], name) ==
      if NameEq(last.name, name) then Some(last.value) else HeaderValue(headers, name)
    decreases |headers|
  {
    if |headers| == 0 {
      assert (headers + [last])[1..] == [];
    } else {
      assert (headers + [last])[1..] == headers[1..] + [last];
      HeaderValueSnoc(headers[1..], last, name);
    }
  }

  /**
   * Setting a header: it now reads as the new value, every other header
   * reads as before, and the verb, url and body are those of the request.
   */
  lemma SetHeaderEffect(request: Request, name: string, value: string, other: string)
    ensures var r := SetHeader(request, name, value);
      && HeaderValue(r.headers, name) == Some(value)
      && (!NameEq(other, name) ==> HeaderValue(r.headers, other) == HeaderValue(request.headers, other))
      && r.verb == request.verb && r.url == request.url && r.body == request.body
  {
    var removed := RemoveAll(request.headers, name);
    HeaderValueSnoc(removed, Header(name, value), name);
    HeaderValueSnoc(removed, Header(name, value), other);
    if !NameEq(other, name) {
      RemoveAllKeepsOthers(request.headers, name, other);
      if NameEq(name, other) {
        NameEqSymmetric(name, other);
      }
    }
  }

  /** When the request has no header of that name, setting it only appends it. */
  lemma SetHeaderAppendsWhenAbsent(request: Request, name: string, value: string)
    requires HeaderValue(request.headers, name).None?
    ensures SetHeader(request, name, value) == request.(headers := request.headers + [Header(name, value)])
  {
    RemoveAllAbsent(request.headers, name);
  }
}
