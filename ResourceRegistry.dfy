// The registry that maps request URIs to the resource an MSAL bearer
// token is requested for. Entries are kept in a list, more specific URIs
// ahead of their bases, and a request is answered by the first entry
// that is a base of it.

module ResourceRegistry {
  import opened Common

  /** A URI in canonical form, so that value equality is Uri equality. */
  datatype Uri = Uri(scheme: string, authority: string, pathAndQuery: string)

  /** Uri.GetLeftPart(UriPartial.Authority) */
  function LeftPartAuthority(u: Uri): (r: string)
    ensures |r| == |u.scheme| + 3 + |u.authority|
    ensures r[..|u.scheme|] == u.scheme && r[|u.scheme| + 3..] == u.authority
  {
    u.scheme + "://" + u.authority
  }

  datatype Entry = Entry(requestUri: Uri, resource: string)

  /** Uri.IsBaseOf, supplied as a relation between URIs. */
  type BaseRelation = (Uri, Uri) -> bool

  ghost predicate Transitive(isBaseOf: BaseRelation)
  {
    forall a: Uri, b: Uri, c: Uri :: isBaseOf(a, b) && isBaseOf(b, c) ==> isBaseOf(a, c)
  }

  /** `a` is a base of `b` but not the other way round. */
  predicate StrictBase(isBaseOf: BaseRelation, a: Uri, b: Uri)
  {
    isBaseOf(a, b) && !isBaseOf(b, a)
  }

  /** No entry is preceded by a strict base of itself. */
  predicate Ordered(isBaseOf: BaseRelation, es: seq<Entry>)
  {
    forall i, j :: 0 <= i < j < |es| ==> !StrictBase(isBaseOf, es[i].requestUri, es[j].requestUri)
  }

  function RegisteredUris(es: seq<Entry>): (r: seq<Uri>)
    ensures |r| == |es|
    ensures forall i :: 0 <= i < |es| ==> r[i] == es[i].requestUri
  {
    seq(|es|, i requires 0 <= i < |es| => es[i].requestUri)
  }

  /** es[k] is the first entry at or after `from` that is a base of the
    * request. */
  predicate FirstBaseAt(isBaseOf: BaseRelation, es: seq<Entry>, request: Uri, from: nat, k: int)
  {
    from <= k < |es| && isBaseOf(es[k].requestUri, request)
    && forall m :: from <= m < k ==> !isBaseOf(es[m].requestUri, request)
  }

  /** The resource of the first entry at or after `from` that is a base of
    * the request. */
  function FirstBaseResource(isBaseOf: BaseRelation, es: seq<Entry>, request: Uri, from: nat): (r: Option<string>)
    requires from <= |es|
    ensures r.None? <==> forall k :: from <= k < |es| ==> !isBaseOf(es[k].requestUri, request)
    ensures r.Some? ==> exists k :: FirstBaseAt(isBaseOf, es, request, from, k) && es[k].resource == r.value
    decreases |es| - from
  {
    if from == |es| then None
    else if isBaseOf(es[from].requestUri, request) then Some(es[from].resource)
    else FirstBaseResource(isBaseOf, es, request, from + 1)
  }

  /** Where AddEntry stops: the first entry whose URI equals the new one or
    * is a base of it, or -1. */
  function AddPosition(isBaseOf: BaseRelation, es: seq<Entry>, uri: Uri, from: nat): (r: int)
    requires from <= |es|
    ensures r == -1 || from <= r < |es|
    ensures r >= 0 ==> es[r].requestUri == uri || isBaseOf(es[r].requestUri, uri)
    ensures forall m :: from <= m < |es| && (r == -1 || m < r) ==> es[m].requestUri != uri && !isBaseOf(es[m].requestUri, uri)
    decreases |es| - from
  {
    if from == |es| then -1
    else if es[from].requestUri == uri || isBaseOf(es[from].requestUri, uri) then from
    else AddPosition(isBaseOf, es, uri, from + 1)
  }

  /** The entry list after AddEntry(uri, resource). */
  function Added(isBaseOf: BaseRelation, es: seq<Entry>, uri: Uri, resource: string): seq<Entry>
  {
    var k := AddPosition(isBaseOf, es, uri, 0);
    if k < 0 then es + [Entry(uri, resource)]
    else if es[k].requestUri == uri then es[k := Entry(uri, resource)]
    else es[..k] + [Entry(uri, resource)] + es[k..]
  }

  /** The request matches an entry equal to it or based on it. */
  predicate Matches(isBaseOf: BaseRelation, e: Entry, request: Uri)
  {
    request == e.requestUri || isBaseOf(e.requestUri, request)
  }

  /** The removal loop as written: after RemoveAt(index) the index still
    * advances, so the entry that moved into `index` is never looked at. */
  function RemoveLoop(isBaseOf: BaseRelation, es: seq<Entry>, request: Uri, multiple: bool, index: nat): seq<Entry>
    decreases |es| - index
  {
    if index >= |es| then es
    else if Matches(isBaseOf, es[index], request) then
      var rest := es[..index] + es[index + 1..];
      if !multiple then rest else RemoveLoop(isBaseOf, rest, request, multiple, index + 1)
    else RemoveLoop(isBaseOf, es, request, multiple, index + 1)
  }

  /** Every entry the request does not match, in order. */
  function Unmatched(isBaseOf: BaseRelation, es: seq<Entry>, request: Uri): seq<Entry>
  {
    if es == [] then []
    else if Matches(isBaseOf, es[0], request) then Unmatched(isBaseOf, es[1..], request)
    else [es[0]] + Unmatched(isBaseOf, es[1..], request)
  }

  /** Unmatched keeps exactly the entries the request does not match and
    * never grows the list. */
  lemma {:induction false} UnmatchedMembers(isBaseOf: BaseRelation, es: seq<Entry>, request: Uri)
    ensures |Unmatched(isBaseOf, es, request)| <= |es|
    ensures forall e :: e in Unmatched(isBaseOf, es, request) <==> e in es && !Matches(isBaseOf, e, request)
  {
    if es != [] {
      UnmatchedMembers(isBaseOf, es[1..], request);
      assert es == [es[0]] + es[1..];
    }
  }

  /** Unmatched over a suffix: the suffix's first entry, unless it
    * matches, then Unmatched over the rest. */
  lemma UnmatchedStep(isBaseOf: BaseRelation, es: seq<Entry>, request: Uri, index: nat)
    requires index < |es|
    ensures Unmatched(isBaseOf, es[index..], request)
      == (if Matches(isBaseOf, es[index], request) then [] else [es[index]]) + Unmatched(isBaseOf, es[index + 1..], request)
  {
    assert es[index..][1..] == es[index + 1..];
  }

  /** The first matching position at or after `from`, or -1. */
  function FirstMatch(isBaseOf: BaseRelation, es: seq<Entry>, request: Uri, from: nat): (r: int)
    requires from <= |es|
    ensures r == -1 || from <= r < |es|
    ensures r >= 0 ==> Matches(isBaseOf, es[r], request)
    ensures forall m :: from <= m < |es| && (r == -1 || m < r) ==> !Matches(isBaseOf, es[m], request)
    decreases |es| - from
  {
    if from == |es| then -1
    else if Matches(isBaseOf, es[from], request) then from
    else FirstMatch(isBaseOf, es, request, from + 1)
  }

  class AuthorizationResourceRegistry {
    const isBaseOf: BaseRelation
    var entries: seq<Entry>

    constructor (isBaseOf: BaseRelation)
      ensures this.isBaseOf == isBaseOf && entries == []
    {
      this.isBaseOf := isBaseOf;
      entries := [];
    }

    method GetRegisteredUris() returns (uris: array<Uri>)
      ensures fresh(uris)
      ensures uris[..] == RegisteredUris(entries)
    {
      uris := new Uri[|entries|];
      var i := 0;
      while i < |entries|
        invariant 0 <= i <= |entries| == uris.Length
        invariant forall k :: 0 <= k < i ==> uris[k] == entries[k].requestUri
      {
        uris[i] := entries[i].requestUri;
        i := i + 1;
      }
    }

    /** The resource of the first entry that is a base of the request; no
      * answer for a null request or when no entry is a base of it. */
    method GetResource(requestUri: Option<Uri>) returns (r: Option<string>)
      ensures requestUri.None? ==> r.None?
      ensures requestUri.Some? ==> r == FirstBaseResource(isBaseOf, entries, requestUri.value, 0)
    {
      if requestUri.None? {
        return None;
      }
      var request := requestUri.value;
      var i := 0;
      while i < |entries|
        invariant 0 <= i <= |entries|
        invariant FirstBaseResource(isBaseOf, entries, request, 0) == FirstBaseResource(isBaseOf, entries, request, i)
      {
        if isBaseOf(entries[i].requestUri, request) {
          return Some(entries[i].resource);
        }
        i := i + 1;
      }
      r := None;
    }

    /** AddEntry(uri): the resource defaults to the URI's scheme and
      * authority. */
    method AddEntryForAuthority(uri: Option<Uri>) returns (r: Outcome)
      modifies this
      ensures uri.None? ==> r == Fail(ArgumentNull) && entries == old(entries)
      ensures uri.Some? ==> r == Pass && entries == Added(isBaseOf, old(entries), uri.value, LeftPartAuthority(uri.value))
    {
      if uri.None? {
        return Fail(ArgumentNull);
      }
      r := AddEntry(uri, LeftPartAuthority(uri.value));
    }

    /** AddEntry(uri, resource): replaces an equal entry in place, or
      * inserts before the first entry that is a base of the URI, or
      * appends. */
    method AddEntry(uri: Option<Uri>, resource: string) returns (r: Outcome)
      modifies this
      ensures uri.None? ==> r == Fail(ArgumentNull) && entries == old(entries)
      ensures uri.Some? ==> r == Pass && entries == Added(isBaseOf, old(entries), uri.value, resource)
    {
      if uri.None? {
        return Fail(ArgumentNull);
      }
      var u := uri.value;
      var index := 0;
      while index < |entries|
        invariant 0 <= index <= |entries| == |old(entries)|
        invariant entries == old(entries)
        invariant AddPosition(isBaseOf, entries, u, 0) == AddPosition(isBaseOf, entries, u, index)
      {
        var existing := entries[index].requestUri;
        if u == existing {
          entries := entries[index := Entry(u, resource)];
          return Pass;
        }
        if isBaseOf(existing, u) {
          entries := entries[..index] + [Entry(u, resource)] + entries[index..];
          return Pass;
        }
        index := index + 1;
      }
      entries := entries + [Entry(u, resource)];
      r := Pass;
    }

    method RemoveClosestEntry(requestUri: Option<Uri>)
      modifies this
      ensures requestUri.None? ==> entries == old(entries)
      ensures requestUri.Some? ==> entries == RemoveLoop(isBaseOf, old(entries), requestUri.value, false, 0)
    {
      RemoveEntryCore(requestUri, false);
    }

    method RemoveMatchingEntries(requestUri: Option<Uri>)
      modifies this
      ensures requestUri.None? ==> entries == old(entries)
      ensures requestUri.Some? ==> entries == RemoveLoop(isBaseOf, old(entries), requestUri.value, true, 0)
    {
      RemoveEntryCore(requestUri, true);
    }

    method RemoveEntryCore(requestUri: Option<Uri>, multiple: bool)
      modifies this
      ensures requestUri.None? ==> entries == old(entries)
      ensures requestUri.Some? ==> entries == RemoveLoop(isBaseOf, old(entries), requestUri.value, multiple, 0)
    {
      if requestUri.None? {
        return;
      }
      var request := requestUri.value;
      var index := 0;
      while index < |entries|
        invariant RemoveLoop(isBaseOf, old(entries), request, multiple, 0) == RemoveLoop(isBaseOf, entries, request, multiple, index)
        decreases |entries| - index
      {
        var entryUri := entries[index].requestUri;
        if request == entryUri || isBaseOf(entryUri, request) {
          entries := entries[..index] + entries[index + 1..];
          if !multiple {
            return;
          }
        }
        index := index + 1;
      }
    }

    /** RemoveMatchingEntries as evidently intended: after a removal the
      * same index is examined again, so every matching entry goes. */
    method RemoveAllMatchingEntries(requestUri: Option<Uri>)
      modifies this
      ensures requestUri.None? ==> entries == old(entries)
      ensures requestUri.Some? ==> entries == Unmatched(isBaseOf, old(entries), requestUri.value)
    {
      if requestUri.None? {
        return;
      }
      entries := RemoveAllMatching(isBaseOf, entries, requestUri.value);
    }
  }

  /** The loop of RemoveAllMatchingEntries: a match is removed and the same
    * index is looked at again; otherwise the index advances. */
  method RemoveAllMatching(isBaseOf: BaseRelation, entries: seq<Entry>, request: Uri) returns (es: seq<Entry>)
    ensures es == Unmatched(isBaseOf, entries, request)
  {
    es := entries;
    var index := 0;
    while index < |es|
      invariant 0 <= index <= |es|
      invariant Unmatched(isBaseOf, entries, request) == es[..index] + Unmatched(isBaseOf, es[index..], request)
      decreases |es| - index
    {
      UnmatchedStep(isBaseOf, es, request, index);
      ghost var before := es;
      ghost var rest := Unmatched(isBaseOf, es[index + 1..], request);
      if Matches(isBaseOf, es[index], request) {
        es := es[..index] + es[index + 1..];
        assert es[..index] == before[..index];
        assert es[index..] == before[index + 1..];
      } else {
        assert before[..index + 1] == before[..index] + [before[index]];
        assert before[..index] + ([before[index]] + rest) == before[..index + 1] + rest;
        index := index + 1;
      }
    }
    assert es[..index] == es;
  }

  // ---------------------------------------------------------------------
  // Properties of the entry list.

  /** AddEntry either replaces an entry with an equal URI, keeping the
    * count, or inserts one entry; every other entry stays, in order. */
  lemma AddedShape(isBaseOf: BaseRelation, es: seq<Entry>, uri: Uri, resource: string)
    ensures var r := Added(isBaseOf, es, uri, resource);
      && Entry(uri, resource) in r
      && (|r| == |es| <==> exists k :: 0 <= k < |es| && es[k].requestUri == uri && forall m :: 0 <= m < k ==> !isBaseOf(es[m].requestUri, uri) && es[m].requestUri != uri)
      && (|r| != |es| ==> |r| == |es| + 1 && forall e :: e in es ==> e in r)
  {
    var k := AddPosition(isBaseOf, es, uri, 0);
    var r := Added(isBaseOf, es, uri, resource);
    if k >= 0 && es[k].requestUri == uri {
      assert r[k] == Entry(uri, resource);
    } else {
      if k >= 0 {
        assert r[k] == Entry(uri, resource);
        forall e | e in es ensures e in r {
          var i :| 0 <= i < |es| && es[i] == e;
          if i < k { assert r[i] == e; } else { assert r[i + 1] == e; }
        }
      } else {
        assert r[|es|] == Entry(uri, resource);
      }
    }
  }

  /** With a transitive IsBaseOf, AddEntry keeps every entry ahead of its
    * strict bases. */
  lemma AddedKeepsOrdered(isBaseOf: BaseRelation, es: seq<Entry>, uri: Uri, resource: string)
    requires Transitive(isBaseOf)
    requires Ordered(isBaseOf, es)
    ensures Ordered(isBaseOf, Added(isBaseOf, es, uri, resource))
  {
    var k := AddPosition(isBaseOf, es, uri, 0);
    var r := Added(isBaseOf, es, uri, resource);
    if k < 0 {
      forall i, j | 0 <= i < j < |r|
        ensures !StrictBase(isBaseOf, r[i].requestUri, r[j].requestUri)
      {
        if j < |es| { assert r[i] == es[i] && r[j] == es[j]; }
      }
    } else if es[k].requestUri != uri {
      forall i, j | 0 <= i < j < |r|
        ensures !StrictBase(isBaseOf, r[i].requestUri, r[j].requestUri)
      {
        var a := if i < k then es[i] else if i == k then Entry(uri, resource) else es[i - 1];
        var b := if j < k then es[j] else if j == k then Entry(uri, resource) else es[j - 1];
        assert r[i] == a && r[j] == b;
        if i != k && j != k {
          assert a == es[if i < k then i else i - 1] && b == es[if j < k then j else j - 1];
        } else if i == k && isBaseOf(uri, b.requestUri) {
          // es[k] is a base of uri, so of b; as b does not precede es[k],
          // b is in turn a base of es[k], hence of uri
          assert b == es[j - 1];
          assert isBaseOf(es[k].requestUri, b.requestUri);
          if j - 1 != k {
            assert !StrictBase(isBaseOf, es[k].requestUri, es[j - 1].requestUri);
          }
          assert isBaseOf(b.requestUri, es[k].requestUri);
        }
      }
    } else {
      forall i, j | 0 <= i < j < |r|
        ensures !StrictBase(isBaseOf, r[i].requestUri, r[j].requestUri)
      {
        assert r[i].requestUri == es[i].requestUri && r[j].requestUri == es[j].requestUri;
      }
    }
  }

  /** Resolving a URI right after adding it (with IsBaseOf reflexive on
    * it) yields the resource just added. */
  lemma AddThenResolve(isBaseOf: BaseRelation, es: seq<Entry>, uri: Uri, resource: string)
    requires isBaseOf(uri, uri)
    ensures FirstBaseResource(isBaseOf, Added(isBaseOf, es, uri, resource), uri, 0) == Some(resource)
  {
    var k := AddPosition(isBaseOf, es, uri, 0);
    var r := Added(isBaseOf, es, uri, resource);
    var p := if k < 0 then |es| else k;
    assert r[p] == Entry(uri, resource);
    forall m | 0 <= m < p ensures !isBaseOf(r[m].requestUri, uri) {
      assert r[m] == es[m];
    }
    FirstBaseResourceAt(isBaseOf, r, uri, p);
  }

  lemma FirstBaseResourceAt(isBaseOf: BaseRelation, es: seq<Entry>, request: Uri, p: nat)
    requires p < |es| && isBaseOf(es[p].requestUri, request)
    requires forall m :: 0 <= m < p ==> !isBaseOf(es[m].requestUri, request)
    ensures FirstBaseResource(isBaseOf, es, request, 0) == Some(es[p].resource)
  {
    var r := FirstBaseResource(isBaseOf, es, request, 0);
    var k :| FirstBaseAt(isBaseOf, es, request, 0, k) && es[k].resource == r.value;
    assert k == p;
  }

  /** RemoveClosestEntry removes exactly the first entry the request
    * matches, if there is one. */
  lemma {:induction false} RemoveClosestIsFirstMatch(isBaseOf: BaseRelation, es: seq<Entry>, request: Uri, index: nat)
    requires index <= |es|
    ensures var k := FirstMatch(isBaseOf, es, request, index);
      RemoveLoop(isBaseOf, es, request, false, index) == if k < 0 then es else es[..k] + es[k + 1..]
    decreases |es| - index
  {
    if index < |es| && !Matches(isBaseOf, es[index], request) {
      RemoveClosestIsFirstMatch(isBaseOf, es, request, index + 1);
    }
  }

  /** As written, RemoveMatchingEntries leaves a matching entry that
    * directly follows another matching entry. */
  lemma RemoveMatchingSkipsNeighbour(isBaseOf: BaseRelation, e1: Entry, e2: Entry, request: Uri)
    requires Matches(isBaseOf, e1, request) && Matches(isBaseOf, e2, request)
    ensures RemoveLoop(isBaseOf, [e1, e2], request, true, 0) == [e2]
    ensures Unmatched(isBaseOf, [e1, e2], request) == []
  {
    assert [e1, e2][..0] + [e1, e2][1..] == [e2];
    assert [e1, e2][1..] == [e2] && [e2][1..] == [];
    assert Unmatched(isBaseOf, [e2], request) == [];
  }
}
