/** API versions, their URI prefixes, and the expansion of a route
    collection into one prefixed copy per version. */
module Api {
  import opened Ascii
  import opened Routes

  datatype Version = V3

  /** The enum constant's declared name: a non-empty run of ASCII capitals
      and digits, so lower-casing it changes its letters. */
  function Name(v: Version): (n: string)
    ensures n != []
    ensures forall i :: 0 <= i < |n| ==> IsUpper(n[i]) || '0' <= n[i] <= '9'
  {
    match v
    case V3 => "V3"
  }

  const ApiRoot: string := "/api/"

  /** The URI prefix of a version: the API root followed by the version's
      name in lower case. */
  function Prefix(v: Version): (p: string)
    ensures |p| == |ApiRoot| + |Name(v)|
    ensures p[..|ApiRoot|] == ApiRoot
    ensures forall i :: 0 <= i < |Name(v)| ==> p[|ApiRoot| + i] == LowerChar(Name(v)[i])
    ensures NoUpper(p)
  {
    ApiRoot + ToLower(Name(v))
  }

  lemma PrefixV3()
    ensures Prefix(V3) == "/api/v3"
  {
    assert ToLower("V3") == "v3";
  }

  /** Every route of routes, in order, with prefix in front of its URI. */
  function PrefixEach<H>(routes: seq<Route<H>>, prefix: string): (r: seq<Route<H>>)
    ensures |r| == |routes|
    ensures forall j :: 0 <= j < |routes| ==> r[j] == WithPrefix(routes[j], prefix)
  {
    if routes == [] then [] else [WithPrefix(routes[0], prefix)] + PrefixEach(routes[1..], prefix)
  }

  /** For each version in order, every route in order, prefixed with that
      version's prefix. */
  function PrefixRoutes<H>(routes: seq<Route<H>>, versions: seq<Version>): (r: seq<Route<H>>)
    ensures |r| == |versions| * |routes|
  {
    if versions == [] then []
    else
      var rest := PrefixRoutes(routes, versions[1..]);
      assert |versions| * |routes| == |routes| + (|versions| - 1) * |routes|;
      PrefixEach(routes, Prefix(versions[0])) + rest
  }

  /** Position i * |routes| + j of r holds routes[j] prefixed with
      versions[i]'s prefix. */
  ghost predicate PlacedAt<H>(r: seq<Route<H>>, routes: seq<Route<H>>, versions: seq<Version>, i: nat, j: nat)
    requires i < |versions| && j < |routes|
  {
    i * |routes| + j < |r| && r[i * |routes| + j] == WithPrefix(routes[j], Prefix(versions[i]))
  }

  /** r lists every route under every version, version-major. */
  ghost predicate IsVersionMajor<H>(r: seq<Route<H>>, routes: seq<Route<H>>, versions: seq<Version>) {
    && |r| == |versions| * |routes|
    && forall i: nat, j: nat | i < |versions| && j < |routes| :: PlacedAt(r, routes, versions, i, j)
  }

  lemma {:induction false} PrefixRoutesAt<H>(routes: seq<Route<H>>, versions: seq<Version>, i: nat, j: nat)
    requires i < |versions| && j < |routes|
    ensures i * |routes| + j < |PrefixRoutes(routes, versions)|
    ensures PrefixRoutes(routes, versions)[i * |routes| + j] == WithPrefix(routes[j], Prefix(versions[i]))
  {
    var n := |routes|;
    var head := PrefixEach(routes, Prefix(versions[0]));
    var rest := PrefixRoutes(routes, versions[1..]);
    assert PrefixRoutes(routes, versions) == head + rest;
    if i > 0 {
      PrefixRoutesAt(routes, versions[1..], i - 1, j);
      assert i * n + j == n + ((i - 1) * n + j);
    }
  }

  /** Position k of a block layout with blocks of size n: block k / n,
      offset k % n. */
  lemma BlockPosition(k: nat, n: nat, m: nat)
    requires k < m * n
    ensures n > 0 && 0 <= k / n < m && 0 <= k % n < n && k == (k / n) * n + k % n
  {
  }

  /** Element k comes from version k / |routes| and route k % |routes|. */
  lemma PrefixRoutesIndex<H>(routes: seq<Route<H>>, versions: seq<Version>, k: nat)
    requires k < |PrefixRoutes(routes, versions)|
    ensures |routes| > 0 && k / |routes| < |versions| && k % |routes| < |routes|
    ensures PrefixRoutes(routes, versions)[k] == WithPrefix(routes[k % |routes|], Prefix(versions[k / |routes|]))
  {
    var n := |routes|;
    BlockPosition(k, n, |versions|);
    var i, j := k / n, k % n;
    PrefixRoutesAt(routes, versions, i, j);
    assert k == i * n + j;
  }

  /** PrefixRoutes lays its result out version-major. */
  lemma PrefixRoutesIsVersionMajor<H>(routes: seq<Route<H>>, versions: seq<Version>)
    ensures IsVersionMajor(PrefixRoutes(routes, versions), routes, versions)
  {
    var p := PrefixRoutes(routes, versions);
    var n := |routes|;
    forall i: nat, j: nat | i < |versions| && j < n
      ensures PlacedAt(p, routes, versions, i, j)
    {
      PrefixRoutesAt(routes, versions, i, j);
    }
  }

  /** Any sequence laid out version-major is the result of PrefixRoutes. */
  lemma VersionMajorIsPrefixRoutes<H>(r: seq<Route<H>>, routes: seq<Route<H>>, versions: seq<Version>)
    requires IsVersionMajor(r, routes, versions)
    ensures r == PrefixRoutes(routes, versions)
  {
    var p := PrefixRoutes(routes, versions);
    var n := |routes|;
    forall k | 0 <= k < |r|
      ensures r[k] == p[k]
    {
      BlockPosition(k, n, |versions|);
      var i, j := k / n, k % n;
      assert PlacedAt(r, routes, versions, i, j);
      PrefixRoutesAt(routes, versions, i, j);
    }
  }

  /** PrefixRoutes is the one sequence laid out version-major. */
  lemma PrefixRoutesCharacterized<H>(r: seq<Route<H>>, routes: seq<Route<H>>, versions: seq<Version>)
    ensures IsVersionMajor(r, routes, versions) <==> r == PrefixRoutes(routes, versions)
  {
    PrefixRoutesIsVersionMajor(routes, versions);
    if IsVersionMajor(r, routes, versions) {
      VersionMajorIsPrefixRoutes(r, routes, versions);
    }
  }

  /** Prefixing over versions vs1 + vs2 gives the result for vs1 followed by
      the result for vs2. */
  lemma {:induction false} PrefixRoutesAppend<H>(routes: seq<Route<H>>, vs1: seq<Version>, vs2: seq<Version>)
    ensures PrefixRoutes(routes, vs1 + vs2) == PrefixRoutes(routes, vs1) + PrefixRoutes(routes, vs2)
  {
    if vs1 != [] {
      var head := PrefixEach(routes, Prefix(vs1[0]));
      assert (vs1 + vs2)[0] == vs1[0];
      assert (vs1 + vs2)[1..] == vs1[1..] + vs2;
      PrefixRoutesAppend(routes, vs1[1..], vs2);
      assert PrefixRoutes(routes, vs1) == head + PrefixRoutes(routes, vs1[1..]);
      calc {
        PrefixRoutes(routes, vs1 + vs2);
        head + PrefixRoutes(routes, vs1[1..] + vs2);
        head + (PrefixRoutes(routes, vs1[1..]) + PrefixRoutes(routes, vs2));
        (head + PrefixRoutes(routes, vs1[1..])) + PrefixRoutes(routes, vs2);
      }
    } else {
      assert vs1 + vs2 == vs2;
    }
  }

  /** No versions, or no routes, give no routes. */
  lemma PrefixRoutesEmpty<H>(routes: seq<Route<H>>, versions: seq<Version>)
    ensures PrefixRoutes(routes, []) == []
    ensures PrefixRoutes<H>([], versions) == []
  {
  }

  /** Two GET routes /foo and /bar, with their own handlers, under V3 become
      /api/v3/foo and /api/v3/bar. */
  lemma PrefixRoutesFooBar<H>(h1: H, h2: H)
    ensures Uris(PrefixRoutes([Route("GET", "/foo", h1), Route("GET", "/bar", h2)], [V3]))
         == ["/api/v3/foo", "/api/v3/bar"]
  {
    var routes := [Route("GET", "/foo", h1), Route("GET", "/bar", h2)];
    PrefixV3();
    assert PrefixRoutes(routes, [V3]) == PrefixEach(routes, "/api/v3") + PrefixRoutes(routes, []);
    assert WithPrefix(routes[0], "/api/v3").uri == "/api/v3/foo";
    assert WithPrefix(routes[1], "/api/v3").uri == "/api/v3/bar";
  }
}
