/** The artist image resolver: one lookup per distinct artist id, a failed
    lookup recorded as null rather than raised. */
module ArtistImages {
  import opened Wrappers
  import opened Records
  import Auth

  const ArtistUrl := "https://api.spotify.com/v1/artists/"

  datatype ArtistRequest = ArtistRequest(url: string, authorization: string)

  /** What one artist lookup yields: a failed request, or the JSON reply with
      its `images` member (`None` when that member is missing). */
  datatype ArtistReply = Failed | Reply(images: Option<seq<Image>>)

  /** The artist endpoint is a function of the request. */
  type Fetch = ArtistRequest -> ArtistReply

  /** The image-to-artist map: artist id to image URL, or null. */
  type ImageMap = map<string, Option<string>>

  function ArtistRequestFor(artistId: string, token: string): (r: ArtistRequest)
    ensures |r.url| == |ArtistUrl| + |artistId|
    ensures r.url[..|ArtistUrl|] == ArtistUrl && r.url[|ArtistUrl|..] == artistId
    ensures Auth.BearerToken(r.authorization) == Some(token)
  {
    Auth.BearerTokenRoundTrip(token);
    ArtistRequest(ArtistUrl + artistId, Auth.BearerAuthorization(token))
  }

  /** The first image's URL; every way the lookup can fail (the request, a
      missing `images` member, an empty image list) gives null instead. */
  function ImageOf(reply: ArtistReply): (url: Option<string>)
    ensures url.Some? <==> reply.Reply? && reply.images.Some? && |reply.images.value| > 0
    ensures url.Some? ==> url.value == reply.images.value[0].url
  {
    match reply
    case Failed => None
    case Reply(None) => None
    case Reply(Some(images)) => if |images| == 0 then None else Some(images[0].url)
  }

  ghost predicate NoDuplicates<T>(s: seq<T>) {
    forall i, j :: 0 <= i < j < |s| ==> s[i] != s[j]
  }

  /** The distinct values of `ids` in order of first appearance (`unique()`). */
  function Distinct(ids: seq<string>): (u: seq<string>)
    ensures NoDuplicates(u)
    ensures forall x :: x in u <==> x in ids
    ensures |u| <= |ids|
  {
    if |ids| == 0 then []
    else
      var u := Distinct(ids[..|ids| - 1]);
      var last := ids[|ids| - 1];
      if last in u then u else u + [last]
  }

  /** A value's first appearance in `ids` comes before a later value's. */
  lemma {:induction false} DistinctKeepsFirstAppearanceOrder(ids: seq<string>, i: nat, j: nat)
    requires i < j < |Distinct(ids)|
    ensures exists p, q :: (0 <= p < q < |ids| && ids[p] == Distinct(ids)[i] && ids[q] == Distinct(ids)[j]
                            && Distinct(ids)[j] !in ids[..q])
  {
    var pre := ids[..|ids| - 1];
    var u := Distinct(pre);
    var last := ids[|ids| - 1];
    if j < |u| {
      DistinctKeepsFirstAppearanceOrder(pre, i, j);
      var p, q :| 0 <= p < q < |pre| && pre[p] == u[i] && pre[q] == u[j] && u[j] !in pre[..q];
      assert ids[..q] == pre[..q];
    } else {
      assert Distinct(ids) == u + [last] && j == |u|;
      assert u[i] in pre;
      var p :| 0 <= p < |pre| && pre[p] == u[i];
      assert last !in u;
      assert ids[..|ids| - 1] == pre;
    }
  }

  /** The artist ids of a table's rows, in row order. */
  function ArtistIds(rows: seq<Row>): (ids: seq<string>)
    ensures |ids| == |rows| && forall i :: 0 <= i < |rows| ==> ids[i] == rows[i].artistId
  {
    seq(|rows|, i requires 0 <= i < |rows| => rows[i].artistId)
  }

  /** The lookups the resolver issues: one per distinct id, in order of first
      appearance. */
  function LookupRequests(ids: seq<string>, token: string): (rs: seq<ArtistRequest>)
    ensures |rs| == |Distinct(ids)|
    ensures forall i :: 0 <= i < |rs| ==> rs[i] == ArtistRequestFor(Distinct(ids)[i], token)
  {
    var u := Distinct(ids);
    seq(|u|, i requires 0 <= i < |u| => ArtistRequestFor(u[i], token))
  }

  /** The map the resolver builds, stated per key. */
  ghost predicate ResolvedFor(m: ImageMap, ids: seq<string>, token: string, fetch: Fetch) {
    && m.Keys == (set k | k in ids)
    && forall k :: k in m ==> m[k] == ImageOf(fetch(ArtistRequestFor(k, token)))
  }

  /** The artist-image map as a whole, for the transform to join on. */
  function ImageMapFor(ids: seq<string>, token: string, fetch: Fetch): (m: ImageMap)
    ensures ResolvedFor(m, ids, token, fetch)
  {
    map k | k in ids :: ImageOf(fetch(ArtistRequestFor(k, token)))
  }

  /** The resolver loop: each distinct id is looked up once, and a lookup
      that fails is stored as null; nothing is raised. */
  method ResolveArtistImages(ids: seq<string>, token: string, fetch: Fetch)
    returns (m: ImageMap, requests: seq<ArtistRequest>)
    ensures m.Keys == (set k | k in ids)
    ensures forall k :: k in m ==> m[k] == ImageOf(fetch(ArtistRequestFor(k, token)))
    ensures requests == LookupRequests(ids, token)
    ensures m == ImageMapFor(ids, token, fetch)
  {
    var u := Distinct(ids);
    m := map[];
    requests := [];
    for n := 0 to |u|
      invariant m.Keys == set k | k in u[..n]
      invariant forall k :: k in m ==> m[k] == ImageOf(fetch(ArtistRequestFor(k, token)))
      invariant |requests| == n
      invariant forall i :: 0 <= i < n ==> requests[i] == ArtistRequestFor(u[i], token)
    {
      var request := ArtistRequestFor(u[n], token);
      requests := requests + [request];
      m := m[u[n] := ImageOf(fetch(request))];
      assert u[..n + 1] == u[..n] + [u[n]];
    }
    assert u[..|u|] == u;
  }
}
