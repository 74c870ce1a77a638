/** Static peers and routes of one node. */
module Peering {
  import opened Core

  type Peer = string
  /** The standard interworking profile, or the laboratory relay profile. */
  datatype Mode = Standard | LabRelay

  datatype PeerInfo = PeerInfo(url: string, identity: string, mode: Mode, incoming: bool)

  datatype Config = Config(
    publicURL: string,
    identity: string,
    localSAEs: seq<string>,
    peers: map<Peer, PeerInfo>,
    routes: map<string, seq<Peer>>)

  function Base(m: Mode): string {
    if m == LabRelay then "/lab/v1/relay/keys" else "/kmapi/v1/ext_keys"
  }

  predicate Urn(s: string) { |s| >= 4 && s[..4] == "urn:" }

  /** A peer's own entry: named, identified by a URN, and not this node itself. */
  predicate GoodPeer(c: Config, p: Peer)
    requires p in c.peers
  {
    p != "" && Urn(c.peers[p].identity) && c.peers[p].identity != c.identity && c.peers[p].url != c.publicURL
  }

  predicate Apart(c: Config, p: Peer, q: Peer)
    requires p in c.peers && q in c.peers
  {
    c.peers[p].identity != c.peers[q].identity && c.peers[p].url != c.peers[q].url
  }

  /** Peers have distinct URLs and identities, none of them this node's own. */
  predicate DistinctPeers(c: Config, ids: set<Peer>)
    requires ids <= c.peers.Keys
  {
    && (forall p :: p in ids ==> GoodPeer(c, p))
    && (forall p, q :: p in ids && q in ids && p != q ==> Apart(c, p, q))
  }

  predicate GoodRoute(c: Config, target: string)
    requires target in c.routes
  {
    && target != "" && c.routes[target] != [] && target !in c.localSAEs
    && Distinct(c.routes[target])
    && forall i :: 0 <= i < |c.routes[target]| ==> c.routes[target][i] in c.peers
  }

  predicate WellFormed(c: Config) {
    && Urn(c.identity) && c.peers != map[]
    && DistinctPeers(c, c.peers.Keys)
    && Distinct(c.localSAEs) && "" !in c.localSAEs
    && forall t :: t in c.routes ==> GoodRoute(c, t)
  }

  /** Accepts exactly the well-formed configurations, whatever order the maps are visited in. */
  method Validate(c: Config) returns (ok: bool)
    ensures ok == WellFormed(c)
    ensures ok <==>
      && Urn(c.identity) && c.peers != map[] && Distinct(c.localSAEs) && "" !in c.localSAEs
      && (forall p :: p in c.peers ==>
            && p != "" && Urn(c.peers[p].identity)
            && c.peers[p].identity != c.identity && c.peers[p].url != c.publicURL)
      && (forall p, q :: p in c.peers && q in c.peers && p != q ==>
            c.peers[p].identity != c.peers[q].identity && c.peers[p].url != c.peers[q].url)
      && (forall t :: t in c.routes ==>
            && t != "" && t !in c.localSAEs && c.routes[t] != [] && Distinct(c.routes[t])
            && forall i :: 0 <= i < |c.routes[t]| ==> c.routes[t][i] in c.peers)
  {
    if !Urn(c.identity) || |c.peers| == 0 {
      return false;
    }
    assert c.peers != map[];
    ok := ValidatePeers(c);
    if !ok {
      return;
    }
    ok := ValidateLocals(c.localSAEs);
    if !ok {
      return;
    }
    var left := c.routes.Keys;
    while left != {}
      invariant left <= c.routes.Keys
      invariant forall t :: t in c.routes && t !in left ==> GoodRoute(c, t)
      decreases left
    {
      var t :| t in left;
      ok := ValidateRoute(c, t);
      if !ok {
        return;
      }
      left := left - {t};
    }
  }

  method ValidatePeers(c: Config) returns (ok: bool)
    ensures ok == DistinctPeers(c, c.peers.Keys)
  {
    var seen, urls := {c.identity}, {c.publicURL};
    var left := c.peers.Keys;
    ghost var done: set<Peer> := {};
    while left != {}
      invariant left + done == c.peers.Keys && left !! done
      invariant DistinctPeers(c, done)
      invariant Recorded(c, done, seen, urls)
      decreases left
    {
      var p :| p in left;
      var info := c.peers[p];
      if p == "" || !Urn(info.identity) || info.identity in seen || info.url in urls {
        Collides(c, done, seen, urls, p);
        return false;
      }
      StaysDistinct(c, done, seen, urls, p);
      seen, urls := seen + {info.identity}, urls + {info.url};
      left, done := left - {p}, done + {p};
    }
    assert done == c.peers.Keys;
    return true;
  }

  lemma StaysDistinct(c: Config, ids: set<Peer>, seen: set<string>, urls: set<string>, p: Peer)
    requires p in c.peers && ids <= c.peers.Keys && p !in ids && Recorded(c, ids, seen, urls) && DistinctPeers(c, ids)
    requires p != "" && Urn(c.peers[p].identity) && c.peers[p].identity !in seen && c.peers[p].url !in urls
    ensures DistinctPeers(c, ids + {p})
    ensures Recorded(c, ids + {p}, seen + {c.peers[p].identity}, urls + {c.peers[p].url})
  {
    forall q | q in ids ensures Apart(c, p, q) && Apart(c, q, p) {}
  }

  function Identities(c: Config, ids: set<Peer>): set<string>
    requires ids <= c.peers.Keys
  {
    set p | p in ids :: c.peers[p].identity
  }

  function URLs(c: Config, ids: set<Peer>): set<string>
    requires ids <= c.peers.Keys
  {
    set p | p in ids :: c.peers[p].url
  }

  /** The accumulated identities and URLs are this node's own and those of the visited peers. */
  ghost predicate Recorded(c: Config, ids: set<Peer>, seen: set<string>, urls: set<string>)
    requires ids <= c.peers.Keys
  {
    seen == {c.identity} + Identities(c, ids) && urls == {c.publicURL} + URLs(c, ids)
  }

  lemma Collides(c: Config, ids: set<Peer>, seen: set<string>, urls: set<string>, p: Peer)
    requires p in c.peers && ids <= c.peers.Keys && p !in ids && Recorded(c, ids, seen, urls)
    requires p == "" || !Urn(c.peers[p].identity) || c.peers[p].identity in seen || c.peers[p].url in urls
    ensures !DistinctPeers(c, c.peers.Keys)
  {
    if GoodPeer(c, p) {
      var q :| q in ids && (c.peers[q].identity == c.peers[p].identity || c.peers[q].url == c.peers[p].url);
      assert !Apart(c, q, p);
    }
  }

  method ValidateLocals(saes: seq<string>) returns (ok: bool)
    ensures ok == (Distinct(saes) && "" !in saes)
  {
    var locals := {};
    for i := 0 to |saes|
      invariant locals == set j | 0 <= j < i :: saes[j]
      invariant Distinct(saes[..i]) && "" !in saes[..i]
    {
      if saes[i] == "" || saes[i] in locals {
        assert saes[i] in saes[..i] ==> !Distinct(saes);
        return false;
      }
      locals := locals + {saes[i]};
    }
    assert saes[..|saes|] == saes;
    return true;
  }

  method ValidateRoute(c: Config, target: string) returns (ok: bool)
    requires target in c.routes
    ensures ok == GoodRoute(c, target)
  {
    var route := c.routes[target];
    if target == "" || |route| == 0 || target in c.localSAEs {
      return false;
    }
    for i := 0 to |route|
      invariant Distinct(route[..i])
      invariant forall j :: 0 <= j < i ==> route[j] in c.peers
    {
      if route[i] !in c.peers || route[i] in route[..i] {
        return false;
      }
    }
    assert route[..|route|] == route;
    return true;
  }
}
