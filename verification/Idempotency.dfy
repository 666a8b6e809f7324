/** Idempotency key construction (backend/app/domain/idempotency.py). */
module Idempotency {
  import opened Types
  import opened Decimal

  /** What one delivery is: a rule, a source peer, the lowest message id, a destination peer. */
  datatype Route = Route(rule: string, source: Peer, anchor: int, dest: Peer)

  /** SHA-256 and the 63-bit fold of a second digest. Nothing is assumed about either. */
  datatype Hashes = Hashes(digest: string -> string, token: string -> int)

  /** The two functions the engine builds rows with: the key of a route, the token of a key. */
  datatype Keys = Keys(key: Route -> string, token: string -> int)

  const SEPARATOR := '|'

  function KindText(k: PeerKind): string {
    match k
    case UserPeer => "user"
    case ChatPeer => "chat"
    case ChannelPeer => "channel"
  }

  function Lowest(ids: seq<int>): (m: int)
    requires ids != []
    ensures m in ids
    ensures forall i :: 0 <= i < |ids| ==> m <= ids[i]
  {
    if |ids| == 1 then ids[0]
    else
      var rest := Lowest(ids[1..]);
      if ids[0] <= rest then ids[0] else rest
  }

  function RouteOf(rule: string, source: Peer, ids: seq<int>, dest: Peer): Route
    requires ids != []
  {
    Route(rule, source, Lowest(ids), dest)
  }

  /** `separator.join(parts)`. */
  function Join(parts: seq<string>): string {
    if |parts| == 0 then ""
    else if |parts| == 1 then parts[0]
    else parts[0] + [SEPARATOR] + Join(parts[1..])
  }

  function Parts(r: Route): seq<string> {
    [r.rule, KindText(r.source.kind), IntText(r.source.id), IntText(r.anchor),
     KindText(r.dest.kind), IntText(r.dest.id)]
  }

  function Material(r: Route): string {
    Join(Parts(r))
  }

  function Key(h: Hashes, r: Route): string {
    h.digest(Material(r))
  }

  function Token(h: Hashes, key: string): int {
    h.token("random_id" + [SEPARATOR] + key)
  }

  function KeysOf(h: Hashes): Keys {
    Keys(r => Key(h, r), k => Token(h, k))
  }

  datatype KeyResult = Built(key: string) | EmptyMessageIds

  /** Refuses a message with no ids; otherwise the key of the route. */
  method BuildKey(h: Hashes, rule: string, source: Peer, ids: seq<int>, dest: Peer) returns (r: KeyResult)
    ensures r.EmptyMessageIds? <==> ids == []
    ensures ids != [] ==> r == Built(Key(h, RouteOf(rule, source, ids, dest)))
  {
    if ids == [] {
      return EmptyMessageIds;
    }
    var anchor := Lowest(ids);
    var material := Join([rule, KindText(source.kind), IntText(source.id), IntText(anchor),
                          KindText(dest.kind), IntText(dest.id)]);
    r := Built(h.digest(material));
  }

  predicate Clean(s: string) {
    SEPARATOR !in s
  }

  lemma KindTextInjective(a: PeerKind, b: PeerKind)
    requires KindText(a) == KindText(b)
    ensures a == b
  {
    assert KindText(a)[0] == KindText(b)[0] && |KindText(a)| == |KindText(b)|;
  }

  /** The first field of a separated text is determined by it, and so is the remainder. */
  lemma SplitUnique(a: string, x: string, b: string, y: string)
    requires Clean(a) && Clean(b)
    requires a + [SEPARATOR] + x == b + [SEPARATOR] + y
    ensures a == b && x == y
  {
    var s := a + [SEPARATOR] + x;
    assert s[|a|] == SEPARATOR && s[|b|] == SEPARATOR;
    assert forall i :: 0 <= i < |a| ==> s[i] == a[i] && a[i] in a;
    assert forall i :: 0 <= i < |b| ==> s[i] == b[i] && b[i] in b;
    assert |a| == |b|;
    assert a == s[..|a|] && b == s[..|b|];
    assert x == s[|a| + 1..] && y == s[|b| + 1..];
  }

  lemma {:induction false} JoinInjective(p: seq<string>, q: seq<string>)
    requires |p| == |q| > 0
    requires forall i :: 0 <= i < |p| ==> Clean(p[i]) && Clean(q[i])
    requires Join(p) == Join(q)
    ensures p == q
  {
    if |p| == 1 {
    } else {
      SplitUnique(p[0], Join(p[1..]), q[0], Join(q[1..]));
      JoinInjective(p[1..], q[1..]);
      assert p == [p[0]] + p[1..] && q == [q[0]] + q[1..];
    }
  }

  lemma PartsInjective(a: Route, b: Route)
    requires Parts(a) == Parts(b)
    ensures a == b
  {
    var p, q := Parts(a), Parts(b);
    assert p[0] == q[0] && p[1] == q[1] && p[2] == q[2] && p[3] == q[3] && p[4] == q[4] && p[5] == q[5];
    KindTextInjective(a.source.kind, b.source.kind);
    KindTextInjective(a.dest.kind, b.dest.kind);
    IntTextInjective(a.source.id, b.source.id);
    IntTextInjective(a.anchor, b.anchor);
    IntTextInjective(a.dest.id, b.dest.id);
  }

  lemma PartsAreClean(r: Route)
    requires Clean(r.rule)
    ensures forall i :: 0 <= i < |Parts(r)| ==> Clean(Parts(r)[i])
  {
  }

  /** Equal key material means the same rule, source peer, anchor and destination peer: two
      different deliveries can only collide through the digest itself. */
  lemma MaterialInjective(a: Route, b: Route)
    requires Clean(a.rule) && Clean(b.rule)
    requires Material(a) == Material(b)
    ensures a == b
  {
    PartsAreClean(a);
    PartsAreClean(b);
    JoinInjective(Parts(a), Parts(b));
    PartsInjective(a, b);
  }

  /** An album re-delivered in another arrival order is the same delivery. */
  lemma ArrivalOrderIrrelevant(h: Hashes, rule: string, source: Peer, ids: seq<int>, other: seq<int>, dest: Peer)
    requires ids != [] && multiset(ids) == multiset(other)
    ensures other != []
    ensures Key(h, RouteOf(rule, source, ids, dest)) == Key(h, RouteOf(rule, source, other, dest))
  {
    assert ids[0] in multiset(ids);
    assert ids[0] in other;
    var a, b := Lowest(ids), Lowest(other);
    assert a in multiset(ids) && b in multiset(other);
    assert a in other && b in ids;
  }

  /** The material, field by field. */
  lemma MaterialSays(r: Route)
    ensures Material(r) == r.rule + "|" + (KindText(r.source.kind) + "|" + (IntText(r.source.id) + "|" + (IntText(r.anchor) + "|"
                           + (KindText(r.dest.kind) + "|" + IntText(r.dest.id)))))
    ensures KindText(UserPeer) == "user" && KindText(ChatPeer) == "chat" && KindText(ChannelPeer) == "channel"
  {
    var p := Parts(r);
    assert p[5..] == [p[5]] && p[4..][1..] == p[5..] && p[3..][1..] == p[4..] && p[2..][1..] == p[3..] && p[1..][1..] == p[2..];
    assert Join(p[5..]) == p[5];
    assert Join(p[4..]) == p[4] + "|" + Join(p[5..]);
    assert Join(p[3..]) == p[3] + "|" + Join(p[4..]);
    assert Join(p[2..]) == p[2] + "|" + Join(p[3..]);
    assert Join(p[1..]) == p[1] + "|" + Join(p[2..]);
  }
}
