/**
 Which node the next decision belongs to, down to the tie-break: among the nodes with a
 candidate the deepest, and among equally deep ones the one whose id is last as a string.
 */
module OrganizationScheduler {
  import opened OrganizationModel
  import opened OrganizationSafety
  import opened OrganizationDepthFirst

  // ---------------------------------------------------------------- ids as strings

  function Digit(d: nat): char
    requires d < 10
  {
    ('0' as int + d) as char
  }

  function Decimal(n: nat): (s: string)
    ensures |s| >= 1 && (|s| == 1 <==> n < 10)
  {
    if n < 10 then [Digit(n)] else Decimal(n / 10) + [Digit(n % 10)]
  }

  function Name(i: NodeId): string {
    if i == 0 then "root" else "node-" + Decimal(i)
  }

  predicate NotAfter(a: string, b: string) {
    a == [] || (b != [] && (a[0] < b[0] || (a[0] == b[0] && NotAfter(a[1..], b[1..]))))
  }

  lemma {:induction false} NotAfterTotal(a: string, b: string)
    ensures NotAfter(a, b) || NotAfter(b, a)
    ensures NotAfter(a, b) && NotAfter(b, a) ==> a == b
  {
    if a != [] && b != [] && a[0] == b[0] {
      NotAfterTotal(a[1..], b[1..]);
      assert a == [a[0]] + a[1..] && b == [b[0]] + b[1..];
    }
  }

  lemma {:induction false} NotAfterTransitive(a: string, b: string, c: string)
    requires NotAfter(a, b) && NotAfter(b, c)
    ensures NotAfter(a, c)
  {
    if a != [] && a[0] == b[0] == c[0] { NotAfterTransitive(a[1..], b[1..], c[1..]); }
  }

  lemma {:induction false} DecimalsDiffer(m: nat, n: nat)
    requires Decimal(m) == Decimal(n)
    ensures m == n
  {
    var a, b := Decimal(m), Decimal(n);
    assert a[|a| - 1] == Digit(m % 10) && b[|b| - 1] == Digit(n % 10);
    if m >= 10 && n >= 10 {
      assert a[..|a| - 1] == Decimal(m / 10) && b[..|b| - 1] == Decimal(n / 10);
      DecimalsDiffer(m / 10, n / 10);
    }
  }

  lemma NamesDiffer(i: NodeId, j: NodeId)
    requires Name(i) == Name(j)
    ensures i == j
  {
    if i == 0 || j == 0 {
      assert "root"[0] != "node-"[0];
    } else {
      assert Name(i)[5..] == Decimal(i) && Name(j)[5..] == Decimal(j);
      DecimalsDiffer(i, j);
    }
  }

  function TenTo(k: nat): nat { if k == 0 then 1 else 10 * TenTo(k - 1) }

  lemma {:induction false} DecimalLength(n: nat)
    ensures n < TenTo(|Decimal(n)|) && (n >= 10 ==> n >= TenTo(|Decimal(n)| - 1))
  {
    if n >= 10 {
      DecimalLength(n / 10);
      if n / 10 < 10 { assert |Decimal(n / 10)| == 1 && TenTo(1) == 10 * TenTo(0); }
    }
  }

  lemma {:induction false} AppendKeepsOrder(a: string, b: string, c: char, d: char)
    requires |a| == |b|
    ensures NotAfter(a + [c], b + [d]) <==> NotAfter(a, b) && (a == b ==> c <= d)
  {
    if a == [] {
      assert a + [c] == [c] && b + [d] == [d] && [c][1..] == [] && [d][1..] == [];
    } else {
      assert (a + [c])[1..] == a[1..] + [c] && (b + [d])[1..] == b[1..] + [d];
      AppendKeepsOrder(a[1..], b[1..], c, d);
      assert a == [a[0]] + a[1..] && b == [b[0]] + b[1..];
    }
  }

  lemma LastDigit(n: nat)
    requires n >= 10
    ensures Decimal(n) == Decimal(n / 10) + [Digit(n % 10)] && |Decimal(n)| == |Decimal(n / 10)| + 1
  {
  }

  lemma OneDigitInOrder(m: nat, n: nat)
    requires m < 10 && n < 10
    ensures NotAfter(Decimal(m), Decimal(n)) <==> m <= n
  {
    assert [Digit(m)][1..] == [] && [Digit(n)][1..] == [];
  }

  /** Ids with equally many digits are ordered as their numbers. */
  lemma {:induction false} NumbersInOrder(m: nat, n: nat)
    requires |Decimal(m)| == |Decimal(n)|
    ensures NotAfter(Decimal(m), Decimal(n)) <==> m <= n
  {
    hide Decimal, NotAfter;
    if m < 10 {
      OneDigitInOrder(m, n);
    } else {
      LastDigit(m);
      LastDigit(n);
      NumbersInOrder(m / 10, n / 10);
      AppendKeepsOrder(Decimal(m / 10), Decimal(n / 10), Digit(m % 10), Digit(n % 10));
      if Decimal(m / 10) == Decimal(n / 10) { DecimalsDiffer(m / 10, n / 10); }
    }
  }

  lemma {:induction false} PrefixKeepsOrder(p: string, a: string, b: string)
    ensures NotAfter(p + a, p + b) <==> NotAfter(a, b)
  {
    if p == [] {
      assert p + a == a && p + b == b;
    } else {
      assert (p + a)[1..] == p[1..] + a && (p + b)[1..] == p[1..] + b;
      PrefixKeepsOrder(p[1..], a, b);
    }
  }

  // ---------------------------------------------------------------- the scheduled node

  /** t is taken rather than u, or they are the same. */
  predicate Yields(nodes: seq<Node>, u: NodeId, t: NodeId)
    requires u < |nodes| && t < |nodes|
  {
    || nodes[u].depth < nodes[t].depth
    || (nodes[u].depth == nodes[t].depth && NotAfter(Name(u), Name(t)))
  }

  /** Who is taken: of two nodes the deeper one, and of equally deep ones with equally many digits
      the later one; but node-9 is taken rather than node-10. */
  lemma WhoIsTaken(nodes: seq<Node>, u: NodeId, t: NodeId)
    requires u < |nodes| && t < |nodes|
    ensures nodes[u].depth < nodes[t].depth ==> Yields(nodes, u, t) && !Yields(nodes, t, u)
    ensures nodes[u].depth == nodes[t].depth && 0 < u && 0 < t && |Decimal(u)| == |Decimal(t)| ==>
              (Yields(nodes, u, t) <==> u <= t)
    ensures nodes[u].depth == nodes[t].depth && u == 10 && t == 9 ==> Yields(nodes, u, t) && !Yields(nodes, t, u)
  {
    if 0 < u && 0 < t {
      PrefixKeepsOrder("node-", Decimal(u), Decimal(t));
      PrefixKeepsOrder("node-", Decimal(t), Decimal(u));
      if |Decimal(u)| == |Decimal(t)| { NumbersInOrder(u, t); }
      if u == 10 && t == 9 {
        assert Decimal(10) == Decimal(1) + [Digit(0)];
        assert Decimal(10)[0] == '1' && Decimal(9) == "9";
      }
    }
  }

  lemma YieldsOrders(nodes: seq<Node>, u: NodeId, t: NodeId)
    requires u < |nodes| && t < |nodes|
    ensures Yields(nodes, u, t) || Yields(nodes, t, u)
    ensures Yields(nodes, u, t) && Yields(nodes, t, u) ==> u == t
  {
    NotAfterTotal(Name(u), Name(t));
    if Name(u) == Name(t) { NamesDiffer(u, t); }
  }

  lemma YieldsTransitive(nodes: seq<Node>, u: NodeId, v: NodeId, t: NodeId)
    requires u < |nodes| && v < |nodes| && t < |nodes| && Yields(nodes, u, v) && Yields(nodes, v, t)
    ensures Yields(nodes, u, t)
  {
    if nodes[u].depth == nodes[v].depth == nodes[t].depth { NotAfterTransitive(Name(u), Name(v), Name(t)); }
  }

  ghost predicate HasCandidate(cfg: Config, s: State, t: NodeId) {
    exists c :: Offered(cfg, s, c) && ActorOf(c) == t
  }

  /** The node whose candidates the next decision is taken from. */
  ghost predicate IsContext(cfg: Config, s: State, t: NodeId) {
    && t < |s.nodes| && HasCandidate(cfg, s, t)
    && forall d :: Offered(cfg, s, d) && ActorOf(d) < |s.nodes| ==> Yields(s.nodes, ActorOf(d), t)
  }

  lemma ContextIsUnique(cfg: Config, s: State, t: NodeId, u: NodeId)
    requires IsContext(cfg, s, t) && IsContext(cfg, s, u)
    ensures t == u
  {
    YieldsOrders(s.nodes, t, u);
  }

  /** What is proved of every deepest choice holds of the choices of this node. */
  lemma ContextIsScheduled(cfg: Config, s: State, c: Candidate)
    requires IsContext(cfg, s, ActorOf(c))
    ensures Scheduled(cfg, s, c)
  {
  }

  // ---------------------------------------------------------------- read off the statuses

  /** A node that has a candidate: it is ready or reported, or has returned and may still
      share its report. */
  predicate Acting(s: State, i: NodeId)
    requires i < |s.nodes|
  {
    || s.nodes[i].status == Ready
    || s.nodes[i].status == Reported
    || (s.nodes[i].status == Returned && Shares(s, i))
  }

  predicate Shares(s: State, i: NodeId) {
    exists d :: 0 <= d < |s.nodes| && OffersConnect(s, i, d)
  }

  predicate LastActing(s: State, t: NodeId) {
    t < |s.nodes| && Acting(s, t) && forall u :: 0 <= u < |s.nodes| && Acting(s, u) ==> Yields(s.nodes, u, t)
  }

  lemma ActorsAct(cfg: Config, s: State, c: Candidate)
    requires Inv(cfg, s) && Idle(s) && Offered(cfg, s, c)
    ensures ActorOf(c) < |s.nodes| && Acting(s, ActorOf(c))
  {
    OnlyReturnedNodesActFromOutside(cfg, s, c);
  }

  lemma ActingHasCandidate(cfg: Config, s: State, i: NodeId)
    requires Inv(cfg, s) && Idle(s) && i < |s.nodes| && Acting(s, i)
    requires i == 0 ==> forall j :: 1 <= j < |s.nodes| ==> !InPlay(s.nodes[j].status)
    ensures HasCandidate(cfg, s, i)
  {
    if s.nodes[i].status == Ready {
      assert Offered(cfg, s, Execute(i));
    } else if s.nodes[i].status == Returned {
      var d :| 0 <= d < |s.nodes| && OffersConnect(s, i, d);
      assert Offered(cfg, s, Connect(i, d));
    } else if i == 0 {
      assert Offered(cfg, s, Stop);
    } else {
      assert Offered(cfg, s, Return(i));
    }
  }

  lemma {:induction false} OnlyRootIsShallow(nodes: seq<Node>, i: NodeId)
    requires TreeShaped(nodes) && i < |nodes|
    ensures nodes[i].depth == 0 <==> i == 0
  {
    if i > 0 { assert HasParent(nodes, i); }
  }

  /** The scheduled node can be read off the statuses and the shares still open. */
  lemma ContextIsLastActing(cfg: Config, s: State, t: NodeId)
    requires Inv(cfg, s) && Idle(s)
    ensures IsContext(cfg, s, t) <==> LastActing(s, t)
  {
    if IsContext(cfg, s, t) {
      var c :| Offered(cfg, s, c) && ActorOf(c) == t;
      ActorsAct(cfg, s, c);
      forall u | 0 <= u < |s.nodes| && Acting(s, u) ensures Yields(s.nodes, u, t) {
        if u == 0 {
          OnlyRootIsShallow(s.nodes, t);
          YieldsOrders(s.nodes, t, t);
          OnlyRootIsShallow(s.nodes, 0);
        } else {
          ActingHasCandidate(cfg, s, u);
          var d :| Offered(cfg, s, d) && ActorOf(d) == u;
        }
      }
    }
    if LastActing(s, t) {
      if t == 0 {
        forall j | 1 <= j < |s.nodes| ensures !InPlay(s.nodes[j].status) {
          OnlyRootIsShallow(s.nodes, j);
          var acting := Acting(s, j);
        }
      }
      ActingHasCandidate(cfg, s, t);
      forall d | Offered(cfg, s, d) && ActorOf(d) < |s.nodes| ensures Yields(s.nodes, ActorOf(d), t) {
        ActorsAct(cfg, s, d);
      }
    }
  }
}
