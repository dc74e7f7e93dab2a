/**
  The runtime closure of a selection: a worklist over the run-scope edges of one
  environment, proved to compute reachability whatever the order of the edges.
 */
module RuntimeClosure {

  /** A selection or an edge, by the digest that identifies it. */
  type Identity = string

  datatype SelectionEdge = SelectionEdge(identity: Identity, issuer: Identity, required: Identity, environment: nat,
                                         runScope: bool)

  /** The edges that the closure follows. */
  predicate Followed(e: SelectionEdge, environment: nat) {
    e.environment == environment && e.runScope
  }

  predicate Steps(edges: seq<SelectionEdge>, environment: nat, from: Identity, to: Identity) {
    exists i | 0 <= i < |edges| :: Followed(edges[i], environment) && edges[i].issuer == from && edges[i].required == to
  }

  predicate Path(edges: seq<SelectionEdge>, environment: nat, path: seq<Identity>) {
    path != [] && forall i | 0 <= i < |path| - 1 :: Steps(edges, environment, path[i], path[i + 1])
  }

  ghost predicate Reachable(edges: seq<SelectionEdge>, environment: nat, root: Identity, n: Identity) {
    exists path: seq<Identity> :: Path(edges, environment, path) && path[0] == root && path[|path| - 1] == n
  }

  /** The members are what the root reaches; the witnesses are the edges issued by members. */
  ghost predicate IsClosure(edges: seq<SelectionEdge>, environment: nat, root: Identity, members: set<Identity>,
                            witnesses: set<Identity>) {
    && (forall n :: n in members <==> Reachable(edges, environment, root, n))
    && (forall w :: w in witnesses
          <==> exists i | 0 <= i < |edges| ::
                Followed(edges[i], environment) && edges[i].issuer in members && edges[i].identity == w)
  }

  // ---------------------------------------------------------------- reachability

  lemma RootIsReachable(edges: seq<SelectionEdge>, environment: nat, root: Identity)
    ensures Reachable(edges, environment, root, root)
  {
    assert Path(edges, environment, [root]) && [root][0] == root && [root][|[root]| - 1] == root;
  }

  lemma ReachesFurther(edges: seq<SelectionEdge>, environment: nat, root: Identity, n: Identity, next: Identity)
    requires Reachable(edges, environment, root, n) && Steps(edges, environment, n, next)
    ensures Reachable(edges, environment, root, next)
  {
    hide Steps;
    var path: seq<Identity> :| Path(edges, environment, path) && path[0] == root && path[|path| - 1] == n;
    var longer := path + [next];
    assert longer[0] == root && longer[|longer| - 1] == next;
    forall i | 0 <= i < |longer| - 1
      ensures Steps(edges, environment, longer[i], longer[i + 1])
    {
      assert i < |path| - 1 ==> Steps(edges, environment, path[i], path[i + 1]);
    }
    assert Path(edges, environment, longer);
  }

  /** A set that contains the root and is closed under steps contains the end of every path. */
  lemma {:induction false} ClosedContainsPath(edges: seq<SelectionEdge>, environment: nat, members: set<Identity>,
                                              path: seq<Identity>)
    requires Path(edges, environment, path) && path[0] in members
    requires forall n, next | n in members && Steps(edges, environment, n, next) :: next in members
    ensures path[|path| - 1] in members
    decreases |path|
  {
    if |path| > 1 {
      var shorter := path[..|path| - 1];
      forall i | 0 <= i < |shorter| - 1
        ensures Steps(edges, environment, shorter[i], shorter[i + 1])
      {
        assert Steps(edges, environment, path[i], path[i + 1]);
      }
      ClosedContainsPath(edges, environment, members, shorter);
      assert Steps(edges, environment, path[|path| - 2], path[|path| - 2 + 1]);
    }
  }

  // ---------------------------------------------------------------- the worklist

  /** Every followed edge of the first `k` that `issuer` issues is witnessed and its target a member. */
  predicate Scanned(edges: seq<SelectionEdge>, environment: nat, issuer: Identity, k: nat, members: set<Identity>,
                    witnesses: set<Identity>)
    requires k <= |edges|
  {
    forall i | 0 <= i < k && Followed(edges[i], environment) && edges[i].issuer == issuer ::
      edges[i].required in members && edges[i].identity in witnesses
  }

  function Universe(edges: seq<SelectionEdge>, root: Identity): set<Identity> {
    {root} + set e | e in edges :: e.required
  }

  ghost predicate Justified(edges: seq<SelectionEdge>, environment: nat, root: Identity, members: set<Identity>,
                            witnesses: set<Identity>, pending: seq<Identity>)
  {
    && root in members && members <= Universe(edges, root)
    && (forall n | n in pending :: n in members)
    && (forall n | n in members :: Reachable(edges, environment, root, n))
    && (forall w | w in witnesses ::
          exists i | 0 <= i < |edges| ::
                Followed(edges[i], environment) && edges[i].issuer in members && edges[i].identity == w)
  }

  lemma SmallerSet(a: set<Identity>, b: set<Identity>, n: Identity)
    requires n in a && n !in b
    ensures |a - (b + {n})| < |a - b|
  {
    assert a - (b + {n}) == (a - b) - {n};
  }

  lemma ScanMore(edges: seq<SelectionEdge>, environment: nat, n: Identity, k: nat, members: set<Identity>,
                 witnesses: set<Identity>,
                 moreMembers: set<Identity>, moreWitnesses: set<Identity>)
    requires k <= |edges| && Scanned(edges, environment, n, k, members, witnesses)
    requires members <= moreMembers && witnesses <= moreWitnesses
    ensures Scanned(edges, environment, n, k, moreMembers, moreWitnesses)
  {}

  lemma JustifiedMore(edges: seq<SelectionEdge>, environment: nat, root: Identity, members: set<Identity>,
                      witnesses: set<Identity>,
                      pending: seq<Identity>, i: nat)
    requires Justified(edges, environment, root, members, witnesses, pending)
    requires i < |edges| && Followed(edges[i], environment) && edges[i].issuer in members
    ensures Justified(edges, environment, root, members + {edges[i].required}, witnesses + {edges[i].identity}, pending)
    ensures Justified(edges, environment, root, members + {edges[i].required}, witnesses + {edges[i].identity},
                      pending + [edges[i].required])
  {
    var e := edges[i];
    assert Steps(edges, environment, e.issuer, e.required);
    ReachesFurther(edges, environment, root, e.issuer, e.required);
    hide Steps, Reachable;
    forall w | w in witnesses
      ensures exists k | 0 <= k < |edges| ::
                Followed(edges[k], environment) && edges[k].issuer in members + {e.required} && edges[k].identity == w
    {
      var k :| 0 <= k < |edges| && Followed(edges[k], environment) && edges[k].issuer in members
          && edges[k].identity == w;
    }
  }

  /** Follow the edges of one issuer. */
  method ScanIssuer(edges: seq<SelectionEdge>, environment: nat, root: Identity, issuer: Identity,
                    members: set<Identity>, witnesses: set<Identity>, pending: seq<Identity>)
    returns (newMembers: set<Identity>, newWitnesses: set<Identity>, newPending: seq<Identity>)
    requires issuer in members && Justified(edges, environment, root, members, witnesses, pending)
    ensures Justified(edges, environment, root, newMembers, newWitnesses, newPending)
    ensures members <= newMembers && witnesses <= newWitnesses
    ensures Scanned(edges, environment, issuer, |edges|, newMembers, newWitnesses)
    ensures forall n | n in newMembers && n !in newPending :: n in members && n !in pending
    ensures |Universe(edges, root) - newMembers| < |Universe(edges, root) - members|
            || (newMembers == members && newPending == pending)
  {
    newMembers, newWitnesses, newPending := members, witnesses, pending;
    hide Justified, Universe;
    for i := 0 to |edges|
      invariant Justified(edges, environment, root, newMembers, newWitnesses, newPending)
      invariant members <= newMembers && witnesses <= newWitnesses
      invariant Scanned(edges, environment, issuer, i, newMembers, newWitnesses)
      invariant forall n | n in newMembers && n !in newPending :: n in members && n !in pending
      invariant |Universe(edges, root) - newMembers| < |Universe(edges, root) - members|
                || (newMembers == members && newPending == pending)
    {
      var e := edges[i];
      if e.environment == environment && e.runScope && e.issuer == issuer {
        JustifiedMore(edges, environment, root, newMembers, newWitnesses, newPending, i);
        newWitnesses := newWitnesses + {e.identity};
        if e.required !in newMembers {
          InUniverse(edges, root, i);
          SmallerSet(Universe(edges, root), newMembers, e.required);
          newMembers := newMembers + {e.required};
          newPending := newPending + [e.required];
        } else {
          assert newMembers + {e.required} == newMembers;
        }
      }
    }
  }

  lemma InUniverse(edges: seq<SelectionEdge>, root: Identity, i: nat)
    requires i < |edges|
    ensures edges[i].required in Universe(edges, root)
  {}

  method RuntimeClosureFor(edges: seq<SelectionEdge>, environment: nat, root: Identity)
    returns (members: set<Identity>, witnesses: set<Identity>)
    ensures IsClosure(edges, environment, root, members, witnesses)
  {
    members, witnesses := {root}, {};
    var pending := [root];
    RootIsReachable(edges, environment, root);
    while pending != []
      invariant Justified(edges, environment, root, members, witnesses, pending)
      invariant forall n | n in members && n !in pending :: Scanned(edges, environment, n, |edges|, members, witnesses)
      decreases |Universe(edges, root) - members|, |pending|
    {
      var last := |pending| - 1;
      var issuer := pending[last];
      var shorter := pending[..last];
      assert pending == shorter + [issuer];
      ghost var before, seen := members, witnesses;
      members, witnesses, pending := ScanIssuer(edges, environment, root, issuer, members, witnesses, shorter);
      forall n | n in members && n !in pending
        ensures Scanned(edges, environment, n, |edges|, members, witnesses)
      {
        if n != issuer {
          ScanMore(edges, environment, n, |edges|, before, seen, members, witnesses);
        }
      }
    }
    ScannedIsClosure(edges, environment, root, members, witnesses);
  }

  lemma ScannedIsClosure(edges: seq<SelectionEdge>, environment: nat, root: Identity, members: set<Identity>,
                         witnesses: set<Identity>)
    requires Justified(edges, environment, root, members, witnesses, [])
    requires forall n | n in members :: Scanned(edges, environment, n, |edges|, members, witnesses)
    ensures IsClosure(edges, environment, root, members, witnesses)
  {
    forall n, next | n in members && Steps(edges, environment, n, next)
      ensures next in members
    {
      assert Scanned(edges, environment, n, |edges|, members, witnesses);
    }
    forall n | Reachable(edges, environment, root, n)
      ensures n in members
    {
      var path: seq<Identity> :| Path(edges, environment, path) && path[0] == root && path[|path| - 1] == n;
      ClosedContainsPath(edges, environment, members, path);
    }
  }

  // ---------------------------------------------------------------- the order of the edges

  lemma SamePaths(edges: seq<SelectionEdge>, others: seq<SelectionEdge>, environment: nat, root: Identity, n: Identity)
    requires (forall e | e in edges :: e in others) && Reachable(edges, environment, root, n)
    ensures Reachable(others, environment, root, n)
  {
    var path: seq<Identity> :| Path(edges, environment, path) && path[0] == root && path[|path| - 1] == n;
    forall i | 0 <= i < |path| - 1
      ensures Steps(others, environment, path[i], path[i + 1])
    {
      assert Steps(edges, environment, path[i], path[i + 1]);
      var k :| 0 <= k < |edges| && Followed(edges[k], environment) && edges[k].issuer == path[i]
          && edges[k].required == path[i + 1];
      assert edges[k] in others;
    }
    assert Path(others, environment, path);
  }

  /** Permuting the edges, or repeating them, changes neither the members nor the witnesses. */
  lemma ClosureIgnoresEdgeOrder(edges: seq<SelectionEdge>, others: seq<SelectionEdge>, environment: nat, root: Identity,
                                members: set<Identity>, witnesses: set<Identity>,
                                otherMembers: set<Identity>, otherWitnesses: set<Identity>)
    requires forall e :: e in edges <==> e in others
    requires IsClosure(edges, environment, root, members, witnesses)
    requires IsClosure(others, environment, root, otherMembers, otherWitnesses)
    ensures members == otherMembers && witnesses == otherWitnesses
  {
    forall n
      ensures n in members <==> n in otherMembers
    {
      if n in members {
        SamePaths(edges, others, environment, root, n);
      }
      if n in otherMembers {
        SamePaths(others, edges, environment, root, n);
      }
    }
    hide Reachable;
    assert members == otherMembers;
    forall w
      ensures w in witnesses <==> w in otherWitnesses
    {
      if w in witnesses {
        var i :| 0 <= i < |edges| && Followed(edges[i], environment) && edges[i].issuer in members
            && edges[i].identity == w;
        assert edges[i] in others;
      }
      if w in otherWitnesses {
        var i :| 0 <= i < |others| && Followed(others[i], environment) && others[i].issuer in members
            && others[i].identity == w;
        assert others[i] in edges;
      }
    }
  }
}
