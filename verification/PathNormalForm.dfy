/**
  The lexical normal form of an absolute path, as section [fs.path.generic] of the C++ standard has it: rewrite
  one component at a time until nothing can be rewritten.  `Resolve` finds what every such rewriting ends in.
 */
module PathNormalForm {
  import opened Wrappers
  import opened Construction

  predicate Plain(name: string) {
    name != "" && name != "." && name != ".."
  }

  /** After a removal at the end of a path the separator before it stays. */
  function Kept(front: seq<string>, rest: seq<string>): seq<string> {
    if rest == [] then front + [""] else front + rest
  }

  /**
    One rewriting at place `k`: a repeated separator, a dot, a name and the dot-dot after it, or a
    dot-dot right after the root.
   */
  predicate RewritesAt(s: seq<string>, t: seq<string>, k: nat) {
    || (k + 1 < |s| && s[k] == "" && t == s[..k] + s[k + 1..])
    || (k < |s| && s[k] == "." && t == Kept(s[..k], s[k + 1..]))
    || (k + 1 < |s| && Plain(s[k]) && s[k + 1] == ".." && t == Kept(s[..k], s[k + 2..]))
    || (k == 0 && s != [] && s[0] == ".." && t == Kept([], s[1..]))
  }

  predicate Rewrites(s: seq<string>, t: seq<string>) {
    exists k | 0 <= k < |s| :: RewritesAt(s, t, k)
  }

  /** Plain names, and perhaps a separator at the end. */
  predicate Irreducible(s: seq<string>) {
    forall i | 0 <= i < |s| :: Plain(s[i]) || (i == |s| - 1 && s[i] == "")
  }

  // ---------------------------------------------------------------- rewriting keeps the resolution

  /** What a path resolves to decides what every longer path resolves to. */
  lemma {:induction false} ResolveGoesOn(u: seq<string>, v: seq<string>, rest: seq<string>)
    requires Resolve(u) == Resolve(v)
    ensures Resolve(u + rest) == Resolve(v + rest)
    decreases |rest|
  {
    if rest == [] {
      assert u + rest == u && v + rest == v;
    } else {
      var front, last := rest[..|rest| - 1], rest[|rest| - 1];
      ResolveGoesOn(u, v, front);
      assert (u + rest)[..|u + rest| - 1] == u + front && (v + rest)[..|v + rest| - 1] == v + front;
    }
  }

  lemma ResolveOne(u: seq<string>, name: string)
    ensures Resolve(u + [name]) ==
              if name == "" || name == "." then Resolve(u)
              else if name == ".." then (if Resolve(u) == [] then [] else Resolve(u)[..|Resolve(u)| - 1])
              else Resolve(u) + [name]
  {
    assert (u + [name])[..|u + [name]| - 1] == u;
  }

  lemma KeptResolves(u: seq<string>, front: seq<string>, rest: seq<string>)
    requires Resolve(u) == Resolve(front)
    ensures Resolve(u + rest) == Resolve(Kept(front, rest))
  {
    hide Resolve;
    if rest == [] {
      assert u + rest == u;
      ResolveOne(front, "");
    } else {
      ResolveGoesOn(u, front, rest);
    }
  }

  lemma SeparatorResolves(s: seq<string>, k: nat)
    requires k < |s| && s[k] == ""
    ensures Resolve(s[..k] + s[k + 1..]) == Resolve(s)
  {
    hide Resolve;
    ResolveOne(s[..k], "");
    ResolveGoesOn(s[..k] + [""], s[..k], s[k + 1..]);
    assert s[..k] + [""] + s[k + 1..] == s;
  }

  lemma DotResolves(s: seq<string>, k: nat)
    requires k < |s| && s[k] == "."
    ensures Resolve(Kept(s[..k], s[k + 1..])) == Resolve(s)
  {
    hide Resolve, Kept;
    ResolveOne(s[..k], ".");
    KeptResolves(s[..k] + ["."], s[..k], s[k + 1..]);
    assert s[..k] + ["."] + s[k + 1..] == s;
  }

  lemma NameAndBackResolve(s: seq<string>, k: nat)
    requires k + 1 < |s| && Plain(s[k]) && s[k + 1] == ".."
    ensures Resolve(Kept(s[..k], s[k + 2..])) == Resolve(s)
  {
    hide Resolve, Kept;
    var u, name := s[..k], s[k];
    ResolveOne(u, name);
    ResolveOne(u + [name], "..");
    assert (Resolve(u) + [name])[..|Resolve(u)|] == Resolve(u);
    KeptResolves(u + [name] + [".."], u, s[k + 2..]);
    assert u + [name] + [".."] + s[k + 2..] == s;
  }

  lemma RootDotDotResolves(s: seq<string>)
    requires s != [] && s[0] == ".."
    ensures Resolve(Kept([], s[1..])) == Resolve(s)
  {
    hide Kept;
    assert [".."][..0] == [];
    KeptResolves([".."], [], s[1..]);
    assert [".."] + s[1..] == s;
  }

  lemma RewritingEndsAlike(s: seq<string>, t: seq<string>, k: nat)
    requires RewritesAt(s, t, k)
    ensures EndsInSeparator(t) == EndsInSeparator(s)
  {}

  /** A rewriting changes neither what the path resolves to nor whether it ends in a separator. */
  lemma RewritingKeeps(s: seq<string>, t: seq<string>, k: nat)
    requires RewritesAt(s, t, k)
    ensures Resolve(t) == Resolve(s) && EndsInSeparator(t) == EndsInSeparator(s)
  {
    hide Resolve, Kept, EndsInSeparator;
    RewritingEndsAlike(s, t, k);
    if k + 1 < |s| && s[k] == "" && t == s[..k] + s[k + 1..] {
      SeparatorResolves(s, k);
    } else if k < |s| && s[k] == "." && t == Kept(s[..k], s[k + 1..]) {
      DotResolves(s, k);
    } else if k + 1 < |s| && Plain(s[k]) && s[k + 1] == ".." && t == Kept(s[..k], s[k + 2..]) {
      NameAndBackResolve(s, k);
    } else {
      RootDotDotResolves(s);
    }
  }

  // ---------------------------------------------------------------- irreducible paths

  /** The names of an irreducible path, and whether a separator follows them. */
  function NamesOf(s: seq<string>): seq<string> {
    if s != [] && s[|s| - 1] == "" then s[..|s| - 1] else s
  }

  lemma {:induction false} PlainNamesResolve(s: seq<string>)
    requires forall i | 0 <= i < |s| :: Plain(s[i])
    ensures Resolve(s) == s && !EndsInSeparator(s)
  {
    if s != [] {
      PlainNamesResolve(s[..|s| - 1]);
    }
  }

  lemma IrreducibleResolves(s: seq<string>)
    requires Irreducible(s)
    ensures Resolve(s) == NamesOf(s) && (EndsInSeparator(s) <==> s != [] && s[|s| - 1] == "")
  {
    hide Resolve, Plain;
    if s != [] && s[|s| - 1] == "" {
      var names := s[..|s| - 1];
      PlainNamesResolve(names);
      ResolveOne(names, "");
      assert names + [""] == s;
    } else {
      PlainNamesResolve(s);
    }
  }

  /** Rewriting stops exactly at the irreducible paths, and each rewriting makes progress. */
  lemma RewritesUnlessIrreducible(s: seq<string>)
    ensures Irreducible(s) <==> forall t :: !Rewrites(s, t)
  {
    if !Irreducible(s) {
      var t := FirstRewriting(s);
    }
  }

  lemma FirstRewriting(s: seq<string>) returns (t: seq<string>)
    requires !Irreducible(s)
    ensures Rewrites(s, t)
  {
    var i: nat :| i < |s| && !(Plain(s[i]) || (i == |s| - 1 && s[i] == ""));
    var k := FirstOdd(s, i);
    if s[k] == "" {
      t := s[..k] + s[k + 1..];
      assert RewritesAt(s, t, k);
    } else if s[k] == "." {
      t := Kept(s[..k], s[k + 1..]);
      assert RewritesAt(s, t, k);
    } else if k == 0 {
      t := Kept([], s[1..]);
      assert RewritesAt(s, t, 0);
    } else {
      t := Kept(s[..k - 1], s[k - 1 + 2..]);
      assert RewritesAt(s, t, k - 1);
    }
  }

  lemma {:induction false} FirstOdd(s: seq<string>, i: nat) returns (k: nat)
    requires i < |s| && !(Plain(s[i]) || (i == |s| - 1 && s[i] == ""))
    ensures k <= i && !(Plain(s[k]) || (k == |s| - 1 && s[k] == "")) && forall j | 0 <= j < k :: Plain(s[j])
    decreases i
  {
    if j: nat :| j < i && !Plain(s[j]) {
      k := FirstOdd(s, j);
    } else {
      k := i;
    }
  }

  /** Rewriting never goes on for ever: it removes a name, or replaces a last dot by a separator. */
  function Weight(s: seq<string>): nat {
    2 * |s| + if s != [] && s[|s| - 1] != "" then 1 else 0
  }

  lemma RewritingShrinks(s: seq<string>, t: seq<string>, k: nat)
    requires RewritesAt(s, t, k)
    ensures Weight(t) < Weight(s)
  {}

  // ---------------------------------------------------------------- the normal form

  /** A run of rewritings. */
  predicate Rewriting(chain: seq<seq<string>>) {
    chain != [] && forall i | 0 < i < |chain| :: Rewrites(chain[i - 1], chain[i])
  }

  lemma {:induction false} RewritingsKeep(chain: seq<seq<string>>)
    requires Rewriting(chain)
    ensures Resolve(chain[|chain| - 1]) == Resolve(chain[0])
    ensures EndsInSeparator(chain[|chain| - 1]) == EndsInSeparator(chain[0])
    decreases |chain|
  {
    hide Rewrites, Resolve, EndsInSeparator;
    var last := |chain| - 1;
    if last > 0 {
      var shorter := chain[..last];
      forall i | 0 < i < |shorter|
        ensures Rewrites(shorter[i - 1], shorter[i])
      {
        assert Rewrites(chain[i - 1], chain[i]);
      }
      RewritingsKeep(shorter);
      assert Rewrites(chain[last - 1], chain[last]);
      RewritesKeeps(chain[last - 1], chain[last]);
    }
  }

  lemma RewritesKeeps(s: seq<string>, t: seq<string>)
    requires Rewrites(s, t)
    ensures Resolve(t) == Resolve(s) && EndsInSeparator(t) == EndsInSeparator(s)
  {
    hide Resolve, EndsInSeparator, RewritesAt;
    var k :| 0 <= k < |s| && RewritesAt(s, t, k);
    RewritingKeeps(s, t, k);
  }

  /** However an absolute path is rewritten until nothing more can be, that is its coordinate; the root has none. */
  lemma NormalFormIsCoordinate(chain: seq<seq<string>>)
    requires Rewriting(chain) && Irreducible(chain[|chain| - 1])
    ensures var end := chain[|chain| - 1];
            NormalizeAbsolute(RawPath(true, chain[0])) ==
              if NamesOf(end) == [] then None else Some(Coordinate(NamesOf(end), end[|end| - 1] == ""))
  {
    hide Rewrites, Irreducible, Resolve, EndsInSeparator;
    RewritingsKeep(chain);
    IrreducibleResolves(chain[|chain| - 1]);
  }

  /** And every path can be rewritten to such an end. */
  lemma {:induction false} NormalFormExists(s: seq<string>) returns (chain: seq<seq<string>>)
    ensures Rewriting(chain) && chain[0] == s && Irreducible(chain[|chain| - 1])
    decreases Weight(s)
  {
    hide Rewrites, Irreducible, Weight;
    if Irreducible(s) {
      chain := [s];
    } else {
      var t := FirstRewriting(s);
      RewritesShrinks(s, t);
      var rest := NormalFormExists(t);
      chain := [s] + rest;
      forall i | 0 < i < |chain|
        ensures Rewrites(chain[i - 1], chain[i])
      {
        assert i > 1 ==> Rewrites(rest[i - 2], rest[i - 1]);
      }
    }
  }

  lemma RewritesShrinks(s: seq<string>, t: seq<string>)
    requires Rewrites(s, t)
    ensures Weight(t) < Weight(s)
  {
    var k :| 0 <= k < |s| && RewritesAt(s, t, k);
    RewritingShrinks(s, t, k);
  }
}
