/**
  Admission of a construction session: its filesystem coordinates, its credentials and its
  package-input resources.
 */
module Construction {
  import opened Wrappers
  import opened Sequences

  // ---------------------------------------------------------------- paths

  /** A path as it is given: the names between its separators, after the root if it is absolute. */
  datatype RawPath = RawPath(absolute: bool, names: seq<string>)

  /** A normalized absolute path.  A trailing separator is one more, empty, component. */
  datatype Coordinate = Coordinate(names: seq<string>, trailing: bool)

  function Resolve(names: seq<string>): (resolved: seq<string>)
    ensures forall i | 0 <= i < |resolved| :: resolved[i] != ""
  {
    if names == [] then []
    else
      var front, last := Resolve(names[..|names| - 1]), names[|names| - 1];
      if last == "" || last == "." then front
      else if last == ".." then (if front == [] then [] else front[..|front| - 1])
      else front + [last]
  }

  /** Lexical normalization keeps a separator after a final empty, "." or ".." component. */
  predicate EndsInSeparator(names: seq<string>) {
    names != [] && names[|names| - 1] in ["", ".", ".."]
  }

  function NormalizeAbsolute(path: RawPath): Option<Coordinate> {
    if !path.absolute || Resolve(path.names) == [] then None
    else Some(Coordinate(Resolve(path.names), EndsInSeparator(path.names)))
  }

  function Components(c: Coordinate): seq<string> {
    c.names + if c.trailing then [""] else []
  }

  predicate ContainsOrEquals(parent: Coordinate, child: Coordinate) {
    Components(parent) <= Components(child)
  }

  predicate Overlaps(a: Coordinate, b: Coordinate) {
    ContainsOrEquals(a, b) || ContainsOrEquals(b, a)
  }

  method CompareComponents(parent: Coordinate, child: Coordinate) returns (contains: bool)
    ensures contains == ContainsOrEquals(parent, child)
  {
    var left, right := Components(parent), Components(child);
    for i := 0 to |left|
      invariant i <= |right| && left[..i] == right[..i]
    {
      if i == |right| || left[i] != right[i] {
        return false;
      }
    }
    return true;
  }

  method PathsOverlap(a: Coordinate, b: Coordinate) returns (overlap: bool)
    ensures overlap == Overlaps(a, b)
  {
    overlap := CompareComponents(a, b);
    if !overlap {
      overlap := CompareComponents(b, a);
    }
  }

  // ---------------------------------------------------------------- what lies under a coordinate

  predicate Normal(c: Coordinate) {
    c.names != [] && forall i | 0 <= i < |c.names| :: c.names[i] != ""
  }

  predicate LiesUnder(path: seq<string>, c: Coordinate) {
    c.names <= path
  }

  ghost predicate Share(a: Coordinate, b: Coordinate) {
    exists path: seq<string> :: LiesUnder(path, a) && LiesUnder(path, b)
  }

  lemma ShareIsPrefix(a: Coordinate, b: Coordinate)
    ensures Share(a, b) <==> a.names <= b.names || b.names <= a.names
  {
    if a.names <= b.names {
      assert LiesUnder(b.names, a) && LiesUnder(b.names, b);
    }
    if b.names <= a.names {
      assert LiesUnder(a.names, a) && LiesUnder(a.names, b);
    }
  }

  /** A coordinate contains another unless a trailing separator hides that it does. */
  lemma ContainsExactly(parent: Coordinate, child: Coordinate)
    requires Normal(parent) && Normal(child)
    ensures ContainsOrEquals(parent, child)
            <==> parent.names <= child.names && (parent.trailing ==> parent.names == child.names && child.trailing)
  {
    var left, right := Components(parent), Components(child);
    if left <= right {
      assert right[..|left|] == left;
      if parent.trailing {
        assert right[|left| - 1] == "";
        assert |left| - 1 == |child.names|;
        assert child.names == parent.names by {
          assert right[..|child.names|] == child.names && left[..|parent.names|] == parent.names;
        }
      } else {
        assert parent.names[|parent.names| - 1] == right[|parent.names| - 1];
        assert forall i | 0 <= i < |parent.names| :: right[i] == parent.names[i];
      }
    }
  }

  /** Two coordinates that pass the check still share paths exactly when the shorter one ends in a separator. */
  lemma DisjointShareExactly(a: Coordinate, b: Coordinate)
    requires Normal(a) && Normal(b) && !Overlaps(a, b)
    ensures Share(a, b) <==> (a.trailing && a.names < b.names) || (b.trailing && b.names < a.names)
  {
    ShareIsPrefix(a, b);
    ContainsExactly(a, b);
    ContainsExactly(b, a);
  }

  /** The directory "/a/" and the path "/a/b" below it pass the check. */
  lemma TrailingSeparatorHidesOverlap()
    ensures var a, b := RawPath(true, ["a", ""]), RawPath(true, ["a", "b"]);
            && NormalizeAbsolute(a) == Some(Coordinate(["a"], true))
            && NormalizeAbsolute(b) == Some(Coordinate(["a", "b"], false))
            && !Overlaps(NormalizeAbsolute(a).value, NormalizeAbsolute(b).value)
            && Share(NormalizeAbsolute(a).value, NormalizeAbsolute(b).value)
  {
    assert ["a", ""][..1] == ["a"] && ["a", "b"][..1] == ["a"] && ["a"][..0] == [];
    assert Resolve(["a"]) == ["a"] && Resolve(["a", ""]) == ["a"] && Resolve(["a", "b"]) == ["a", "b"];
    var a, b := Coordinate(["a"], true), Coordinate(["a", "b"], false);
    assert Components(a)[1] == "" && Components(b)[1] == "b";
    ContainsExactly(a, b);
    ContainsExactly(b, a);
    ShareIsPrefix(a, b);
  }

  // ---------------------------------------------------------------- the coordinates of a session

  datatype Paths<T> = Paths(localSource: T, contentStore: T, rootView: T, session: T, output: T, artifact: T)

  datatype Admitted = Admitted(paths: Paths<Coordinate>, inputs: seq<Coordinate>)

  function AllPaths<T>(p: Paths<T>): seq<T> {
    [p.localSource, p.contentStore, p.rootView, p.session, p.output, p.artifact]
  }

  predicate PairwiseDisjoint(all: seq<Coordinate>) {
    forall i, j | 0 <= i < j < |all| :: !Overlaps(all[i], all[j])
  }

  predicate AllNormalize(paths: seq<RawPath>) {
    forall i | 0 <= i < |paths| :: NormalizeAbsolute(paths[i]).Some?
  }

  function Normalized(paths: seq<RawPath>): (r: seq<Coordinate>)
    requires AllNormalize(paths)
    ensures |r| == |paths| && forall i | 0 <= i < |r| :: NormalizeAbsolute(paths[i]) == Some(r[i])
  {
    if paths == [] then [] else Normalized(paths[..|paths| - 1]) + [NormalizeAbsolute(paths[|paths| - 1]).value]
  }

  /** The compression is the admitted one, and the source request seals: both are decided elsewhere. */
  predicate Acceptable(paths: Paths<RawPath>, inputs: seq<RawPath>, uncompressed: bool, sealable: bool) {
    && uncompressed && sealable && AllNormalize(AllPaths(paths)) && AllNormalize(inputs)
    && !EndsInSeparator(paths.artifact.names)
    && PairwiseDisjoint(Normalized(AllPaths(paths)) + Normalized(inputs))
  }

  method OverlapsAny(c: Coordinate, others: seq<Coordinate>) returns (overlap: bool)
    ensures overlap <==> exists i | 0 <= i < |others| :: Overlaps(c, others[i])
  {
    for i := 0 to |others|
      invariant forall k | 0 <= k < i :: !Overlaps(c, others[k])
    {
      var overlaps := PathsOverlap(c, others[i]);
      if overlaps {
        return true;
      }
    }
    return false;
  }

  /** The fifteen pairs of the fixed coordinates. */
  method FixedAreDisjoint(p: Paths<Coordinate>) returns (disjoint: bool)
    ensures disjoint <==> PairwiseDisjoint(AllPaths(p))
  {
    hide Overlaps;
    var all := AllPaths(p);
    OverlapIsSymmetric();
    var view := OverlapsAny(p.rootView, [p.session, p.output]);
    var session := OverlapsAny(p.session, [p.output]);
    var local := OverlapsAny(p.localSource, [p.contentStore]);
    if view || session || local {
      assert [p.session, p.output][0] == all[3] && [p.session, p.output][1] == all[4] && all[0] == p.localSource
             && all[1] == p.contentStore && all[2] == p.rootView;
      return false;
    }
    assert !Overlaps(all[2], [p.session, p.output][0]) && !Overlaps(all[2], [p.session, p.output][1]);
    assert !Overlaps(all[3], [p.output][0]) && !Overlaps(all[0], [p.contentStore][0]);
    var roots := [p.rootView, p.session, p.output];
    local := OverlapsAny(p.localSource, roots);
    var store := OverlapsAny(p.contentStore, roots);
    if local || store {
      var i, c := if local then 0 else 1, if local then p.localSource else p.contentStore;
      var k :| 0 <= k < 3 && Overlaps(c, roots[k]);
      assert roots[k] == all[k + 2] && all[i] == c;
      NotDisjoint(all, i, k + 2);
      return false;
    }
    assert forall i | 0 <= i < 3 :: !Overlaps(all[0], roots[i]) && !Overlaps(all[1], roots[i]);
    var others := [p.rootView, p.session, p.output, p.localSource, p.contentStore];
    var artifact := OverlapsAny(p.artifact, others);
    if artifact {
      var k :| 0 <= k < 5 && Overlaps(p.artifact, others[k]);
      assert others[k] == all[[2, 3, 4, 0, 1][k]];
      NotDisjoint(all, [2, 3, 4, 0, 1][k], 5);
      return false;
    }
    assert forall i | 0 <= i < 5 :: !Overlaps(all[5], others[i]);
    assert roots[0] == all[2] && roots[1] == all[3] && roots[2] == all[4];
    assert others[0] == all[2] && others[1] == all[3] && others[2] == all[4] && others[3] == all[0]
        && others[4] == all[1];
    return true;
  }

  lemma NotDisjoint(all: seq<Coordinate>, i: nat, j: nat)
    requires i < j < |all| && Overlaps(all[j], all[i])
    ensures !PairwiseDisjoint(all)
  {
    OverlapIsSymmetric();
    hide Overlaps;
  }

  lemma OverlapIsSymmetric()
    ensures forall a: Coordinate, b: Coordinate :: Overlaps(a, b) == Overlaps(b, a)
  {}

  lemma DisjointExtends(all: seq<Coordinate>, c: Coordinate)
    ensures PairwiseDisjoint(all + [c]) <==> PairwiseDisjoint(all) && forall i | 0 <= i < |all| :: !Overlaps(c, all[i])
  {
    hide Overlaps;
    OverlapIsSymmetric();
    var longer := all + [c];
    if PairwiseDisjoint(longer) {
      forall i, j | 0 <= i < j < |all|
        ensures !Overlaps(all[i], all[j])
      {
        assert longer[i] == all[i] && longer[j] == all[j];
      }
      forall i | 0 <= i < |all|
        ensures !Overlaps(c, all[i])
      {
        assert longer[i] == all[i] && longer[|all|] == c;
      }
    }
  }

  lemma {:induction false} DisjointPrefix(all: seq<Coordinate>, n: nat)
    requires n <= |all| && PairwiseDisjoint(all)
    ensures PairwiseDisjoint(all[..n])
  {
    hide Overlaps;
  }

  lemma OneMoreNormalized(inputs: seq<RawPath>, i: nat)
    requires i < |inputs| && AllNormalize(inputs[..i])
    ensures AllNormalize(inputs[..i + 1]) <==> NormalizeAbsolute(inputs[i]).Some?
    ensures NormalizeAbsolute(inputs[i]).Some? ==>
              Normalized(inputs[..i + 1]) == Normalized(inputs[..i]) + [NormalizeAbsolute(inputs[i]).value]
  {
    hide NormalizeAbsolute;
    assert inputs[..i + 1] == inputs[..i] + [inputs[i]] && inputs[..i + 1][..i] == inputs[..i];
    assert inputs[..i + 1][i] == inputs[i];
    assert forall k | 0 <= k < i :: inputs[..i + 1][k] == inputs[..i][k];
  }

  lemma UnnormalizedStays(inputs: seq<RawPath>, i: nat)
    requires i < |inputs| && NormalizeAbsolute(inputs[i]).None?
    ensures !AllNormalize(inputs)
  {
    hide NormalizeAbsolute;
  }

  /** One more coordinate against the fixed ones and the earlier inputs. */
  lemma OneMoreDisjoint(fixed: seq<Coordinate>, admitted: seq<Coordinate>, c: Coordinate)
    requires PairwiseDisjoint(fixed + admitted)
    ensures PairwiseDisjoint(fixed + (admitted + [c])) <==> forall i | 0 <= i < |fixed + admitted| ::
              !Overlaps(c, (fixed + admitted)[i])
  {
    hide Overlaps, PairwiseDisjoint;
    assert fixed + (admitted + [c]) == (fixed + admitted) + [c];
    DisjointExtends(fixed + admitted, c);
  }

  /** Each input resource against the fixed coordinates and the earlier ones. */
  method NormalizeInputs(fixed: seq<Coordinate>, inputs: seq<RawPath>) returns (r: Option<seq<Coordinate>>)
    requires PairwiseDisjoint(fixed)
    ensures r.Some? <==> AllNormalize(inputs) && PairwiseDisjoint(fixed + Normalized(inputs))
    ensures r.Some? ==> r == Some(Normalized(inputs))
  {
    var admitted: seq<Coordinate> := [];
    assert fixed + [] == fixed && AllNormalize(inputs[..0]) && Normalized(inputs[..0]) == [];
    hide Overlaps, NormalizeAbsolute, PairwiseDisjoint, AllNormalize, Normalized;
    for i := 0 to |inputs|
      invariant AllNormalize(inputs[..i]) && admitted == Normalized(inputs[..i]) && PairwiseDisjoint(fixed + admitted)
    {
      var c := NormalizeAbsolute(inputs[i]);
      OneMoreNormalized(inputs, i);
      if c.None? {
        UnnormalizedStays(inputs, i);
        return None;
      }
      OneMoreDisjoint(fixed, admitted, c.value);
      var overlap := OverlapsAny(c.value, fixed + admitted);
      if overlap {
        OverlapStays(fixed, inputs, i + 1);
        return None;
      }
      admitted := admitted + [c.value];
    }
    assert inputs[..|inputs|] == inputs;
    return Some(admitted);
  }

  lemma PrefixStaysDisjoint(fixed: seq<Coordinate>, inputs: seq<RawPath>, n: nat)
    requires n <= |inputs| && AllNormalize(inputs) && PairwiseDisjoint(fixed + Normalized(inputs))
    ensures AllNormalize(inputs[..n]) && PairwiseDisjoint(fixed + Normalized(inputs[..n]))
  {
    hide Overlaps, NormalizeAbsolute;
    var all := fixed + Normalized(inputs);
    DisjointPrefix(all, |fixed| + n);
    assert Normalized(inputs)[..n] == Normalized(inputs[..n]);
    assert all[..|fixed| + n] == fixed + Normalized(inputs[..n]);
  }

  lemma OverlapStays(fixed: seq<Coordinate>, inputs: seq<RawPath>, n: nat)
    requires n <= |inputs| && AllNormalize(inputs[..n]) && !PairwiseDisjoint(fixed + Normalized(inputs[..n]))
    ensures !(AllNormalize(inputs) && PairwiseDisjoint(fixed + Normalized(inputs)))
  {
    hide Overlaps, NormalizeAbsolute;
    if AllNormalize(inputs) && PairwiseDisjoint(fixed + Normalized(inputs)) {
      PrefixStaysDisjoint(fixed, inputs, n);
    }
  }

  method NormalizePaths(paths: Paths<RawPath>) returns (r: Option<Paths<Coordinate>>)
    ensures r.Some? <==> AllNormalize(AllPaths(paths))
    ensures r.Some? ==> AllPaths(r.value) == Normalized(AllPaths(paths))
  {
    hide NormalizeAbsolute;
    var all := AllPaths(paths);
    var normalized: seq<Coordinate> := [];
    for i := 0 to |all|
      invariant |normalized| == i && forall k | 0 <= k < i :: NormalizeAbsolute(all[k]) == Some(normalized[k])
    {
      var c := NormalizeAbsolute(all[i]);
      if c.None? {
        return None;
      }
      normalized := normalized + [c.value];
    }
    var p := Paths(normalized[0], normalized[1], normalized[2], normalized[3], normalized[4], normalized[5]);
    assert AllPaths(p) == normalized;
    return Some(p);
  }

  method NormalizeSessionCoordinates(paths: Paths<RawPath>, inputs: seq<RawPath>, uncompressed: bool, sealable: bool)
    returns (r: Option<Admitted>)
    ensures r.Some? <==> Acceptable(paths, inputs, uncompressed, sealable)
    ensures r.Some? ==> AllPaths(r.value.paths) == Normalized(AllPaths(paths)) && r.value.inputs == Normalized(inputs)
  {
    hide Overlaps, NormalizeAbsolute;
    var normalized := NormalizePaths(paths);
    if normalized.None? {
      return None;
    }
    var p := normalized.value;
    ArtifactIsSixth(paths, p);
    if p.artifact.trailing || !uncompressed || !sealable {
      return None;
    }
    var disjoint := FixedAreDisjoint(p);
    if !disjoint {
      FixedOverlapStays(AllPaths(p), inputs);
      return None;
    }
    var admitted := NormalizeInputs(AllPaths(p), inputs);
    if admitted.None? {
      return None;
    }
    return Some(Admitted(p, admitted.value));
  }

  lemma ArtifactIsSixth(paths: Paths<RawPath>, p: Paths<Coordinate>)
    requires AllNormalize(AllPaths(paths)) && AllPaths(p) == Normalized(AllPaths(paths))
    ensures p.artifact.trailing == EndsInSeparator(paths.artifact.names)
  {
    assert AllPaths(p)[5] == p.artifact && AllPaths(paths)[5] == paths.artifact;
    assert NormalizeAbsolute(AllPaths(paths)[5]) == Some(AllPaths(p)[5]);
  }

  lemma FixedOverlapStays(fixed: seq<Coordinate>, inputs: seq<RawPath>)
    requires !PairwiseDisjoint(fixed)
    ensures !(AllNormalize(inputs) && PairwiseDisjoint(fixed + Normalized(inputs)))
  {
    hide Overlaps, NormalizeAbsolute;
    assert AllNormalize(inputs[..0]) && Normalized(inputs[..0]) == [] && fixed + [] == fixed;
    OverlapStays(fixed, inputs, 0);
  }

  function SessionCoordinates(paths: Paths<RawPath>, inputs: seq<RawPath>): seq<Coordinate>
    requires AllNormalize(AllPaths(paths)) && AllNormalize(inputs)
  {
    Normalized(AllPaths(paths)) + Normalized(inputs)
  }

  lemma NormalizedIsNormal(path: RawPath)
    ensures NormalizeAbsolute(path).Some? ==> Normal(NormalizeAbsolute(path).value)
  {}

  /** Two admitted coordinates share a filesystem path exactly when one that ends in a separator is above the other. */
  lemma AdmittedShareExactly(paths: Paths<RawPath>, inputs: seq<RawPath>, i: nat, j: nat)
    requires Acceptable(paths, inputs, true, true) && i < j < |SessionCoordinates(paths, inputs)|
    ensures var a, b := SessionCoordinates(paths, inputs)[i], SessionCoordinates(paths, inputs)[j];
            Share(a, b) <==> (a.trailing && a.names < b.names) || (b.trailing && b.names < a.names)
  {
    hide Overlaps, NormalizeAbsolute, Share;
    var raw, all := AllPaths(paths) + inputs, SessionCoordinates(paths, inputs);
    forall k | 0 <= k < |all|
      ensures Normal(all[k])
    {
      NormalizedIsNormal(raw[k]);
    }
    DisjointShareExactly(all[i], all[j]);
  }

  // ---------------------------------------------------------------- credentials

  // The largest native identifier, which is not one itself.
  const IDENTIFIER_LIMIT: nat := 0xFFFF_FFFF

  function Insert(sorted: seq<nat>, n: nat): (r: seq<nat>)
    ensures multiset(r) == multiset(sorted) + multiset{n}
  {
    if sorted == [] || n <= sorted[0] then [n] + sorted
    else
      assert sorted == [sorted[0]] + sorted[1..];
      [sorted[0]] + Insert(sorted[1..], n)
  }

  function Sort(s: seq<nat>): (r: seq<nat>)
    ensures multiset(r) == multiset(s)
  {
    if s == [] then []
    else
      assert s == [s[0]] + s[1..];
      Insert(Sort(s[1..]), s[0])
  }

  predicate Ascending(s: seq<nat>) {
    forall i, j | 0 <= i < j < |s| :: s[i] <= s[j]
  }

  lemma {:induction false} InsertAscends(sorted: seq<nat>, n: nat)
    requires Ascending(sorted)
    ensures Ascending(Insert(sorted, n))
    decreases |sorted|
  {
    if sorted != [] && n > sorted[0] {
      InsertAscends(sorted[1..], n);
      var rest := Insert(sorted[1..], n);
      forall i | 0 <= i < |rest|
        ensures sorted[0] <= rest[i]
      {
        assert rest[i] in multiset(rest);
        assert rest[i] in multiset(sorted[1..]) || rest[i] == n;
      }
    }
  }

  lemma {:induction false} SortAscends(s: seq<nat>)
    ensures Ascending(Sort(s))
    decreases |s|
  {
    if s != [] {
      SortAscends(s[1..]);
      InsertAscends(Sort(s[1..]), s[0]);
    }
  }

  /** In a sorted sequence every repetition is an adjacent one. */
  lemma AdjacentRepeats(s: seq<nat>)
    requires Ascending(s)
    ensures Distinct(s) <==> forall i | 0 < i < |s| :: s[i - 1] != s[i]
  {
    if forall i | 0 < i < |s| :: s[i - 1] != s[i] {
      forall i, j | 0 <= i < j < |s|
        ensures s[i] != s[j]
      {
        assert s[i] <= s[j - 1] && s[j - 1] != s[j] && s[j - 1] <= s[j];
      }
    }
  }

  predicate CredentialsAcceptable(user: nat, group: nat, groups: seq<nat>) {
    && user < IDENTIFIER_LIMIT && group < IDENTIFIER_LIMIT
    && (forall i | 0 <= i < |groups| :: groups[i] < IDENTIFIER_LIMIT)
    && Distinct(groups) && group !in groups
  }

  method NormalizeGroups(user: nat, group: nat, groups: seq<nat>) returns (r: Option<seq<nat>>)
    ensures r.Some? <==> CredentialsAcceptable(user, group, groups)
    ensures r.Some? ==> Ascending(r.value) && multiset(r.value) == multiset(groups)
  {
    if user >= IDENTIFIER_LIMIT || group >= IDENTIFIER_LIMIT
        || exists i | 0 <= i < |groups| :: groups[i] >= IDENTIFIER_LIMIT {
      return None;
    }
    var sorted := Sort(groups);
    SortedGroups(groups);
    var repeats := HasAdjacentRepeat(sorted);
    if repeats || group in sorted {
      return None;
    }
    return Some(sorted);
  }

  method HasAdjacentRepeat(s: seq<nat>) returns (repeats: bool)
    ensures repeats <==> exists i | 0 < i < |s| :: s[i - 1] == s[i]
  {
    for i := 0 to |s|
      invariant forall k | 0 < k < i :: s[k - 1] != s[k]
    {
      if i > 0 && s[i - 1] == s[i] {
        return true;
      }
    }
    return false;
  }

  lemma SortedGroups(groups: seq<nat>)
    ensures Ascending(Sort(groups)) && multiset(Sort(groups)) == multiset(groups)
    ensures Distinct(groups) <==> forall i | 0 < i < |Sort(groups)| :: Sort(groups)[i - 1] != Sort(groups)[i]
    ensures forall n :: n in Sort(groups) <==> n in groups
  {
    SortAscends(groups);
    AdjacentRepeats(Sort(groups));
    CountsAtMostOne(Sort(groups));
    CountsAtMostOne(groups);
    PermutationHasSameElements(Sort(groups), groups);
    assert forall n :: n in Sort(groups) <==> n in Elements(Sort(groups));
    assert forall n :: n in groups <==> n in Elements(groups);
  }

  // ---------------------------------------------------------------- package inputs

  /** Where the one resource for an input is supplied, or None when there is not exactly one. */
  method MatchOne(supplied: seq<string>, input: string) returns (index: Option<nat>)
    ensures match index
            case Some(k) =>
              k < |supplied| && supplied[k] == input && forall i | 0 <= i < |supplied| && i != k :: supplied[i] != input
            case None =>
              input !in supplied
              || exists i, j | 0 <= i < j < |supplied| :: supplied[i] == supplied[j] == input
  {
    index := None;
    for i := 0 to |supplied|
      invariant match index
                case Some(k) => k < i && supplied[k] == input && forall n | 0 <= n < i && n != k :: supplied[n] != input
                case None => input !in supplied[..i]
    {
      if supplied[i] == input {
        if index.Some? {
          return None;
        }
        index := Some(i);
      }
    }
  }

  /** Every expected input is supplied once, and nothing else is: in particular the expected inputs are distinct. */
  method ValidateInputResources(expected: seq<string>, supplied: seq<string>) returns (ok: bool)
    ensures ok <==> Distinct(expected) && multiset(expected) == multiset(supplied)
  {
    if |expected| != |supplied| {
      assert |multiset(expected)| == |expected| && |multiset(supplied)| == |supplied|;
      return false;
    }
    var consumed := seq(|supplied|, _ => false);
    for i := 0 to |expected|
      invariant |consumed| == |supplied|
      invariant forall k | 0 <= k < |supplied| :: consumed[k] <==> supplied[k] in expected[..i]
      invariant forall k, l | 0 <= k < l < |supplied| && supplied[k] == supplied[l] :: supplied[k] !in expected[..i]
      invariant forall n | 0 <= n < i :: expected[n] in supplied
    {
      var found := MatchOne(supplied, expected[i]);
      if found.None? {
        UnmatchedIsRefused(expected, supplied, i);
        return false;
      }
      consumed := consumed[found.value := true];
      assert expected[..i + 1] == expected[..i] + [expected[i]];
    }
    assert expected[..|expected|] == expected;
    if exists k | 0 <= k < |consumed| :: !consumed[k] {
      var k :| 0 <= k < |consumed| && !consumed[k];
      LeftOverIsRefused(expected, supplied, k);
      return false;
    }
    ConsumedIsBijection(expected, supplied);
    return true;
  }

  lemma UnmatchedIsRefused(expected: seq<string>, supplied: seq<string>, n: nat)
    requires n < |expected|
    requires expected[n] !in supplied
             || exists i, j | 0 <= i < j < |supplied| :: supplied[i] == supplied[j] == expected[n]
    ensures !(Distinct(expected) && multiset(expected) == multiset(supplied))
  {
    if Distinct(expected) && multiset(expected) == multiset(supplied) {
      PermutationHasSameElements(expected, supplied);
      assert expected[n] in Elements(expected);
      CountsAtMostOne(expected);
      CountsAtMostOne(supplied);
    }
  }

  lemma LeftOverIsRefused(expected: seq<string>, supplied: seq<string>, k: nat)
    requires k < |supplied| && supplied[k] !in expected
    ensures multiset(expected) != multiset(supplied)
  {
    assert supplied[k] in multiset(supplied);
  }

  lemma ConsumedIsBijection(expected: seq<string>, supplied: seq<string>)
    requires |expected| == |supplied| && (forall k | 0 <= k < |supplied| :: supplied[k] in expected)
    requires forall k, l | 0 <= k < l < |supplied| && supplied[k] == supplied[l] :: supplied[k] !in expected
    requires forall n | 0 <= n < |expected| :: expected[n] in supplied
    ensures Distinct(expected) && multiset(expected) == multiset(supplied)
  {
    assert Distinct(supplied);
    assert Elements(expected) == Elements(supplied);
    DistinctCount(expected);
    DistinctCount(supplied);
    SameElementsPermute(supplied, expected);
  }
}
