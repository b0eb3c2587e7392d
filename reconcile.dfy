/**
 * The merge behind `updateLights`: fetched lights first, deduplicated by
 * id, then the cached lights the fetch did not mention.
 */
module Reconcile {
  import opened Lights

  function Ids(ls: seq<Light>): set<string>
  {
    set i | 0 <= i < |ls| :: ls[i].id
  }

  /** The `contains { $0.id == light.id }` test. */
  predicate HasId(ls: seq<Light>, id: string)
  {
    exists i :: 0 <= i < |ls| && ls[i].id == id
  }

  predicate DistinctIds(ls: seq<Light>)
  {
    forall i, j :: 0 <= i < j < |ls| ==> ls[i].id != ls[j].id
  }

  /** The lights whose id is not in `ids`, in their order. */
  function Exclude(ls: seq<Light>, ids: set<string>): (r: seq<Light>)
    ensures |r| <= |ls|
  {
    if ls == [] then []
    else if ls[0].id in ids then Exclude(ls[1..], ids)
    else [ls[0]] + Exclude(ls[1..], ids)
  }

  /** Reference definition of deduplication: keep each light, then drop the later ones that share its id. */
  function FirstOccurrences(ls: seq<Light>): seq<Light>
    decreases |ls|
  {
    if ls == [] then [] else [ls[0]] + FirstOccurrences(Exclude(ls[1..], {ls[0].id}))
  }

  /** One pass of the loop in `updateLights`: append each light whose id is not yet in `acc`. */
  function AppendNew(acc: seq<Light>, ls: seq<Light>): (r: seq<Light>)
    ensures acc <= r
    ensures |r| <= |acc| + |ls|
    ensures forall x :: x in r ==> x in acc || x in ls
    decreases |ls|
  {
    if ls == [] then acc
    else
      var acc' := if HasId(acc, ls[0].id) then acc else acc + [ls[0]];
      var r := AppendNew(acc', ls[1..]);
      assert forall x :: x in ls[1..] ==> x in ls;
      r
  }

  /**
   * The list `updateLights` builds: two passes, fetched then cached. It starts
   * with the first fetched light and holds only fetched or cached lights.
   */
  function Merge(cached: seq<Light>, fetched: seq<Light>): (r: seq<Light>)
    ensures |r| <= |fetched| + |cached|
    ensures forall x :: x in r ==> x in fetched || x in cached
    ensures fetched != [] ==> |r| > 0 && r[0] == fetched[0]
  {
    var first := AppendNew([], fetched);
    assert fetched != [] ==> first == AppendNew([fetched[0]], fetched[1..]) by {
      if fetched != [] {
        assert !HasId([], fetched[0].id);
        assert [] + [fetched[0]] == [fetched[0]];
      }
    }
    AppendNew(first, cached)
  }

  // ---- Facts about the building blocks ----

  lemma HasIdIsMembership(ls: seq<Light>, id: string)
    ensures HasId(ls, id) <==> id in Ids(ls)
  {
  }

  lemma IdsConcat(a: seq<Light>, b: seq<Light>)
    ensures Ids(a + b) == Ids(a) + Ids(b)
  {
    var ab := a + b;
    forall id | id in Ids(ab) ensures id in Ids(a) + Ids(b) {
      var i :| 0 <= i < |ab| && ab[i].id == id;
      if i >= |a| { assert b[i - |a|] == ab[i]; }
    }
    forall id | id in Ids(a) + Ids(b) ensures id in Ids(ab) {
      if id in Ids(a) {
        var i :| 0 <= i < |a| && a[i].id == id;
        assert ab[i] == a[i];
      } else {
        var i :| 0 <= i < |b| && b[i].id == id;
        assert ab[|a| + i] == b[i];
      }
    }
  }

  lemma IdsCons(l: Light, ls: seq<Light>)
    ensures Ids([l] + ls) == {l.id} + Ids(ls)
  {
    IdsConcat([l], ls);
    assert Ids([l]) == {l.id} by { assert [l][0] == l; }
  }

  lemma {:induction false} ExcludeIds(ls: seq<Light>, ids: set<string>)
    ensures Ids(Exclude(ls, ids)) == Ids(ls) - ids
  {
    if ls != [] {
      ExcludeIds(ls[1..], ids);
      IdsCons(ls[0], ls[1..]);
      assert [ls[0]] + ls[1..] == ls;
      if ls[0].id !in ids {
        IdsCons(ls[0], Exclude(ls[1..], ids));
      }
    }
  }

  lemma {:induction false} ExcludeTwice(ls: seq<Light>, a: set<string>, b: set<string>)
    ensures Exclude(Exclude(ls, a), b) == Exclude(ls, a + b)
  {
    if ls != [] {
      ExcludeTwice(ls[1..], a, b);
      if ls[0].id !in a {
        assert ([ls[0]] + Exclude(ls[1..], a))[1..] == Exclude(ls[1..], a);
      }
    }
  }

  lemma {:induction false} ExcludeNothing(ls: seq<Light>)
    ensures Exclude(ls, {}) == ls
  {
    if ls != [] {
      ExcludeNothing(ls[1..]);
    }
  }

  lemma {:induction false} ExcludeEverything(ls: seq<Light>, ids: set<string>)
    requires Ids(ls) <= ids
    ensures Exclude(ls, ids) == []
  {
    if ls != [] {
      IdsCons(ls[0], ls[1..]);
      assert [ls[0]] + ls[1..] == ls;
      ExcludeEverything(ls[1..], ids);
    }
  }

  /** A light whose id no later light shares is not in the ids of the tail. */
  lemma HeadIdNotInTail(ls: seq<Light>)
    requires ls != [] && DistinctIds(ls)
    ensures ls[0].id !in Ids(ls[1..])
  {
    forall i | 0 <= i < |ls[1..]| ensures ls[1..][i].id != ls[0].id {
      assert ls[1..][i] == ls[i + 1];
    }
  }

  lemma {:induction false} ExcludeKeepsDistinct(ls: seq<Light>, ids: set<string>)
    requires DistinctIds(ls)
    ensures DistinctIds(Exclude(ls, ids))
  {
    if ls != [] {
      ExcludeKeepsDistinct(ls[1..], ids);
      if ls[0].id !in ids {
        ExcludeIds(ls[1..], ids);
        HeadIdNotInTail(ls);
        DistinctCons(ls[0], Exclude(ls[1..], ids));
      }
    }
  }

  lemma DistinctCons(l: Light, ls: seq<Light>)
    requires DistinctIds(ls) && l.id !in Ids(ls)
    ensures DistinctIds([l] + ls)
  {
    var r := [l] + ls;
    forall i, j | 0 <= i < j < |r| ensures r[i].id != r[j].id {
      if i == 0 {
        assert r[j] == ls[j - 1];
      } else {
        assert r[i] == ls[i - 1] && r[j] == ls[j - 1];
      }
    }
  }

  lemma DistinctConcat(a: seq<Light>, b: seq<Light>)
    requires DistinctIds(a) && DistinctIds(b) && Ids(a) !! Ids(b)
    ensures DistinctIds(a + b)
  {
    var r := a + b;
    forall i, j | 0 <= i < j < |r| ensures r[i].id != r[j].id {
      if j < |a| {
        assert r[i] == a[i] && r[j] == a[j];
      } else if i >= |a| {
        assert r[i] == b[i - |a|] && r[j] == b[j - |a|];
      } else {
        assert r[i] == a[i] && r[j] == b[j - |a|];
        assert r[i].id in Ids(a) && r[j].id in Ids(b);
      }
    }
  }

  // ---- The reference deduplication ----

  /** Deduplication leaves pairwise-distinct ids and loses none. */
  lemma {:induction false} FirstOccurrencesDistinct(ls: seq<Light>)
    ensures DistinctIds(FirstOccurrences(ls))
    ensures Ids(FirstOccurrences(ls)) == Ids(ls)
    decreases |ls|
  {
    if ls != [] {
      var rest := Exclude(ls[1..], {ls[0].id});
      FirstOccurrencesDistinct(rest);
      ExcludeIds(ls[1..], {ls[0].id});
      DistinctCons(ls[0], FirstOccurrences(rest));
      IdsCons(ls[0], FirstOccurrences(rest));
      IdsCons(ls[0], ls[1..]);
      assert [ls[0]] + ls[1..] == ls;
    }
  }

  /** A list that already has distinct ids is its own deduplication. */
  lemma {:induction false} FirstOccurrencesOfDistinct(ls: seq<Light>)
    requires DistinctIds(ls)
    ensures FirstOccurrences(ls) == ls
    decreases |ls|
  {
    if ls != [] {
      HeadIdNotInTail(ls);
      ExcludeIds(ls[1..], {ls[0].id});
      ExcludeUnmatched(ls[1..], {ls[0].id});
      assert DistinctIds(ls[1..]);
      FirstOccurrencesOfDistinct(ls[1..]);
    }
  }

  lemma {:induction false} ExcludeUnmatched(ls: seq<Light>, ids: set<string>)
    requires Ids(ls) !! ids
    ensures Exclude(ls, ids) == ls
  {
    if ls != [] {
      assert ls[0].id in Ids(ls);
      assert Ids(ls[1..]) <= Ids(ls) by {
        forall id | id in Ids(ls[1..]) ensures id in Ids(ls) {
          var i :| 0 <= i < |ls[1..]| && ls[1..][i].id == id;
          assert ls[i + 1].id == id;
        }
      }
      ExcludeUnmatched(ls[1..], ids);
    }
  }

  /** Each kept light is the first one in the input with its id. */
  lemma {:induction false} FirstOccurrencesAreFirst(ls: seq<Light>, x: Light)
    requires x in FirstOccurrences(ls)
    ensures exists i :: 0 <= i < |ls| && ls[i] == x && forall j :: 0 <= j < i ==> ls[j].id != x.id
    decreases |ls|
  {
    if x != ls[0] {
      var rest := Exclude(ls[1..], {ls[0].id});
      FirstOccurrencesAreFirst(rest, x);
      var k :| 0 <= k < |rest| && rest[k] == x && forall j :: 0 <= j < k ==> rest[j].id != x.id;
      assert x.id != ls[0].id by {
        ExcludeIds(ls[1..], {ls[0].id});
        assert x.id in Ids(rest);
      }
      ExcludeIndex(ls[1..], {ls[0].id}, k, x.id);
      var i :| 0 <= i < |ls[1..]| && ls[1..][i] == x && forall j :: 0 <= j < i ==> ls[1..][j].id != x.id;
      assert ls[i + 1] == x;
      forall j | 0 <= j < i + 1 ensures ls[j].id != x.id {
        if j > 0 { assert ls[j] == ls[1..][j - 1]; }
      }
    }
  }

  /**
   * The `k`th survivor of Exclude, with no earlier survivor carrying `id`, sits
   * in the input with no earlier light carrying `id`.
   */
  lemma {:induction false} ExcludeIndex(ls: seq<Light>, ids: set<string>, k: int, id: string)
    requires 0 <= k < |Exclude(ls, ids)|
    requires Exclude(ls, ids)[k].id == id && id !in ids
    requires forall j :: 0 <= j < k ==> Exclude(ls, ids)[j].id != id
    ensures exists i :: 0 <= i < |ls| && ls[i] == Exclude(ls, ids)[k] && forall j :: 0 <= j < i ==> ls[j].id != id
  {
    var r := Exclude(ls, ids);
    if ls[0].id in ids {
      ExcludeIndex(ls[1..], ids, k, id);
      var i :| 0 <= i < |ls[1..]| && ls[1..][i] == r[k] && forall j :: 0 <= j < i ==> ls[1..][j].id != id;
      assert ls[i + 1] == r[k];
      forall j | 0 <= j < i + 1 ensures ls[j].id != id {
        if j > 0 { assert ls[j] == ls[1..][j - 1]; }
      }
    } else if k == 0 {
      assert ls[0] == r[0];
    } else {
      var tail := Exclude(ls[1..], ids);
      assert r == [ls[0]] + tail;
      assert ls[0].id != id by { assert r[0] == ls[0]; }
      forall j | 0 <= j < k - 1 ensures tail[j].id != id { assert tail[j] == r[j + 1]; }
      ExcludeIndex(ls[1..], ids, k - 1, id);
      var i :| 0 <= i < |ls[1..]| && ls[1..][i] == tail[k - 1] && forall j :: 0 <= j < i ==> ls[1..][j].id != id;
      assert ls[i + 1] == r[k];
      forall j | 0 <= j < i + 1 ensures ls[j].id != id {
        if j > 0 { assert ls[j] == ls[1..][j - 1]; }
      }
    }
  }

  // ---- The loop against the reference ----

  /** The loop's pass equals appending the deduplicated lights whose ids are new. */
  lemma {:induction false} AppendNewIsFirstOccurrences(acc: seq<Light>, ls: seq<Light>)
    ensures AppendNew(acc, ls) == acc + FirstOccurrences(Exclude(ls, Ids(acc)))
    decreases |ls|
  {
    if ls != [] {
      HasIdIsMembership(acc, ls[0].id);
      if ls[0].id in Ids(acc) {
        AppendNewIsFirstOccurrences(acc, ls[1..]);
      } else {
        var acc' := acc + [ls[0]];
        AppendNewIsFirstOccurrences(acc', ls[1..]);
        IdsConcat(acc, [ls[0]]);
        assert Ids([ls[0]]) == {ls[0].id} by { assert [ls[0]][0] == ls[0]; }
        ExcludeTwice(ls[1..], Ids(acc), {ls[0].id});
        var e := Exclude(ls, Ids(acc));
        assert e == [ls[0]] + Exclude(ls[1..], Ids(acc));
        assert e[1..] == Exclude(ls[1..], Ids(acc));
      }
    }
  }

  /** The merge is the fetched lights deduplicated, then the unmentioned cached lights deduplicated. */
  lemma MergeParts(cached: seq<Light>, fetched: seq<Light>)
    ensures Merge(cached, fetched) ==
            FirstOccurrences(fetched) + FirstOccurrences(Exclude(cached, Ids(fetched)))
  {
    var first := AppendNew([], fetched);
    AppendNewIsFirstOccurrences([], fetched);
    assert Ids([]) == {};
    ExcludeNothing(fetched);
    assert first == FirstOccurrences(fetched);
    AppendNewIsFirstOccurrences(first, cached);
    FirstOccurrencesDistinct(fetched);
  }

  /** No two merged lights share an id, whatever duplicates either input held. */
  lemma MergeDistinct(cached: seq<Light>, fetched: seq<Light>)
    ensures DistinctIds(Merge(cached, fetched))
  {
    MergeParts(cached, fetched);
    var stale := Exclude(cached, Ids(fetched));
    FirstOccurrencesDistinct(fetched);
    FirstOccurrencesDistinct(stale);
    ExcludeIds(cached, Ids(fetched));
    DistinctConcat(FirstOccurrences(fetched), FirstOccurrences(stale));
  }

  /** Every id of either input survives, and no other. */
  lemma MergeIds(cached: seq<Light>, fetched: seq<Light>)
    ensures Ids(Merge(cached, fetched)) == Ids(fetched) + Ids(cached)
  {
    MergeParts(cached, fetched);
    var stale := Exclude(cached, Ids(fetched));
    FirstOccurrencesDistinct(fetched);
    FirstOccurrencesDistinct(stale);
    ExcludeIds(cached, Ids(fetched));
    IdsConcat(FirstOccurrences(fetched), FirstOccurrences(stale));
  }

  /** Lists equal by `==` agree on whether their ids are distinct. */
  lemma LightsEqKeepsDistinct(a: seq<Light>, b: seq<Light>)
    requires LightsEq(a, b) && DistinctIds(b)
    ensures DistinctIds(a)
  {
    forall i, j | 0 <= i < j < |a| ensures a[i].id != a[j].id {
      LightsEqSameIds(a, b, i);
      LightsEqSameIds(a, b, j);
    }
  }

  /** Re-fetching what is cached, up to `==`, merges to the fetched list, which is `==` to the cache. */
  lemma MergeIdempotent(cached: seq<Light>, fetched: seq<Light>)
    requires DistinctIds(cached)
    requires LightsEq(fetched, cached)
    ensures Merge(cached, fetched) == fetched
    ensures LightsEq(Merge(cached, fetched), cached)
  {
    assert Ids(fetched) == Ids(cached) by {
      forall id | id in Ids(cached) ensures id in Ids(fetched) {
        var i :| 0 <= i < |cached| && cached[i].id == id;
        LightsEqSameIds(fetched, cached, i);
      }
    }
    assert DistinctIds(fetched) by {
      forall i, j | 0 <= i < j < |fetched| ensures fetched[i].id != fetched[j].id {
        LightsEqSameIds(fetched, cached, i);
        LightsEqSameIds(fetched, cached, j);
      }
    }
    MergeParts(cached, fetched);
    ExcludeEverything(cached, Ids(fetched));
    FirstOccurrencesOfDistinct(fetched);
  }

  /**
   * What a cache update needs of a merge: its ids are distinct; a cache equal
   * to it already had distinct ids; and re-fetching a distinct cache, up to
   * `==`, leaves the merge equal to the cache.
   */
  lemma MergeCacheFacts(cached: seq<Light>, fetched: seq<Light>)
    ensures DistinctIds(Merge(cached, fetched))
    ensures LightsEq(cached, Merge(cached, fetched)) ==> DistinctIds(cached)
    ensures DistinctIds(cached) && LightsEq(fetched, cached) ==> LightsEq(cached, Merge(cached, fetched))
  {
    var merged := Merge(cached, fetched);
    MergeDistinct(cached, fetched);
    if LightsEq(cached, merged) {
      LightsEqKeepsDistinct(cached, merged);
    }
    if DistinctIds(cached) && LightsEq(fetched, cached) {
      MergeIdempotent(cached, fetched);
      LightsEqIsEquivalence(merged, cached, cached);
    }
  }

  /** Cache [A, B], fetch [B', C]: the merge is [B', C, A], and it differs from the cache. */
  lemma MergeExample(a: Light, b: Light, b': Light, c: Light)
    requires a.id == "1" && b.id == "2" && b'.id == "2" && c.id == "3"
    requires b'.brightness != b.brightness
    ensures Merge([a, b], [b', c]) == [b', c, a]
    ensures !LightsEq(Merge([a, b], [b', c]), [a, b])
  {
    MergeParts([a, b], [b', c]);
    assert Ids([b', c]) == {"2", "3"} by {
      assert [b', c][0] == b' && [b', c][1] == c;
    }
    assert Exclude([c], {"2"}) == [c];
    assert FirstOccurrences([c]) == [c] by {
      assert Exclude([c][1..], {c.id}) == [];
    }
    assert FirstOccurrences([b', c]) == [b', c];
    assert Exclude([a, b], {"2", "3"}) == [a] by {
      assert [a, b][1..] == [b];
      assert Exclude([b], {"2", "3"}) == [];
    }
    assert FirstOccurrences([a]) == [a] by {
      assert Exclude([a][1..], {a.id}) == [];
    }
  }
}
