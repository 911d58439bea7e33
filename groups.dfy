/** pygame sprite Groups as sequences of sprites in insertion order. The
    game's two groups are all_sprites and collision_sprites; a sprite built
    with a list of groups is appended to each of them, and kill() removes it
    from every group it is in. */
module Groups {
  import opened Sprites

  /** The group g after every sprite in `gone` has been killed. */
  function Without(g: seq<Sprite>, gone: set<Sprite>): (r: seq<Sprite>)
    ensures |r| <= |g|
  {
    if g == [] then []
    else (if g[0] in gone then [] else [g[0]]) + Without(g[1..], gone)
  }

  /** A sprite is still in the group iff it was in it and was not killed. */
  lemma {:induction false} WithoutMembers(g: seq<Sprite>, gone: set<Sprite>)
    ensures forall s :: s in Without(g, gone) ==> s in g && s !in gone
    ensures forall s :: s in g && s !in gone ==> s in Without(g, gone)
  {
    if g != [] {
      WithoutMembers(g[1..], gone);
      assert g == [g[0]] + g[1..];
    }
  }

  /** The members of all_sprites that were also added to collision_sprites:
      the Ground and the obstacles, in the same order. */
  function Solids(g: seq<Sprite>): (r: seq<Sprite>)
    ensures |r| <= |g|
  {
    if g == [] then []
    else (if g[0].kind != BG then [g[0]] else []) + Solids(g[1..])
  }

  /** The collision group holds exactly the non-background members. */
  lemma {:induction false} SolidsMembers(g: seq<Sprite>)
    ensures forall s :: s in Solids(g) ==> s in g && s.kind != BG
    ensures forall s :: s in g && s.kind != BG ==> s in Solids(g)
  {
    if g != [] {
      SolidsMembers(g[1..]);
      assert g == [g[0]] + g[1..];
    }
  }

  /** No sprite is in a group twice. */
  predicate Distinct(g: seq<Sprite>) {
    forall i, j :: 0 <= i < j < |g| ==> g[i] != g[j]
  }

  /** The layout of all_sprites (without the plane): the background, then
      the ground, then obstacles in spawn order. */
  predicate Layout(g: seq<Sprite>) {
    && |g| >= 2
    && g[0].kind == BG
    && g[1].kind == Ground
    && forall i :: 2 <= i < |g| ==> g[i].kind == Obstacle
  }

  /** The obstacles in a group. */
  function ObstaclesIn(g: seq<Sprite>): set<Sprite> {
    set s | s in g && s.kind == Obstacle
  }

  /** One more sprite adds itself to the obstacles exactly when it is one. */
  lemma ObstaclesInSnoc(g: seq<Sprite>, x: Sprite)
    ensures ObstaclesIn(g + [x]) == ObstaclesIn(g) + (if x.kind == Obstacle then {x} else {})
  {
  }

  lemma {:induction false} WithoutAppend(a: seq<Sprite>, b: seq<Sprite>, gone: set<Sprite>)
    ensures Without(a + b, gone) == Without(a, gone) + Without(b, gone)
  {
    if a != [] {
      assert (a + b)[0] == a[0];
      assert (a + b)[1..] == a[1..] + b;
      WithoutAppend(a[1..], b, gone);
      var head := if a[0] in gone then [] else [a[0]];
      assert Without(a + b, gone) == head + (Without(a[1..], gone) + Without(b, gone));
    } else {
      assert a + b == b;
    }
  }

  /** Killing two sets of sprites one after the other kills their union. */
  lemma {:induction false} WithoutWithout(g: seq<Sprite>, a: set<Sprite>, b: set<Sprite>)
    ensures Without(Without(g, a), b) == Without(g, a + b)
  {
    if g != [] {
      WithoutWithout(g[1..], a, b);
      var head := if g[0] in a then [] else [g[0]];
      WithoutAppend(head, Without(g[1..], a), b);
    }
  }

  /** Killing sprites and then taking the collision group is the same as
      killing them in the collision group: kill() keeps the two groups in
      step. */
  lemma {:induction false} SolidsWithout(g: seq<Sprite>, gone: set<Sprite>)
    ensures Solids(Without(g, gone)) == Without(Solids(g), gone)
  {
    if g != [] {
      SolidsWithout(g[1..], gone);
      SolidsAppend(if g[0] in gone then [] else [g[0]], Without(g[1..], gone));
      WithoutAppend(if g[0].kind != BG then [g[0]] else [], Solids(g[1..]), gone);
    }
  }

  lemma {:induction false} SolidsAppend(a: seq<Sprite>, b: seq<Sprite>)
    ensures Solids(a + b) == Solids(a) + Solids(b)
  {
    if a == [] {
      assert a + b == b;
    } else {
      assert (a + b)[0] == a[0] && (a + b)[1..] == a[1..] + b;
      SolidsAppend(a[1..], b);
    }
  }

  /** Killing keeps a group free of duplicates. */
  lemma {:induction false} WithoutDistinct(g: seq<Sprite>, gone: set<Sprite>)
    requires Distinct(g)
    ensures Distinct(Without(g, gone))
  {
    if g != [] {
      assert Distinct(g[1..]);
      WithoutDistinct(g[1..], gone);
      var r := Without(g, gone);
      if g[0] !in gone {
        assert r == [g[0]] + Without(g[1..], gone);
        WithoutMembers(g[1..], gone);
        assert g[0] !in g[1..];
        assert forall i :: 1 <= i < |r| ==> r[i] == Without(g[1..], gone)[i - 1];
      }
    }
  }

  /** Every member of g is an obstacle. */
  predicate AllObstacles(g: seq<Sprite>) {
    forall i :: 0 <= i < |g| ==> g[i].kind == Obstacle
  }

  /** Killing keeps a group of obstacles a group of obstacles. */
  lemma {:induction false} WithoutObstacles(g: seq<Sprite>, gone: set<Sprite>)
    requires AllObstacles(g)
    ensures AllObstacles(Without(g, gone))
  {
    if g != [] {
      assert AllObstacles(g[1..]) by {
        forall i | 0 <= i < |g[1..]| ensures g[1..][i].kind == Obstacle {
          assert g[1..][i] == g[i + 1];
        }
      }
      WithoutObstacles(g[1..], gone);
    }
  }

  /** Killing only obstacles keeps the layout, and the background and ground
      stay first. */
  lemma WithoutKeepsLayout(g: seq<Sprite>, gone: set<Sprite>)
    requires Layout(g)
    requires forall s :: s in gone ==> s.kind == Obstacle
    ensures Layout(Without(g, gone))
    ensures Without(g, gone)[..2] == g[..2]
  {
    assert g[0] !in gone && g[1] !in gone;
    assert g[1..][0] == g[1] && g[1..][1..] == g[2..];
    var rest := Without(g[2..], gone);
    assert Without(g, gone) == [g[0]] + ([g[1]] + rest);
    assert AllObstacles(g[2..]) by {
      forall i | 0 <= i < |g[2..]| ensures g[2..][i].kind == Obstacle {
        assert g[2..][i] == g[i + 2];
      }
    }
    WithoutObstacles(g[2..], gone);
    var r := Without(g, gone);
    forall i | 2 <= i < |r|
      ensures r[i].kind == Obstacle
    {
      assert r[i] == rest[i - 2];
    }
  }

  /** Killing nothing leaves a group as it is. */
  lemma {:induction false} WithoutNothing(g: seq<Sprite>, gone: set<Sprite>)
    requires forall s :: s in g ==> s !in gone
    ensures Without(g, gone) == g
  {
    if g != [] {
      assert g[0] in g;
      assert forall s :: s in g[1..] ==> s in g;
      WithoutNothing(g[1..], gone);
      assert g == [g[0]] + g[1..];
    }
  }

  /** Killing every member empties a group. */
  lemma {:induction false} WithoutAll(g: seq<Sprite>, gone: set<Sprite>)
    requires forall s :: s in g ==> s in gone
    ensures Without(g, gone) == []
  {
    if g != [] {
      assert g[0] in g;
      assert forall s :: s in g[1..] ==> s in g;
      WithoutAll(g[1..], gone);
    }
  }

  /** The collision group holds the same obstacles as all_sprites. */
  lemma ObstaclesInSolids(g: seq<Sprite>)
    ensures ObstaclesIn(Solids(g)) == ObstaclesIn(g)
  {
    SolidsMembers(g);
    assert ObstaclesIn(Solids(g)) <= ObstaclesIn(g);
    assert ObstaclesIn(g) <= ObstaclesIn(Solids(g));
  }

  /** Killing every obstacle leaves just the background and the ground. */
  lemma KillingObstaclesLeavesScenery(g: seq<Sprite>)
    requires Layout(g)
    ensures Without(g, ObstaclesIn(g)) == g[..2]
    ensures Solids(Without(g, ObstaclesIn(g))) == [g[1]]
  {
    var k := ObstaclesIn(g);
    assert g == [g[0], g[1]] + g[2..];
    WithoutAppend([g[0], g[1]], g[2..], k);
    WithoutAppend([g[0]], [g[1]], k);
    assert forall s :: s in g[2..] ==> s in k;
    WithoutAll(g[2..], k);
    var r := Without(g, k);
    assert r == [g[0], g[1]];
    assert Solids(r) == Solids([g[0]] + [g[1]]);
    SolidsAppend([g[0]], [g[1]]);
  }

  /** After every obstacle is killed the two groups are the scenery alone,
      still laid out and free of duplicates. */
  lemma ClearedScenery(g: seq<Sprite>)
    requires Layout(g) && Distinct(g)
    ensures Without(g, ObstaclesIn(Solids(g))) == g[..2]
    ensures Without(Solids(g), ObstaclesIn(Solids(g))) == [g[1]]
    ensures Layout(g[..2]) && Distinct(g[..2]) && Solids(g[..2]) == [g[1]]
  {
    ObstaclesInSolids(g);
    KillingObstaclesLeavesScenery(g);
    SolidsWithout(g, ObstaclesIn(g));
    WithoutDistinct(g, ObstaclesIn(g));
  }
}
