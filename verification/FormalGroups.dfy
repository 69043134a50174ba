/** Four quantiles per episode in order form the groups that formal admission demands. */
module FormalGroups {
  import opened Manifest
  import V = ManifestValidator
  import L = ManifestLoader
  import Quantiles

  predicate EntryOf(id: int, steps: seq<int>, q: nat, d: Selected) {
    q < |steps| && d.episodeId == id && d.quantile == q && d.frameIndex == steps[q]
  }

  /** The four records of one episode at four increasing steps. */
  ghost predicate FourAt(id: int, steps: seq<int>, selected: seq<Selected>, e: nat) {
    && 4 * e + 4 <= |selected| && |steps| == 4 && Quantiles.StrictlyIncreasing(steps)
    && EntryOf(id, steps, 0, selected[4 * e]) && EntryOf(id, steps, 1, selected[4 * e + 1])
    && EntryOf(id, steps, 2, selected[4 * e + 2]) && EntryOf(id, steps, 3, selected[4 * e + 3])
  }

  ghost predicate Regular(ids: seq<int>, steps: seq<seq<int>>, selected: seq<Selected>) {
    && |ids| == |steps| && |selected| == 4 * |ids| && Quantiles.StrictlyIncreasing(ids)
    && (forall e :: 0 <= e < |ids| ==> FourAt(ids[e], steps[e], selected, e))
  }

  function Four(selected: seq<Selected>, e: nat): seq<Selected>
    requires 4 * e + 4 <= |selected|
  {
    [selected[4 * e], selected[4 * e + 1], selected[4 * e + 2], selected[4 * e + 3]]
  }

  /** Four selected samples more, all of one episode. */
  lemma FourMore(selected: seq<Selected>, n: nat, id: int, j: int)
    requires n + 4 <= |selected| && forall k :: n <= k < n + 4 ==> selected[k].episodeId == id
    ensures V.EpisodeIds(selected[..n + 4]) == V.EpisodeIds(selected[..n]) + {id}
    ensures V.Group(selected[..n + 4], j)
            == V.Group(selected[..n], j)
               + (if j == id then [selected[n], selected[n + 1], selected[n + 2], selected[n + 3]] else [])
  {
    L.IdsMore(selected, n);
    L.IdsMore(selected, n + 1);
    L.IdsMore(selected, n + 2);
    L.IdsMore(selected, n + 3);
  }

  lemma FourMoreIds(selected: seq<Selected>, e: nat, id: int, steps: seq<int>)
    requires FourAt(id, steps, selected, e)
    ensures V.EpisodeIds(selected[..4 * e + 4]) == V.EpisodeIds(selected[..4 * e]) + {id}
  {
    FourMore(selected, 4 * e, id, id);
  }

  lemma FourMoreGroup(selected: seq<Selected>, e: nat, id: int, steps: seq<int>, j: int)
    requires FourAt(id, steps, selected, e)
    ensures V.Group(selected[..4 * e + 4], j)
            == V.Group(selected[..4 * e], j) + (if j == id then Four(selected, e) else [])
  {
    FourMore(selected, 4 * e, id, j);
  }

  ghost function IdSet(ids: seq<int>, n: nat): set<int>
    requires n <= |ids|
  {
    if n == 0 then {} else IdSet(ids, n - 1) + {ids[n - 1]}
  }

  lemma {:induction false} IdSetFacts(ids: seq<int>, n: nat)
    requires Quantiles.StrictlyIncreasing(ids) && n <= |ids|
    ensures |IdSet(ids, n)| == n && forall id :: id in IdSet(ids, n) ==> exists e :: 0 <= e < n && ids[e] == id
  {
    if n > 0 {
      IdSetFacts(ids, n - 1);
      assert ids[n - 1] !in IdSet(ids, n - 1);
    }
  }

  lemma {:induction false} IdsAre(ids: seq<int>, steps: seq<seq<int>>, selected: seq<Selected>, n: nat)
    requires Regular(ids, steps, selected) && n <= |ids|
    ensures V.EpisodeIds(selected[..4 * n]) == IdSet(ids, n)
  {
    if n > 0 {
      IdsAre(ids, steps, selected, n - 1);
      FourMoreIds(selected, n - 1, ids[n - 1], steps[n - 1]);
    }
  }

  lemma {:induction false} GroupIs(ids: seq<int>, steps: seq<seq<int>>, selected: seq<Selected>, n: nat, e: nat)
    requires Regular(ids, steps, selected) && n <= |ids| && e < |ids|
    ensures V.Group(selected[..4 * n], ids[e]) == if e < n then Four(selected, e) else []
  {
    if n > 0 {
      var m := n - 1;
      GroupIs(ids, steps, selected, m, e);
      FourMoreGroup(selected, m, ids[m], steps[m], ids[e]);
      assert e < m ==> ids[e] < ids[m];
      assert e > m ==> ids[e] > ids[m];
    }
  }

  lemma FourOk(id: int, steps: seq<int>, selected: seq<Selected>, e: nat)
    requires FourAt(id, steps, selected, e)
    ensures V.GroupOk(Four(selected, e))
  {
    var g := Four(selected, e);
    assert V.QuantileSet(g) == {0, 1, 2, 3} by {
      assert g[0].quantile == 0 && g[1].quantile == 1 && g[2].quantile == 2 && g[3].quantile == 3;
    }
    assert V.FrameSet(g) == {steps[0], steps[1], steps[2], steps[3]} by {
      assert g[0].frameIndex == steps[0] && g[1].frameIndex == steps[1] && g[2].frameIndex == steps[2]
        && g[3].frameIndex == steps[3];
    }
  }

  /** 48 regular episodes give 48 good groups. */
  lemma RegularGroups(ids: seq<int>, steps: seq<seq<int>>, selected: seq<Selected>)
    requires Regular(ids, steps, selected) && |ids| == 48
    ensures V.GroupsOk(selected)
  {
    IdsAre(ids, steps, selected, 48);
    IdSetFacts(ids, 48);
    assert selected[..4 * 48] == selected;
    forall id | id in V.EpisodeIds(selected) ensures V.GroupOk(V.Group(selected, id)) {
      var e :| 0 <= e < 48 && ids[e] == id;
      GroupIs(ids, steps, selected, 48, e);
      FourOk(ids[e], steps[e], selected, e);
    }
  }
}
