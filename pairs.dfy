/**
 * The url-against-url collision pass of one tick: every ordered pair of live
 * urls in iteration order, of which only those with the smaller id first are
 * resolved, so each unordered pair is resolved once.
 */
module Pairs {
  import opened Geometry
  import opened Urls
  import Vectorial

  /** A pair of positions in the url sequence: `url1` of the outer loop, `url2` of the inner one. */
  datatype Index = Index(url1: nat, url2: nat)

  /** The pairs the inner loop resolves for `url1 = vs[i]`, over `url2 = vs[0..j)`. */
  function Row(vs: seq<UrlView>, i: nat, j: nat): (ps: seq<Index>)
    requires i < |vs| && j <= |vs|
    ensures forall k :: 0 <= k < |ps| ==> ps[k].url1 == i && ps[k].url2 < j
    decreases j
  {
    if j == 0 then []
    else Row(vs, i, j - 1) + (if vs[i].id < vs[j - 1].id then [Index(i, j - 1)] else [])
  }

  /** The pairs the outer loop resolves for `url1` over `vs[0..i)`. */
  function Rows(vs: seq<UrlView>, i: nat): (ps: seq<Index>)
    requires i <= |vs|
    ensures forall k :: 0 <= k < |ps| ==> ps[k].url1 < i && ps[k].url2 < |vs|
    decreases i
  {
    if i == 0 then [] else Rows(vs, i - 1) + Row(vs, i - 1, |vs|)
  }

  /** Every pair the whole pass resolves, in order. */
  function Visited(vs: seq<UrlView>): seq<Index> {
    Rows(vs, |vs|)
  }

  /** Whether a view differs from another at most in its speed. */
  predicate SameButSpeed(v: UrlView, w: UrlView) {
    v.id == w.id && v.code == w.code && v.position == w.position
  }

  /** `vs[p.url1].checkCollision(vs[p.url2])` on the views; a url against itself changes nothing. */
  function PairAt(geo: Oracles, vs: seq<UrlView>, p: Index): (r: seq<UrlView>)
    ensures |r| == |vs| && forall k :: 0 <= k < |vs| ==> SameButSpeed(r[k], vs[k])
    ensures forall k :: 0 <= k < |vs| && k != p.url1 && k != p.url2 ==> r[k] == vs[k]
  {
    if p.url1 < |vs| && p.url2 < |vs| && p.url1 != p.url2 then
      var speeds := PairImpulse(geo, vs[p.url1], vs[p.url2]);
      vs[p.url1 := vs[p.url1].(speed := speeds.first)][p.url2 := vs[p.url2].(speed := speeds.second)]
    else vs
  }

  /** What one resolved pair does to the views; the passes below are stated for any such step. */
  type PairStep = (seq<UrlView>, Index) -> seq<UrlView>

  /** `checkCollision` as a pair step. */
  function Resolve(geo: Oracles): PairStep {
    (vs: seq<UrlView>, p: Index) => PairAt(geo, vs, p)
  }

  /** The views with their speeds cleared: all a step like `checkCollision` must leave alone. */
  function Unsped(vs: seq<UrlView>): seq<UrlView> {
    seq(|vs|, k requires 0 <= k < |vs| => vs[k].(speed := Vectorial.Zero))
  }

  /** Equal views once the speeds are cleared differ at most in their speeds, and conversely. */
  lemma UnspedSame(a: seq<UrlView>, b: seq<UrlView>)
    ensures Unsped(a) == Unsped(b) <==> |a| == |b| && forall k :: 0 <= k < |a| ==> SameButSpeed(a[k], b[k])
  {
    if Unsped(a) == Unsped(b) {
      forall k | 0 <= k < |a|
        ensures SameButSpeed(a[k], b[k])
      {
        assert Unsped(a)[k] == Unsped(b)[k];
      }
    }
  }

  /** A step that, like `checkCollision`, changes the speeds and nothing else. */
  ghost predicate OnlySpeeds(at: PairStep) {
    forall vs, p :: Unsped(at(vs, p)) == Unsped(vs)
  }

  /** `checkCollision` is such a step. */
  lemma ResolveOnlySpeeds(geo: Oracles)
    ensures OnlySpeeds(Resolve(geo))
  {
    forall vs, p
      ensures Unsped(Resolve(geo)(vs, p)) == Unsped(vs)
    {
      assert Resolve(geo)(vs, p) == PairAt(geo, vs, p);
      UnspedSame(PairAt(geo, vs, p), vs);
    }
  }

  /** The pairs resolved one after the other. */
  function ApplyPairs(at: PairStep, vs: seq<UrlView>, ps: seq<Index>): seq<UrlView>
    decreases |ps|
  {
    if ps == [] then vs
    else at(ApplyPairs(at, vs, ps[..|ps| - 1]), ps[|ps| - 1])
  }

  /** One pass of the inner loop: `url1 = s[i]` against `url2 = s[j]`, resolved if `url1.id < url2.id`. */
  function Meet(at: PairStep, s: seq<UrlView>, i: nat, j: nat): seq<UrlView> {
    if i < |s| && j < |s| && s[i].id < s[j].id then at(s, Index(i, j)) else s
  }

  /** The inner loop for `url1 = s[i]` over `url2` in `s[0..j)`, each meeting the speeds the one before left. */
  function RowPass(at: PairStep, s: seq<UrlView>, i: nat, j: nat): seq<UrlView>
    decreases j
  {
    if j == 0 then s else Meet(at, RowPass(at, s, i, j - 1), i, j - 1)
  }

  /** The outer loop for `url1` over `vs[0..i)`, each running the inner loop over every url. */
  function OuterPass(at: PairStep, vs: seq<UrlView>, i: nat): seq<UrlView>
    decreases i
  {
    if i == 0 then vs else RowPass(at, OuterPass(at, vs, i - 1), i - 1, |vs|)
  }

  /** The pass of one tick while the robot is alive: both loops over all urls. */
  function PairPass(at: PairStep, vs: seq<UrlView>): seq<UrlView> {
    OuterPass(at, vs, |vs|)
  }

  /** Resolving pairs one after the other changes the speeds and nothing else. */
  lemma {:induction false} ApplyOnlySpeeds(at: PairStep, vs: seq<UrlView>, ps: seq<Index>)
    requires OnlySpeeds(at)
    ensures Unsped(ApplyPairs(at, vs, ps)) == Unsped(vs)
    decreases |ps|
  {
    if ps != [] {
      ApplyOnlySpeeds(at, vs, ps[..|ps| - 1]);
    }
  }

  /** The inner loop changes the speeds and nothing else. */
  lemma {:induction false} RowOnlySpeeds(at: PairStep, s: seq<UrlView>, i: nat, j: nat)
    requires OnlySpeeds(at)
    ensures Unsped(RowPass(at, s, i, j)) == Unsped(s)
    decreases j
  {
    if j > 0 {
      RowOnlySpeeds(at, s, i, j - 1);
    }
  }

  /** The outer loop changes the speeds and nothing else. */
  lemma {:induction false} OuterOnlySpeeds(at: PairStep, vs: seq<UrlView>, i: nat)
    requires OnlySpeeds(at)
    ensures Unsped(OuterPass(at, vs, i)) == Unsped(vs)
    decreases i
  {
    if i > 0 {
      OuterOnlySpeeds(at, vs, i - 1);
      RowOnlySpeeds(at, OuterPass(at, vs, i - 1), i - 1, |vs|);
    }
  }

  /** The url-against-url pass of a tick changes the speeds and nothing else: no url is added, dropped, moved or recoded. */
  lemma PassOnlySpeeds(geo: Oracles, vs: seq<UrlView>)
    ensures var r := PairPass(Resolve(geo), vs); |r| == |vs| && forall k :: 0 <= k < |vs| ==> SameButSpeed(r[k], vs[k])
  {
    ResolveOnlySpeeds(geo);
    OuterOnlySpeeds(Resolve(geo), vs, |vs|);
    UnspedSame(PairPass(Resolve(geo), vs), vs);
  }

  /** Whether the pass resolves `vs[a]` against `vs[b]`: both exist and `a`'s id is the smaller. */
  predicate Resolved(vs: seq<UrlView>, a: nat, b: nat) {
    a < |vs| && b < |vs| && vs[a].id < vs[b].id
  }

  /** Whether `p` comes before `q` in the order the loops visit pairs. */
  predicate Before(p: Index, q: Index) {
    p.url1 < q.url1 || (p.url1 == q.url1 && p.url2 < q.url2)
  }

  /** Strictly ascending in visiting order, so no pair occurs twice. */
  predicate Ascending(ps: seq<Index>) {
    forall k, l :: 0 <= k < l < |ps| ==> Before(ps[k], ps[l])
  }

  /** The inner loop for `url1 = vs[i]` over `vs[0..j)` resolves exactly the pairs `(i, b)` with `b < j` and a larger id at `b`. */
  lemma {:induction false} RowHas(vs: seq<UrlView>, i: nat, j: nat, a: nat, b: nat)
    requires i < |vs| && j <= |vs|
    ensures Index(a, b) in Row(vs, i, j) <==> a == i && b < j && Resolved(vs, a, b)
    decreases j
  {
    if j > 0 {
      RowHas(vs, i, j - 1, a, b);
    }
  }

  /** The loops over `url1` in `vs[0..i)` resolve exactly the pairs `(a, b)` with `a < i` that are `Resolved`. */
  lemma {:induction false} RowsHave(vs: seq<UrlView>, i: nat, p: Index)
    requires i <= |vs|
    ensures p in Rows(vs, i) <==> p.url1 < i && Resolved(vs, p.url1, p.url2)
    decreases i, 1
  {
    if i > 0 {
      RowsStep(vs, i, p);
    }
  }

  /** One more turn of the outer loop adds the pairs of `vs[i - 1]`'s row to those before. */
  lemma {:induction false} RowsStep(vs: seq<UrlView>, i: nat, p: Index)
    requires 0 < i <= |vs|
    ensures p in Rows(vs, i) <==> p.url1 < i && Resolved(vs, p.url1, p.url2)
    decreases i, 0
  {
    var init, row := Rows(vs, i - 1), Row(vs, i - 1, |vs|);
    RowsUnfold(vs, i);
    RowsHave(vs, i - 1, p);
    RowHas(vs, i - 1, |vs|, p.url1, p.url2);
    InJoin(init, row, p, p.url1 < i - 1 && Resolved(vs, p.url1, p.url2), p.url1 == i - 1 && Resolved(vs, p.url1, p.url2));
  }

  /** One turn of the outer loop appends a row. */
  lemma RowsUnfold(vs: seq<UrlView>, i: nat)
    requires 0 < i <= |vs|
    ensures Rows(vs, i) == Rows(vs, i - 1) + Row(vs, i - 1, |vs|)
  {
  }

  /** Membership in a concatenation, with each part's membership already characterised. */
  lemma InJoin(init: seq<Index>, row: seq<Index>, p: Index, inInit: bool, inRow: bool)
    requires p in init <==> inInit
    requires p in row <==> inRow
    ensures p in init + row <==> inInit || inRow
  {
  }

  /** The inner loop visits its pairs in ascending order of `url2`. */
  lemma {:induction false} RowAscending(vs: seq<UrlView>, i: nat, j: nat)
    requires i < |vs| && j <= |vs|
    ensures Ascending(Row(vs, i, j))
    decreases j
  {
    if j > 0 {
      RowAscending(vs, i, j - 1);
    }
  }

  /** Every pair of the outer turns before `vs[i - 1]` comes before every pair of its row. */
  lemma EarlierRow(vs: seq<UrlView>, i: nat)
    requires 0 < i <= |vs|
    ensures var ps, qs := Rows(vs, i - 1), Row(vs, i - 1, |vs|);
      forall k, l :: 0 <= k < |ps| && 0 <= l < |qs| ==> Before(ps[k], qs[l])
  {
  }

  /** The two loops visit their pairs in ascending order: by `url1`, then by `url2`. */
  lemma {:induction false} RowsAscending(vs: seq<UrlView>, i: nat)
    requires i <= |vs|
    ensures Ascending(Rows(vs, i))
    decreases i
  {
    if i > 0 {
      RowsAscending(vs, i - 1);
      RowsAscendingStep(vs, i);
    }
  }

  /** The row of `vs[i - 1]` follows the rows before it in visiting order. */
  lemma RowsAscendingStep(vs: seq<UrlView>, i: nat)
    requires 0 < i <= |vs| && Ascending(Rows(vs, i - 1))
    ensures Ascending(Rows(vs, i))
  {
    RowAscending(vs, i - 1, |vs|);
    EarlierRow(vs, i);
    RowsUnfold(vs, i);
    var ps, qs, rs := Rows(vs, i - 1), Row(vs, i - 1, |vs|), Rows(vs, i);
    forall k, l | 0 <= k < l < |rs|
      ensures Before(rs[k], rs[l])
    {
      if l < |ps| {
        assert rs[k] == ps[k] && rs[l] == ps[l];
      } else if k >= |ps| {
        assert rs[k] == qs[k - |ps|] && rs[l] == qs[l - |ps|];
      } else {
        assert rs[k] == ps[k] && rs[l] == qs[l - |ps|];
      }
    }
  }

  /**
   * With distinct ids, the pass resolves each unordered pair of distinct urls
   * exactly once, smaller id first, never a url against itself, and no pair twice.
   */
  lemma EachPairOnce(vs: seq<UrlView>, a: nat, b: nat)
    requires forall i, j :: 0 <= i < |vs| && 0 <= j < |vs| && i != j ==> vs[i].id != vs[j].id
    requires a < |vs| && b < |vs|
    ensures Index(a, b) in Visited(vs) <==> vs[a].id < vs[b].id
    ensures a != b ==> (Index(a, b) in Visited(vs) <==> Index(b, a) !in Visited(vs))
    ensures Index(a, a) !in Visited(vs)
    ensures forall k, l :: 0 <= k < l < |Visited(vs)| ==> Visited(vs)[k] != Visited(vs)[l]
  {
    RowsHave(vs, |vs|, Index(a, b));
    RowsHave(vs, |vs|, Index(b, a));
    RowsHave(vs, |vs|, Index(a, a));
    RowsAscending(vs, |vs|);
  }

  /** Resolving one more pair after `ps`. */
  lemma ApplyOneMore(at: PairStep, vs: seq<UrlView>, ps: seq<Index>, p: Index)
    ensures ApplyPairs(at, vs, ps + [p]) == at(ApplyPairs(at, vs, ps), p)
  {
    assert (ps + [p])[..|ps|] == ps;
  }

  /** Resolving `ps` and then `qs` is resolving `ps + qs`. */
  lemma {:induction false} ApplySplit(at: PairStep, vs: seq<UrlView>, ps: seq<Index>, qs: seq<Index>)
    ensures ApplyPairs(at, vs, ps + qs) == ApplyPairs(at, ApplyPairs(at, vs, ps), qs)
    decreases |qs|
  {
    if qs == [] {
      assert ps + qs == ps;
    } else {
      var init, last := qs[..|qs| - 1], qs[|qs| - 1];
      assert qs == init + [last];
      ApplySplit(at, vs, ps, init);
      assert ps + qs == (ps + init) + [last];
      ApplyOneMore(at, vs, ps + init, last);
      ApplyOneMore(at, ApplyPairs(at, vs, ps), init, last);
    }
  }

  /** The pairs a row picks depend only on the ids. */
  lemma {:induction false} RowByIds(s: seq<UrlView>, t: seq<UrlView>, i: nat, j: nat)
    requires Unsped(t) == Unsped(s) && i < |s| && j <= |s|
    ensures Row(s, i, j) == Row(t, i, j)
    decreases j
  {
    if j > 0 {
      RowByIds(s, t, i, j - 1);
      assert Unsped(t)[i] == Unsped(s)[i] && Unsped(t)[j - 1] == Unsped(s)[j - 1];
    }
  }

  /** A meeting on the views `t` the pairs `ps` leave resolves one more pair exactly when the ids at the start say so. */
  lemma MeetAppends(at: PairStep, vs: seq<UrlView>, ps: seq<Index>, qs: seq<Index>, t: seq<UrlView>, i: nat, j: nat)
    requires OnlySpeeds(at) && i < |vs| && j < |vs|
    requires t == ApplyPairs(at, vs, ps)
    requires qs == ps + (if vs[i].id < vs[j].id then [Index(i, j)] else [])
    ensures Meet(at, t, i, j) == ApplyPairs(at, vs, qs)
  {
    ApplyOnlySpeeds(at, vs, ps);
    assert Unsped(t)[i] == Unsped(vs)[i] && Unsped(t)[j] == Unsped(vs)[j];
    if vs[i].id < vs[j].id {
      ApplyOneMore(at, vs, ps, Index(i, j));
    } else {
      assert qs == ps;
    }
  }

  /** The inner loop for `url1 = s[i]` resolves the pairs of its row, in order. */
  lemma {:induction false} RowPassResolves(at: PairStep, s: seq<UrlView>, i: nat, j: nat)
    requires OnlySpeeds(at) && i < |s| && j <= |s|
    ensures RowPass(at, s, i, j) == ApplyPairs(at, s, Row(s, i, j))
    decreases j
  {
    if j > 0 {
      RowPassResolves(at, s, i, j - 1);
      RowStep(at, s, i, j, RowPass(at, s, i, j - 1));
    }
  }

  /** One more turn of the inner loop, from the views `t` the turns before it leave. */
  lemma RowStep(at: PairStep, s: seq<UrlView>, i: nat, j: nat, t: seq<UrlView>)
    requires OnlySpeeds(at) && i < |s| && 0 < j <= |s|
    requires t == RowPass(at, s, i, j - 1) == ApplyPairs(at, s, Row(s, i, j - 1))
    ensures RowPass(at, s, i, j) == ApplyPairs(at, s, Row(s, i, j))
  {
    assert RowPass(at, s, i, j) == Meet(at, t, i, j - 1);
    MeetAppends(at, s, Row(s, i, j - 1), Row(s, i, j), t, i, j - 1);
  }

  /** The outer loop over `vs[0..i)` resolves the pairs of `Rows(vs, i)` in order. */
  lemma {:induction false} OuterPassResolves(at: PairStep, vs: seq<UrlView>, i: nat)
    requires OnlySpeeds(at) && i <= |vs|
    ensures OuterPass(at, vs, i) == ApplyPairs(at, vs, Rows(vs, i))
    decreases i
  {
    if i > 0 {
      var init, row := Rows(vs, i - 1), Row(vs, i - 1, |vs|);
      var t := OuterPass(at, vs, i - 1);
      assert OuterPass(at, vs, i) == RowPass(at, t, i - 1, |vs|);
      RowAfter(at, vs, t, i - 1);
      OuterPassResolves(at, vs, i - 1);
      ApplyAfter(at, vs, init, row, t);
      RowsUnfold(vs, i);
    }
  }

  /** The inner loop for `url1 = t[i]`, on the views `t` the outer turns before it leave, resolves the row of `vs`. */
  lemma RowAfter(at: PairStep, vs: seq<UrlView>, t: seq<UrlView>, i: nat)
    requires OnlySpeeds(at) && i < |vs| && t == OuterPass(at, vs, i)
    ensures RowPass(at, t, i, |vs|) == ApplyPairs(at, t, Row(vs, i, |vs|))
  {
    OuterOnlySpeeds(at, vs, i);
    RowPassResolves(at, t, i, |vs|);
    RowByIds(vs, t, i, |vs|);
  }

  /** Resolving `ps + qs` is resolving `qs` after the views `ps` leaves. */
  lemma ApplyAfter(at: PairStep, vs: seq<UrlView>, ps: seq<Index>, qs: seq<Index>, t: seq<UrlView>)
    requires t == ApplyPairs(at, vs, ps)
    ensures ApplyPairs(at, vs, ps + qs) == ApplyPairs(at, t, qs)
  {
    ApplySplit(at, vs, ps, qs);
  }

  /**
   * Although each pair meets the speeds the pairs before it left, the ids it
   * compares never change, so the pass resolves exactly the pairs of
   * `Visited(vs)`, chosen from the ids at the start, in visiting order.
   */
  lemma PairPassVisits(geo: Oracles, vs: seq<UrlView>)
    ensures PairPass(Resolve(geo), vs) == ApplyPairs(Resolve(geo), vs, Visited(vs))
  {
    ResolveOnlySpeeds(geo);
    OuterPassResolves(Resolve(geo), vs, |vs|);
  }
}
