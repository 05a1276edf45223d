/** The random choice of the next theme. The operating system's random number
    generator is replaced by the stream of catalog positions it would yield;
    each `choose` on the catalog's names consumes one position. */
module Selector {
  import opened Wrappers
  import opened Themes

  /** How many draws are made before giving up when a theme is already active. */
  const Retries: nat := 10

  /** The draw stream is long enough for every branch and yields only catalog
      positions. An empty catalog never reaches the generator, so it asks
      nothing of the stream. */
  predicate SourceCovers(draws: seq<nat>, n: nat) {
    n == 0 || (|draws| >= Retries && forall i :: 0 <= i < |draws| ==> draws[i] < n)
  }

  /** The name chosen by draw `k`. */
  function Drawn(themes: seq<Theme>, draws: seq<nat>, k: nat): string
    requires k < |draws| && draws[k] < |themes|
  {
    themes[draws[k]].term
  }

  /** The first of draws `k` .. `Retries - 1` whose name differs from `active`. */
  function FirstDiffering(themes: seq<Theme>, active: string, draws: seq<nat>, k: nat): (r: Option<nat>)
    requires |themes| > 0 && SourceCovers(draws, |themes|) && k <= Retries
    ensures r.Some? ==> k <= r.value < Retries && Drawn(themes, draws, r.value) != active
    ensures r.Some? ==> forall j :: k <= j < r.value ==> Drawn(themes, draws, j) == active
    ensures r.None? ==> forall j :: k <= j < Retries ==> Drawn(themes, draws, j) == active
    decreases Retries - k
  {
    if k == Retries then None
    else if Drawn(themes, draws, k) != active then Some(k)
    else FirstDiffering(themes, active, draws, k + 1)
  }

  /** What the selection settles on: nothing to choose from, no differing draw
      within the retry budget, or a name. */
  datatype Pick = NoThemes | GaveUp | Picked(term: string)

  /** The pick together with the number of draws it consumed. */
  datatype Selection = Selection(pick: Pick, drawsUsed: nat)

  /** The selection policy of `randomize`: with no active theme one draw is
      taken as it is; with an active theme up to `Retries` draws are made and
      the first one naming a different theme wins. */
  function Select(themes: seq<Theme>, active: Option<string>, draws: seq<nat>): (s: Selection)
    requires SourceCovers(draws, |themes|)
    ensures s.pick == NoThemes <==> |themes| == 0
    ensures |themes| == 0 ==> s.drawsUsed == 0
    ensures |themes| > 0 && active.None? ==> s == Selection(Picked(themes[draws[0]].term), 1)
    ensures |themes| > 0 && active.Some? ==> 1 <= s.drawsUsed <= Retries
    ensures |themes| > 0 && active.Some? ==>
              forall j :: 0 <= j < s.drawsUsed - 1 ==> Drawn(themes, draws, j) == active.value
    ensures s.pick.Picked? && active.Some? ==>
              s.pick.term == Drawn(themes, draws, s.drawsUsed - 1) && s.pick.term != active.value
    ensures s.pick == GaveUp <==>
              |themes| > 0 && active.Some? && forall j :: 0 <= j < Retries ==> Drawn(themes, draws, j) == active.value
    ensures s.pick == GaveUp ==> s.drawsUsed == Retries
    ensures s.pick.Picked? ==> HasTerm(themes, s.pick.term)
  {
    if |themes| == 0 then Selection(NoThemes, 0)
    else match active
      case None => Selection(Picked(Drawn(themes, draws, 0)), 1)
      case Some(a) =>
        match FirstDiffering(themes, a, draws, 0)
        case None => Selection(GaveUp, Retries)
        case Some(k) => Selection(Picked(Drawn(themes, draws, k)), k + 1)
  }

  /** Draws after the deciding one are never consulted: two streams that agree
      on the first `k` positions and differ everywhere after give the same
      scan from `k` onwards. */
  lemma {:induction false} FirstDifferingPrefix(themes: seq<Theme>, active: string, d1: seq<nat>, d2: seq<nat>, k: nat)
    requires |themes| > 0 && SourceCovers(d1, |themes|) && SourceCovers(d2, |themes|) && k <= Retries
    requires FirstDiffering(themes, active, d1, k).Some?
    requires d1[..FirstDiffering(themes, active, d1, k).value + 1] == d2[..FirstDiffering(themes, active, d1, k).value + 1]
    ensures FirstDiffering(themes, active, d2, k) == FirstDiffering(themes, active, d1, k)
    decreases Retries - k
  {
    var v := FirstDiffering(themes, active, d1, k).value;
    assert d1[k] == d1[..v + 1][k] == d2[..v + 1][k] == d2[k];
    if Drawn(themes, d1, k) == active {
      FirstDifferingPrefix(themes, active, d1, d2, k + 1);
    }
  }

  /** A scan that finds no differing draw in one stream finds none in another
      stream that agrees with it on the whole budget. */
  lemma FirstDifferingNonePrefix(themes: seq<Theme>, active: string, d1: seq<nat>, d2: seq<nat>)
    requires |themes| > 0 && SourceCovers(d1, |themes|) && SourceCovers(d2, |themes|)
    requires FirstDiffering(themes, active, d1, 0).None?
    requires d1[..Retries] == d2[..Retries]
    ensures FirstDiffering(themes, active, d2, 0).None?
  {
  }

  /** The selection depends only on the draws it used. */
  lemma LaterDrawsIgnored(themes: seq<Theme>, active: Option<string>, d1: seq<nat>, d2: seq<nat>)
    requires SourceCovers(d1, |themes|) && SourceCovers(d2, |themes|)
    requires d1[..Select(themes, active, d1).drawsUsed] == d2[..Select(themes, active, d1).drawsUsed]
    ensures Select(themes, active, d2) == Select(themes, active, d1)
  {
    if |themes| > 0 {
      match active
      case None =>
        assert d1[0] == d1[..1][0];
      case Some(a) =>
        LaterDrawsIgnoredActive(themes, a, d1, d2);
    }
  }

  /** `LaterDrawsIgnored` when a theme is active. */
  lemma LaterDrawsIgnoredActive(themes: seq<Theme>, a: string, d1: seq<nat>, d2: seq<nat>)
    requires |themes| > 0 && SourceCovers(d1, |themes|) && SourceCovers(d2, |themes|)
    requires d1[..Select(themes, Some(a), d1).drawsUsed] == d2[..Select(themes, Some(a), d1).drawsUsed]
    ensures Select(themes, Some(a), d2) == Select(themes, Some(a), d1)
  {
    var r := FirstDiffering(themes, a, d1, 0);
    if r.Some? {
      var k := r.value;
      assert Select(themes, Some(a), d1) == Selection(Picked(Drawn(themes, d1, k)), k + 1);
      FirstDifferingPrefix(themes, a, d1, d2, 0);
      assert d1[k] == d1[..k + 1][k];
    } else {
      assert Select(themes, Some(a), d1) == Selection(GaveUp, Retries);
      FirstDifferingNonePrefix(themes, a, d1, d2);
    }
  }

  /** With one theme in the catalog and that theme active, every draw repeats
      it, so the selection always gives up after the full budget. */
  lemma SingletonActiveGivesUp(themes: seq<Theme>, draws: seq<nat>)
    requires |themes| == 1 && SourceCovers(draws, 1)
    ensures Select(themes, Some(themes[0].term), draws) == Selection(GaveUp, Retries)
  {
  }
}
