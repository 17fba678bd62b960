/**
 * The achievement evaluator run after every click. It walks the
 * achievements in order; a completed one is kept as it is, every other one
 * gets its progress and completion rewritten from the click context. Click
 * achievements compare the click count with thresholds written into the
 * evaluator, coin and gem achievements compare the totals with the entry's
 * own target, and ids the evaluator does not know are reset to progress 0,
 * not completed.
 */
module AchievementRules {
  import opened Numbers
  import opened GameTypes
  import opened AchievementsData

  /** What a click reports to the evaluator. */
  datatype ClickContext = ClickContext(
    totalClicks: nat,
    totalCoins: real,
    totalGems: real,
    isCritical: bool,
    isLucky: bool,
    clickStreak: nat)

  /** The rewritten progress and completion of one entry. */
  datatype Verdict = Verdict(progress: real, complete: bool)

  /** The click thresholds written into the evaluator, by id. */
  function ClickThreshold(id: string): Option<int> {
    if id == "first-click" then Some(1)
    else if id == "hundred-clicks" then Some(100)
    else if id == "thousand-clicks" then Some(1000)
    else if id == "ten-thousand-clicks" then Some(10000)
    else if id == "hundred-thousand-clicks" then Some(100000)
    else if id == "million-clicks" then Some(1000000)
    else None
  }

  predicate IsCoinId(id: string) {
    id in {"hundred-coins", "thousand-coins", "million-coins", "billion-coins", "trillion-coins"}
  }

  predicate IsGemId(id: string) {
    id in {"first-gem", "hundred-gems", "thousand-gems"}
  }

  /** The `switch` on the id for one entry that is not yet completed. */
  function Evaluate(a: Achievement, ctx: ClickContext): Verdict {
    if ClickThreshold(a.id).Some? then
      Verdict(ctx.totalClicks as real, ctx.totalClicks >= ClickThreshold(a.id).value)
    else if IsCoinId(a.id) then
      Verdict(ctx.totalCoins, ctx.totalCoins >= a.target as real)
    else if IsGemId(a.id) then
      Verdict(ctx.totalGems, ctx.totalGems >= a.target as real)
    else if a.id == "speed-demon" then
      Verdict(0.0, ctx.clickStreak >= 100)
    else
      Verdict(0.0, false)
  }

  function CheckOne(a: Achievement, ctx: ClickContext): Achievement {
    if a.completed then a
    else
      var v := Evaluate(a, ctx);
      a.(progress := Some(v.progress), completed := v.complete)
  }

  /**
   * `checkAchievements`: the same entries in the same order; a completed
   * entry comes back unchanged, the others differ at most in progress and
   * completion.
   */
  function CheckAchievements(achs: seq<Achievement>, ctx: ClickContext): (r: seq<Achievement>)
    ensures |r| == |achs|
    ensures forall i :: 0 <= i < |r| ==> achs[i].completed ==> r[i] == achs[i]
    ensures forall i :: 0 <= i < |r| ==>
      r[i] == achs[i].(progress := r[i].progress, completed := r[i].completed)
    ensures forall i :: 0 <= i < |r| ==> !achs[i].completed ==> r[i].progress.Some?
  {
    seq(|achs|, i requires 0 <= i < |achs| => CheckOne(achs[i], ctx))
  }

  /** Completion never reverts: whatever was completed before is completed after. */
  lemma CompletedNeverReverts(achs: seq<Achievement>, ctx: ClickContext, i: nat)
    requires i < |achs| && achs[i].completed
    ensures CheckAchievements(achs, ctx)[i].completed
  {
  }

  /** A click achievement completes exactly when the click count reaches its threshold. */
  lemma ClickAchievementCompletes(achs: seq<Achievement>, ctx: ClickContext, i: nat)
    requires i < |achs| && !achs[i].completed && ClickThreshold(achs[i].id).Some?
    ensures var r := CheckAchievements(achs, ctx)[i];
      (r.completed <==> ctx.totalClicks >= ClickThreshold(achs[i].id).value)
      && r.progress == Some(ctx.totalClicks as real)
  {
    assert CheckAchievements(achs, ctx)[i] == CheckOne(achs[i], ctx);
  }

  /** A coin achievement completes exactly when the coin total reaches its own target. */
  lemma CoinAchievementCompletes(achs: seq<Achievement>, ctx: ClickContext, i: nat)
    requires i < |achs| && !achs[i].completed && IsCoinId(achs[i].id)
    ensures var r := CheckAchievements(achs, ctx)[i];
      (r.completed <==> ctx.totalCoins >= achs[i].target as real) && r.progress == Some(ctx.totalCoins)
  {
    assert CheckAchievements(achs, ctx)[i] == CheckOne(achs[i], ctx);
  }

  /** A gem achievement completes exactly when the gem total reaches its own target. */
  lemma GemAchievementCompletes(achs: seq<Achievement>, ctx: ClickContext, i: nat)
    requires i < |achs| && !achs[i].completed && IsGemId(achs[i].id)
    ensures var r := CheckAchievements(achs, ctx)[i];
      (r.completed <==> ctx.totalGems >= achs[i].target as real) && r.progress == Some(ctx.totalGems)
  {
    assert CheckAchievements(achs, ctx)[i] == CheckOne(achs[i], ctx);
  }

  /** Speed demon completes on a streak of 100 and reports no progress. */
  lemma SpeedDemonCompletes(achs: seq<Achievement>, ctx: ClickContext, i: nat)
    requires i < |achs| && !achs[i].completed && achs[i].id == "speed-demon"
    ensures var r := CheckAchievements(achs, ctx)[i];
      (r.completed <==> ctx.clickStreak >= 100) && r.progress == Some(0.0)
  {
    assert CheckAchievements(achs, ctx)[i] == CheckOne(achs[i], ctx);
  }

  /**
   * Every other unfinished entry (upgrade, prestige, the other special
   * ones) is reset to progress 0 and not completed, whatever the context.
   */
  lemma UnmappedIdsReset(achs: seq<Achievement>, ctx: ClickContext, i: nat)
    requires i < |achs| && !achs[i].completed
    requires ClickThreshold(achs[i].id).None? && !IsCoinId(achs[i].id) && !IsGemId(achs[i].id)
    requires achs[i].id != "speed-demon"
    ensures var r := CheckAchievements(achs, ctx)[i];
      !r.completed && r.progress == Some(0.0)
  {
    assert CheckAchievements(achs, ctx)[i] == CheckOne(achs[i], ctx);
  }

  /** Running the evaluator twice on the same context gives what running it once gives. */
  lemma CheckIdempotent(achs: seq<Achievement>, ctx: ClickContext)
    ensures CheckAchievements(CheckAchievements(achs, ctx), ctx) == CheckAchievements(achs, ctx)
  {
    var once := CheckAchievements(achs, ctx);
    forall i | 0 <= i < |once|
      ensures CheckOne(once[i], ctx) == once[i]
    {
      assert once[i] == CheckOne(achs[i], ctx);
      assert Evaluate(once[i], ctx) == Evaluate(achs[i], ctx);
    }
  }

  /**
   * The click thresholds in the evaluator are the catalog targets, and the
   * entries with a threshold are exactly the catalog's clicking category.
   */
  lemma ClickThresholdsMatchCatalog()
    ensures forall i :: 0 <= i < |Catalog()| ==>
      (ClickThreshold(Catalog()[i].id).Some? <==> Catalog()[i].category == Clicking)
    ensures forall i :: 0 <= i < |Catalog()| && ClickThreshold(Catalog()[i].id).Some? ==>
      ClickThreshold(Catalog()[i].id).value == Catalog()[i].target
  {
    var c := Catalog();
    forall i | 0 <= i < |c|
      ensures ClickThreshold(c[i].id).Some? <==> c[i].category == Clicking
      ensures ClickThreshold(c[i].id).Some? ==> ClickThreshold(c[i].id).value == c[i].target
    {
      if i < 6 {
        assert c[i].category == Clicking;
      } else {
        assert c[i].category != Clicking;
        assert ClickThreshold(c[i].id).None?;
      }
    }
  }

  /** The coin achievements are catalog entries 6 to 10, with targets 100 up to 10^12. */
  lemma CoinTargets()
    ensures forall i :: 0 <= i < |Catalog()| ==> (IsCoinId(Catalog()[i].id) <==> 6 <= i < 11)
    ensures [Catalog()[6].target, Catalog()[7].target, Catalog()[8].target, Catalog()[9].target, Catalog()[10].target]
      == [100, 1000, 1000000, 1000000000, 1000000000000]
  {
  }

  /** The gem achievements are catalog entries 11 to 13, with targets 1, 100 and 1000. */
  lemma GemTargets()
    ensures forall i :: 0 <= i < |Catalog()| ==> (IsGemId(Catalog()[i].id) <==> 11 <= i < 14)
    ensures [Catalog()[11].target, Catalog()[12].target, Catalog()[13].target] == [1, 100, 1000]
  {
  }
}
