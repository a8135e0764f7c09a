/**
 * Client runs of the generator from a fresh mount (construction followed by
 * hydration from empty storage), stating what a user sees
 * after a fixed sequence of button presses, and the save-twice property for
 * any state.
 */
module Scenarios {
  import opened Wrappers
  import opened Words
  import opened Generator

  /** A fresh mount shows the placeholder, no favourites and all-zero statistics. */
  method FreshStart() returns (insult: string, favorites: seq<string>, stats: Stats)
    ensures insult == Placeholder && favorites == []
    ensures stats == Stats(0, 0, 0, 0)
  {
    var g := new InsultGenerator();
    g.Load([], None);
    insult, favorites, stats := g.insult, g.favorites, g.stats;
  }

  /** One Generate from a fresh mount: one phrase generated, a streak of one, no batch. */
  method GenerateOnce(d: Draw) returns (stats: Stats, batch: seq<string>)
    requires InRange(d)
    ensures stats == Stats(1, 0, 1, 1)
    ensures batch == []
  {
    var g := new InsultGenerator();
    g.Load([], None);
    g.Generate(d);
    stats, batch := g.stats, g.batch;
  }

  /** One Rapid-Fire from a fresh mount: ten phrases, ten generated, the status line shown. */
  method RapidFireOnce(draws: seq<Draw>) returns (batchLength: nat, generated: nat, insult: string)
    requires |draws| == BatchSize
    requires forall k :: 0 <= k < |draws| ==> InRange(draws[k])
    ensures batchLength == 10 && generated == 10
    ensures insult == BatchReady
  {
    var g := new InsultGenerator();
    g.Load([], None);
    g.GenerateBatch(draws);
    batchLength, generated, insult := |g.batch|, g.stats.generated, g.insult;
  }

  /** Generate, Save, Save from a fresh mount: one favourite, the phrase shown, and one save counted. */
  method GenerateSaveSave(d: Draw) returns (favorites: seq<string>, saved: nat)
    requires InRange(d)
    ensures favorites == [RoastAt(d)]
    ensures saved == 1
  {
    var g := new InsultGenerator();
    g.Load([], None);
    g.Generate(d);
    RoastIsNotPlaceholder(Adjectives[d.adj], Nouns[d.noun]);
    assert CanSave(g.insult, g.favorites);
    g.SaveFavorite();
    g.SaveFavorite();
    favorites, saved := g.favorites, g.stats.saved;
  }

  /** Rapid-Fire, Save, Save from a fresh mount: the status line itself becomes a favourite, once. */
  method RapidFireSaveSave(draws: seq<Draw>) returns (favorites: seq<string>, saved: nat)
    requires |draws| == BatchSize
    requires forall k :: 0 <= k < |draws| ==> InRange(draws[k])
    ensures favorites == [BatchReady]
    ensures saved == 1
  {
    var g := new InsultGenerator();
    g.Load([], None);
    g.GenerateBatch(draws);
    g.SaveFavorite();
    g.SaveFavorite();
    favorites, saved := g.favorites, g.stats.saved;
  }

  /** Three Generates and a Reset Streak from a fresh mount: the streak is gone, the best streak and the count stay. */
  method GenerateThriceThenReset(d1: Draw, d2: Draw, d3: Draw) returns (stats: Stats)
    requires InRange(d1) && InRange(d2) && InRange(d3)
    ensures stats.streak == 0 && stats.bestStreak == 3 && stats.generated == 3
    ensures stats.saved == 0
  {
    var g := new InsultGenerator();
    g.Load([], None);
    g.Generate(d1);
    g.Generate(d2);
    g.Generate(d3);
    g.ResetStreak();
    stats := g.stats;
  }

  /** Save twice in a row, from any state, adds at most one favourite and one save: the second call is a no-op. */
  method SaveTwice(g: InsultGenerator)
    modifies g
    ensures g.favorites == old(g.favorites) + (if CanSave(old(g.insult), old(g.favorites)) then [old(g.insult)] else [])
    ensures g.stats == old(g.stats).(saved := old(g.stats.saved) + (if CanSave(old(g.insult), old(g.favorites)) then 1 else 0))
    ensures g.insult == old(g.insult) && g.batch == old(g.batch)
  {
    g.SaveFavorite();
    g.SaveFavorite();
  }
}
