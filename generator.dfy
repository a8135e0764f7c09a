/**
 * The state machine of the droid insult generator: the display string, the
 * favourites, the Rapid-Fire batch and the usage statistics, with the four user
 * actions, the statistics update they funnel through, hydration from storage,
 * and the pie-chart data derived from the statistics.
 */
module Generator {
  import opened Wrappers
  import opened Words

  /** The prompt shown before anything is generated; it can never be saved. */
  const Placeholder: string := "Click below to roast a clanker!"

  /** The status line shown after Rapid-Fire; the save guard does not exclude it. */
  const BatchReady: string := "Batch of insults ready!"

  /** The persisted usage statistics. */
  datatype Stats = Stats(generated: nat, saved: nat, streak: nat, bestStreak: nat)

  /** Which counter an update is for. */
  datatype StatKind = Generated | Saved

  /** One slice of the pie chart. */
  datatype Slice = Slice(name: string, value: nat)

  function Max(a: nat, b: nat): (m: nat)
    ensures a <= m && b <= m
    ensures m == a || m == b
  {
    if a < b then b else a
  }

  /** The chart data: the generated count, then the saved count, under their labels. */
  function PieData(s: Stats): seq<Slice> {
    [Slice("Generated", s.generated), Slice("Saved", s.saved)]
  }

  /**
   * From chart `before` to chart `after`: the same two labels in the same order,
   * the first slice grown by `generated` and the second by `saved`.
   */
  predicate ChartMoved(before: seq<Slice>, after: seq<Slice>, generated: nat, saved: nat) {
    |before| == 2 && |after| == 2
    && after[0].name == before[0].name == "Generated" && after[1].name == before[1].name == "Saved"
    && after[0].value == before[0].value + generated && after[1].value == before[1].value + saved
  }

  /** The entries of `s` are pairwise distinct. */
  predicate NoDuplicates(s: seq<string>) {
    forall i, j :: 0 <= i < j < |s| ==> s[i] != s[j]
  }

  /** What the save guard keeps out of the favourites: repeats, the empty string and the placeholder. */
  predicate FavoritesOk(favorites: seq<string>) {
    NoDuplicates(favorites) && "" !in favorites && Placeholder !in favorites
  }

  /** The save guard: the display string is non-empty, not the placeholder, and not yet saved. */
  predicate CanSave(insult: string, favorites: seq<string>) {
    insult != "" && insult != Placeholder && insult !in favorites
  }

  /** No phrase of the template equals the placeholder, so a fresh phrase always passes the first two save checks. */
  lemma RoastIsNotPlaceholder(adj: string, noun: string)
    requires adj in Adjectives
    ensures Roast(adj, noun) != Placeholder && Roast(adj, noun) != ""
  {
    // no adjective has an 'i' as its third letter, as "Click" does
    assert forall a :: a in Adjectives ==> |a| > 2 && a[2] != Placeholder[2];
    assert Roast(adj, noun)[2] == adj[2];
  }

  /**
   * What the screen can show: the status line over a full batch, or the
   * placeholder or a single phrase with no batch. In particular the batch
   * holds either no phrase or exactly `BatchSize` of them.
   */
  predicate ScreenOk(insult: string, batch: seq<string>) {
    (insult == BatchReady && |batch| == BatchSize && forall k :: 0 <= k < |batch| ==> IsRoast(batch[k]))
    || (batch == [] && (insult == Placeholder || IsRoast(insult)))
  }

  /** Every valid state has no batch or a batch of exactly `BatchSize` phrases. */
  lemma BatchEmptyOrFull(g: InsultGenerator)
    requires g.Valid()
    ensures |g.batch| == 0 || |g.batch| == BatchSize
  {
  }

  class InsultGenerator {
    var insult: string
    var favorites: seq<string>
    var batch: seq<string>
    var stats: Stats

    /** The invariant every action keeps: best streak at least the streak, a clean favourites list, a consistent screen. */
    ghost predicate Valid()
      reads this
    {
      stats.streak <= stats.bestStreak && FavoritesOk(favorites) && ScreenOk(insult, batch)
    }

    /** The state at mount, before hydration. */
    constructor ()
      ensures Valid()
      ensures insult == Placeholder && favorites == [] && batch == []
      ensures stats == Stats(0, 0, 0, 0)
    {
      insult := Placeholder;
      favorites := [];
      batch := [];
      stats := Stats(0, 0, 0, 0);
    }

    /**
     * Hydration. A stored favourites list replaces the current one only when it
     * is non-empty; stored statistics replace the current ones only when present.
     * Nothing checks the stored data, so the invariant survives only when it holds
     * of that data.
     */
    method Load(storedFavorites: seq<string>, storedStats: Option<Stats>)
      modifies this`favorites, this`stats
      ensures favorites == if |storedFavorites| > 0 then storedFavorites else old(favorites)
      ensures stats == if storedStats.Some? then storedStats.value else old(stats)
      ensures old(Valid()) && FavoritesOk(storedFavorites)
              && (storedStats.Some? ==> storedStats.value.streak <= storedStats.value.bestStreak)
              ==> Valid()
    {
      if |storedFavorites| > 0 {
        favorites := storedFavorites;
      }
      if storedStats.Some? {
        stats := storedStats.value;
      }
    }

    /**
     * The counter update every action funnels through: a copy of the previous
     * statistics, changed field by field. A generated update adds `amount` to the
     * generated count and to the streak and lifts the best streak to the streak;
     * a saved update adds `amount` to the saved count.
     */
    method UpdateStats(kind: StatKind, amount: nat)
      modifies this`stats
      ensures kind == Generated ==>
        stats == Stats(old(stats.generated) + amount, old(stats.saved), old(stats.streak) + amount,
                       Max(old(stats.bestStreak), old(stats.streak) + amount))
      ensures kind == Saved ==> stats == old(stats).(saved := old(stats.saved) + amount)
      ensures old(stats.streak <= stats.bestStreak) ==> stats.streak <= stats.bestStreak
    {
      var next := stats;
      if kind == Generated {
        next := next.(generated := next.generated + amount);
        next := next.(streak := next.streak + amount);
        if next.streak > next.bestStreak {
          next := next.(bestStreak := next.streak);
        }
      } else {
        next := next.(saved := next.saved + amount);
      }
      stats := next;
    }

    /** Generate: show the phrase of draw `d`, clear the batch, count one generated phrase. */
    method Generate(d: Draw)
      requires InRange(d)
      modifies this`insult, this`batch, this`stats
      ensures insult == Roast(Adjectives[d.adj], Nouns[d.noun]) && IsRoast(insult)
      ensures batch == []
      ensures stats == Stats(old(stats.generated) + 1, old(stats.saved), old(stats.streak) + 1,
                             Max(old(stats.bestStreak), old(stats.streak) + 1))
      ensures ChartMoved(PieData(old(stats)), PieData(stats), 1, 0)
      ensures old(Valid()) ==> Valid()
    {
      var phrase := RoastAt(d);
      insult := phrase;
      batch := [];
      UpdateStats(Generated, 1);
    }

    /** Rapid-Fire: show a batch of ten phrases, one per draw, under the status line, and count ten generated phrases. */
    method GenerateBatch(draws: seq<Draw>)
      requires |draws| == BatchSize
      requires forall k :: 0 <= k < |draws| ==> InRange(draws[k])
      modifies this`insult, this`batch, this`stats
      ensures |batch| == BatchSize
      ensures forall k :: 0 <= k < BatchSize ==>
        batch[k] == RoastAt(draws[k]) && IsRoast(batch[k])
      ensures insult == BatchReady
      ensures stats == Stats(old(stats.generated) + BatchSize, old(stats.saved), old(stats.streak) + BatchSize,
                             Max(old(stats.bestStreak), old(stats.streak) + BatchSize))
      ensures ChartMoved(PieData(old(stats)), PieData(stats), BatchSize, 0)
      ensures old(Valid()) ==> Valid()
    {
      var phrases := Roasts(draws);
      batch := phrases;
      insult := BatchReady;
      UpdateStats(Generated, BatchSize);
    }

    /**
     * Save: when the guard admits the display string, append it to the favourites
     * and count one saved phrase; otherwise change nothing.
     */
    method SaveFavorite()
      modifies this`favorites, this`stats
      ensures CanSave(insult, old(favorites)) ==>
        favorites == old(favorites) + [insult] && stats == old(stats).(saved := old(stats.saved) + 1)
      ensures !CanSave(insult, old(favorites)) ==> favorites == old(favorites) && stats == old(stats)
      ensures old(favorites) <= favorites
      ensures !CanSave(insult, favorites)
      ensures ChartMoved(PieData(old(stats)), PieData(stats), 0, if CanSave(insult, old(favorites)) then 1 else 0)
      ensures old(Valid()) ==> Valid()
    {
      if insult != "" && insult != Placeholder && insult !in favorites {
        favorites := favorites + [insult];
        UpdateStats(Saved, 1);
      }
    }

    /** Reset Streak: only the streak goes back to zero. */
    method ResetStreak()
      modifies this`stats
      ensures stats == old(stats).(streak := 0)
      ensures PieData(stats) == PieData(old(stats))
      ensures old(Valid()) ==> Valid()
    {
      stats := stats.(streak := 0);
    }
  }
}
