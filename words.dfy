/**
 * The two fixed word lists of the droid insult generator, the phrase template
 * `${adj} ${noun}!`, and a recognizer for that template used as the reference
 * definition of a well-formed phrase.
 */
module Words {
  import opened Wrappers

  /** The twelve adjectives, in the order the component lists them. */
  const Adjectives: seq<string> := [
    "Rusty", "Jammed-up", "Overclocked", "Scrapheap", "Grease-soaked", "Wobbly",
    "Faulty", "Oil-leaking", "Sparking", "Misfiring", "Cheaply-built", "Clogged"
  ]

  /** The twelve nouns, in the order the component lists them. */
  const Nouns: seq<string> := [
    "Gear grinder", "Circuit-sniffer", "Wireback", "Servo-brain", "Bolt muncher",
    "Oil slurper", "Scrap pile", "Toaster", "Tin can", "Metalhead", "Clank-stack", "Fuse-blower"
  ]

  /** Rapid-Fire always draws this many phrases. */
  const BatchSize: nat := 10

  /**
   * One random draw: an adjective index and a noun index. The component computes
   * both as `Math.floor(Math.random() * list.length)`; here the caller supplies them.
   */
  datatype Draw = Draw(adj: nat, noun: nat)

  /** What `Math.floor(Math.random() * length)` always yields: an index into each list. */
  predicate InRange(d: Draw) {
    d.adj < |Adjectives| && d.noun < |Nouns|
  }

  /** The phrase template: adjective, one space, noun, exclamation mark. */
  function Roast(adj: string, noun: string): string {
    adj + " " + noun + "!"
  }

  /** The index of the first space of `p`, or `|p|` when there is none. */
  function FirstSpace(p: string): (k: nat)
    ensures k <= |p|
    ensures forall m :: 0 <= m < k ==> p[m] != ' '
    ensures k < |p| ==> p[k] == ' '
  {
    if p == [] || p[0] == ' ' then 0 else 1 + FirstSpace(p[1..])
  }

  /**
   * Reads a string back as the template: the part before the first space is the
   * adjective, the part between it and a final `!` is the noun.
   */
  function Split(p: string): Option<(string, string)> {
    var k := FirstSpace(p);
    if k + 2 <= |p| && p[|p| - 1] == '!' then Some((p[..k], p[k + 1..|p| - 1])) else None
  }

  /** A well-formed phrase: it splits into an adjective of the list and a noun of the list. */
  predicate IsRoast(p: string) {
    match Split(p)
    case Some((adj, noun)) => adj in Adjectives && noun in Nouns
    case None => false
  }

  /** No adjective contains a space, so the first space of a phrase ends its adjective. */
  lemma NoSpaceInAdjectives()
    ensures forall a :: a in Adjectives ==> ' ' !in a
  {
  }

  /** Reading back a phrase built from a space-free adjective gives the two words it was built from. */
  lemma SplitRoast(adj: string, noun: string)
    requires ' ' !in adj
    ensures Split(Roast(adj, noun)) == Some((adj, noun))
  {
    var p := Roast(adj, noun);
    assert p[|adj|] == ' ';
    var k := FirstSpace(p);
    assert k == |adj|;
    assert p[..k] == adj;
    assert p[k + 1..|p| - 1] == noun;
  }

  /** Whatever splits is the template applied to the two parts, the first of them space-free. */
  lemma SplitSound(p: string)
    ensures Split(p).Some? ==> ' ' !in Split(p).value.0 && p == Roast(Split(p).value.0, Split(p).value.1)
  {
  }

  /** The recognizer accepts exactly the phrases the template builds from the two lists. */
  lemma IsRoastIff(p: string)
    ensures IsRoast(p) <==> exists adj, noun :: adj in Adjectives && noun in Nouns && p == Roast(adj, noun)
  {
    if IsRoast(p) {
      SplitSound(p);
      var adj, noun := Split(p).value.0, Split(p).value.1;
      assert adj in Adjectives && noun in Nouns && p == Roast(adj, noun);
    }
    if exists adj, noun :: adj in Adjectives && noun in Nouns && p == Roast(adj, noun) {
      var adj, noun :| adj in Adjectives && noun in Nouns && p == Roast(adj, noun);
      NoSpaceInAdjectives();
      SplitRoast(adj, noun);
    }
  }

  /** Two phrases from the lists are equal only when they were built from the same two words. */
  lemma RoastInjective(a1: string, n1: string, a2: string, n2: string)
    requires a1 in Adjectives && a2 in Adjectives
    ensures Roast(a1, n1) == Roast(a2, n2) <==> a1 == a2 && n1 == n2
  {
    NoSpaceInAdjectives();
    SplitRoast(a1, n1);
    SplitRoast(a2, n2);
  }

  /** The phrase of one draw (one `${adj} ${noun}!`); it is always well-formed. */
  function RoastAt(d: Draw): (p: string)
    requires InRange(d)
    ensures IsRoast(p)
    ensures Split(p) == Some((Adjectives[d.adj], Nouns[d.noun]))
  {
    NoSpaceInAdjectives();
    SplitRoast(Adjectives[d.adj], Nouns[d.noun]);
    Roast(Adjectives[d.adj], Nouns[d.noun])
  }

  /**
   * The phrases of a sequence of draws, one per draw and in draw order, as
   * `Array.from` builds the Rapid-Fire batch.
   */
  function Roasts(draws: seq<Draw>): (r: seq<string>)
    requires forall k :: 0 <= k < |draws| ==> InRange(draws[k])
    ensures |r| == |draws|
    ensures forall k :: 0 <= k < |r| ==> r[k] == RoastAt(draws[k]) && IsRoast(r[k])
  {
    if draws == [] then [] else [RoastAt(draws[0])] + Roasts(draws[1..])
  }
}
