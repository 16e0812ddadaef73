/**
 * The `GET /welcome` payload (Program.cs, lines 34-49) and the
 * `POST /recommendations` sampler (lines 138-157), with its randomness made
 * explicit: a raw sample for the count and the order the shuffle puts the
 * catalog in.
 */
module Recommendations {

  /** The nine suggestions the sampler draws from. */
  const Catalog: seq<string> := [
    "Show me my profile",
    "Help with billing",
    "Contact support",
    "Upgrade my plan",
    "Show recent activity",
    "Reset my password",
    "Find documentation",
    "Open settings",
    "Log out"
  ]

  const WelcomeText: string := "Welcome! How can I help you today?"

  /** The welcome payload. */
  datatype Welcome = Welcome(message: string, recommendations: seq<string>)

  /** The welcome payload, a literal of its own in the source: its five suggestions are the first five of the catalog. */
  function WelcomePayload(): (w: Welcome)
    ensures w.message == WelcomeText
    ensures w.recommendations == Catalog[..5]
  {
    Welcome(WelcomeText, [
      "Show me my profile",
      "Help with billing",
      "Contact support",
      "Upgrade my plan",
      "Show recent activity"
    ])
  }

  /** No entry occurs twice. */
  predicate Distinct(s: seq<string>) {
    forall i, j :: 0 <= i < j < |s| ==> s[i] != s[j]
  }

  /** The catalog itself has no repeated entry. */
  lemma CatalogDistinct()
    ensures Distinct(Catalog)
  {
    // Entries are told apart by their length or their first two letters.
    assert |Catalog[0]| == 18 && Catalog[0][0] == 'S' && Catalog[0][1] == 'h';
    assert |Catalog[1]| == 17 && Catalog[1][0] == 'H' && Catalog[1][1] == 'e';
    assert |Catalog[2]| == 15 && Catalog[2][0] == 'C' && Catalog[2][1] == 'o';
    assert |Catalog[3]| == 15 && Catalog[3][0] == 'U' && Catalog[3][1] == 'p';
    assert |Catalog[4]| == 20 && Catalog[4][0] == 'S' && Catalog[4][1] == 'h';
    assert |Catalog[5]| == 17 && Catalog[5][0] == 'R' && Catalog[5][1] == 'e';
    assert |Catalog[6]| == 18 && Catalog[6][0] == 'F' && Catalog[6][1] == 'i';
    assert |Catalog[7]| == 13 && Catalog[7][0] == 'O' && Catalog[7][1] == 'p';
    assert |Catalog[8]| == 7 && Catalog[8][0] == 'L' && Catalog[8][1] == 'o';
  }

  /**
   * `Random.Next(minValue, maxValue)` for a raw random sample: a value in
   * [minValue, maxValue), the upper bound excluded, or minValue when the two
   * bounds are equal.
   */
  function NextInt(minValue: int, maxValue: int, sample: nat): (r: int)
    requires minValue <= maxValue
    ensures minValue <= r
    ensures r < maxValue || r == minValue == maxValue
  {
    if minValue == maxValue then minValue else minValue + sample % (maxValue - minValue)
  }

  /** Every value of the range is drawn by some sample. */
  lemma NextIntCovers(minValue: int, maxValue: int, r: int)
    requires minValue <= r < maxValue
    ensures exists sample: nat :: NextInt(minValue, maxValue, sample) == r
  {
    assert NextInt(minValue, maxValue, r - minValue) == r;
  }

  /** `order` lists every index below n exactly once. */
  predicate IsPermutation(order: seq<nat>, n: nat) {
    && |order| == n
    && (forall i :: 0 <= i < n ==> order[i] < n)
    && (forall i, j :: 0 <= i < j < n ==> order[i] != order[j])
  }

  /** The catalog rearranged by `order`: `OrderBy` with random keys. */
  function Shuffle(items: seq<string>, order: seq<nat>): (r: seq<string>)
    requires IsPermutation(order, |items|)
    ensures |r| == |items|
    ensures forall i :: 0 <= i < |r| ==> r[i] == items[order[i]]
  {
    seq(|items|, i requires 0 <= i < |items| => items[order[i]])
  }

  /** Rearranging a list without repeats gives a list without repeats. */
  lemma ShuffleDistinct(items: seq<string>, order: seq<nat>)
    requires IsPermutation(order, |items|)
    requires Distinct(items)
    ensures Distinct(Shuffle(items, order))
  {
    var r := Shuffle(items, order);
    forall i, j | 0 <= i < j < |r| ensures r[i] != r[j] {
      assert order[i] != order[j];
    }
  }

  /**
   * The sampler: a count drawn by `Next(2, 6)`, then the first that many
   * entries of the shuffled catalog.
   */
  function Recommend(countSample: nat, order: seq<nat>): (r: seq<string>)
    requires IsPermutation(order, |Catalog|)
    ensures |r| == NextInt(2, 6, countSample)
    ensures 2 <= |r| <= 5
    ensures r == Shuffle(Catalog, order)[..|r|]
    ensures Distinct(r)
    ensures forall i :: 0 <= i < |r| ==> r[i] in Catalog
  {
    var count := NextInt(2, 6, countSample);
    CatalogDistinct();
    ShuffleDistinct(Catalog, order);
    Shuffle(Catalog, order)[..count]
  }

  /** Every count from 2 to 5 is what some draw returns, whatever the order. */
  lemma RecommendCounts(order: seq<nat>, count: int)
    requires IsPermutation(order, |Catalog|)
    requires 2 <= count <= 5
    ensures exists countSample: nat :: |Recommend(countSample, order)| == count
  {
    assert |Recommend(count - 2, order)| == count;
  }

  /** The catalog in its own order. */
  function Identity(n: nat): (r: seq<nat>)
    ensures IsPermutation(r, n)
    ensures forall i :: 0 <= i < n ==> r[i] == i
  {
    seq(n, i requires 0 <= i < n => i)
  }

  /** Unshuffled and with the count 5, the sampler returns exactly the welcome suggestions. */
  lemma WelcomeIsUnshuffledSample()
    ensures Recommend(3, Identity(|Catalog|)) == WelcomePayload().recommendations
  {
    var r := Recommend(3, Identity(|Catalog|));
    assert |r| == 5;
    assert forall i :: 0 <= i < 5 ==> r[i] == Catalog[i];
  }
}
