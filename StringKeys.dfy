/**
  The string keys `learnPrices` actually uses (utils/dataProcessor.ts:161 and 176): the key of a
  sample is `${product}|${location}|${date}` and each learned entry gets its fields back with
  `key.split('|')`. The rest of the model keys samples by the triple itself (`PriceLearning.Key`);
  this module shows where the two differ.
 */
module StringKeys {
  import opened PriceLearning

  const Bar: char := '|'

  /** `${product}|${location}|${date}` */
  function JoinKey(k: Key): string {
    k.0 + [Bar] + k.1 + [Bar] + k.2
  }

  /** The position of the first `|` in `s`. */
  function FirstBar(s: string): (i: nat)
    requires Bar in s
    ensures i < |s| && s[i] == Bar && Bar !in s[..i]
    decreases |s|
  {
    if s[0] == Bar then 0
    else
      assert Bar in s[1..] by {
        var j :| 0 <= j < |s| && s[j] == Bar;
        assert s[1..][j - 1] == Bar;
      }
      var i := 1 + FirstBar(s[1..]);
      assert s[..i] == [s[0]] + s[1..][..i - 1];
      i
  }

  /** `s.split('|')`: the pieces between the bars, in order; a string without a bar is one piece. */
  function Split(s: string): (r: seq<string>)
    ensures |r| >= 1
    ensures forall k :: 0 <= k < |r| ==> Bar !in r[k]
    decreases |s|
  {
    if Bar !in s then [s]
    else
      var i := FirstBar(s);
      [s[..i]] + Split(s[i + 1..])
  }

  /** `const [product, location, date] = key.split('|')` */
  function SplitKey(s: string): Key
    requires |Split(s)| >= 3
  {
    var parts := Split(s);
    (parts[0], parts[1], parts[2])
  }

  /** Splitting stops at the first bar: a first piece without a bar comes back whole. */
  lemma SplitAfter(a: string, b: string)
    requires Bar !in a
    ensures Split(a + [Bar] + b) == [a] + Split(b)
  {
    var s := a + [Bar] + b;
    assert s[|a|] == Bar;
    var i := FirstBar(s);
    assert s[..i] == a;
    assert s[i + 1..] == b;
  }

  /** When no field contains a bar, splitting the joined key gives the fields back. */
  lemma SplitJoin(k: Key)
    requires Bar !in k.0 && Bar !in k.1 && Bar !in k.2
    ensures |Split(JoinKey(k))| == 3 && SplitKey(JoinKey(k)) == k
  {
    assert JoinKey(k) == k.0 + [Bar] + (k.1 + [Bar] + k.2);
    SplitAfter(k.0, k.1 + [Bar] + k.2);
    SplitAfter(k.1, k.2);
  }

  /** Two different keys can join to the same string, so their samples are pooled into one price. */
  lemma JoinCollides()
    ensures ("A|B", "C", "1.1") != ("A", "B|C", "1.1")
    ensures JoinKey(("A|B", "C", "1.1")) == JoinKey(("A", "B|C", "1.1"))
  {
    assert ("A|B", "C", "1.1").0 != ("A", "B|C", "1.1").0;
  }

  /** A product with a bar in its name comes back under the wrong product, location and date. */
  lemma SplitMisreads()
    ensures |Split(JoinKey(("A|B", "L", "1.1")))| >= 3
    ensures SplitKey(JoinKey(("A|B", "L", "1.1"))) == ("A", "B", "L")
  {
    var s := JoinKey(("A|B", "L", "1.1"));
    assert s == "A" + [Bar] + ("B" + [Bar] + ("L" + [Bar] + "1.1"));
    SplitAfter("A", "B" + [Bar] + ("L" + [Bar] + "1.1"));
    SplitAfter("B", "L" + [Bar] + "1.1");
    SplitAfter("L", "1.1");
  }
}
