/** Card patterns, the order between them, and the point value of cards.

    A card is one byte: the low four bits are its value (1 is the ace, 13 the king) and
    the high four bits its suit.  A set of cards is judged by the bag of its values only. */
module Cards {

  type byte = b: nat | b < 256

  datatype Option<+T> = None | Some(value: T)

  const MIN_VALUE := 1
  const MAX_VALUE := 13
  const MIN_BOMB := 4

  function Value(card: byte): nat { card % 16 }

  function Suit(card: byte): nat { card / 16 }

  ghost function ValueBag(cards: seq<byte>): multiset<nat>
  {
    if cards == [] then multiset{}
    else ValueBag(cards[..|cards| - 1]) + multiset{Value(cards[|cards| - 1])}
  }

  datatype Kind = Single | Pair | Triple | ThreeTwo | Bomb

  datatype Pattern = Pattern(kind: Kind, rank: nat, count: nat)

  // ---------------------------------------------------------------------------------
  // What a bag of values is worth, independent of how it is computed
  // ---------------------------------------------------------------------------------

  ghost predicate LegalBag(m: multiset<nat>)
  {
    m != multiset{} && PlayingValues(m)
  }

  ghost predicate PlayingValues(m: multiset<nat>)
  {
    forall v :: v in m ==> MIN_VALUE <= v <= MAX_VALUE
  }

  ghost predicate CountsOf(counts: seq<nat>, m: multiset<nat>)
  {
    |counts| == 14 && forall v :: 0 <= v < 14 ==> counts[v] == m[v]
  }

  ghost predicate UniformBag(m: multiset<nat>, v: nat)
  {
    v in m && m[v] == |m|
  }

  ghost predicate FullHouse(m: multiset<nat>, t: nat, p: nat)
  {
    |m| == 5 && m[t] == 3 && m[p] == 2
  }

  function UniformKind(n: nat): Kind
  {
    if n == 1 then Single else if n == 2 then Pair else if n == 3 then Triple else Bomb
  }

  /** The pattern of a bag of values: all equal, or a triple with a pair. */
  ghost function BagPattern(m: multiset<nat>): Option<Pattern>
  {
    if !LegalBag(m) then None
    else if exists v :: UniformBag(m, v) then
      var v :| UniformBag(m, v);
      Some(Pattern(UniformKind(|m|), v, |m|))
    else if exists t, p :: FullHouse(m, t, p) then
      var t, p :| FullHouse(m, t, p);
      Some(Pattern(ThreeTwo, t, 5))
    else None
  }

  ghost function PatternOf(cards: seq<byte>): Option<Pattern> { BagPattern(ValueBag(cards)) }

  function LogicValue(value: nat): nat { if value < 3 then value + 13 else value }

  function Sign(a: int, b: int): int { if a > b then 1 else if a < b then -1 else 0 }

  function ComparePatterns(a: Option<Pattern>, b: Option<Pattern>): int
  {
    if a.None? || b.None? then 0
    else if a.value.kind != b.value.kind then
      if a.value.kind == Bomb then 1 else if b.value.kind == Bomb then -1 else 0
    else if a.value.kind == Bomb && a.value.count != b.value.count then
      Sign(a.value.count, b.value.count)
    else Sign(LogicValue(a.value.rank), LogicValue(b.value.rank))
  }

  ghost function Compare(a: seq<byte>, b: seq<byte>): int
  {
    ComparePatterns(PatternOf(a), PatternOf(b))
  }

  ghost predicate Beats(a: seq<byte>, b: seq<byte>) { Compare(a, b) > 0 }

  // ---------------------------------------------------------------------------------
  // Bags
  // ---------------------------------------------------------------------------------

  lemma {:induction false} ValueBagSize(cards: seq<byte>)
    ensures |ValueBag(cards)| == |cards|
  {
    if cards != [] { ValueBagSize(cards[..|cards| - 1]); }
  }

  lemma {:induction false} ValueBagIn(cards: seq<byte>, v: nat)
    ensures v in ValueBag(cards) <==> exists i :: 0 <= i < |cards| && Value(cards[i]) == v
  {
    if cards != [] {
      var n := |cards| - 1;
      ValueBagIn(cards[..n], v);
      if exists i :: 0 <= i < |cards| && Value(cards[i]) == v {
        var i :| 0 <= i < |cards| && Value(cards[i]) == v;
        if i < n { assert cards[..n][i] == cards[i]; }
      }
    }
  }

  lemma ValueBagStep(cards: seq<byte>, i: nat)
    requires i < |cards|
    ensures ValueBag(cards[..i + 1]) == ValueBag(cards[..i]) + multiset{Value(cards[i])}
  {
    assert cards[..i + 1][..i] == cards[..i];
  }

  lemma TwoCounts(m: multiset<nat>, u: nat, v: nat)
    requires u != v
    ensures m[u] + m[v] <= |m|
  {
    var a := multiset{}[u := m[u]][v := m[v]];
    assert m == a + (m - a);
  }

  /** A bag has at most one pattern, so a chosen witness is the pattern. */
  lemma PatternByUniform(m: multiset<nat>, v: nat)
    requires LegalBag(m) && UniformBag(m, v)
    ensures BagPattern(m) == Some(Pattern(UniformKind(|m|), v, |m|))
  {
    var w :| UniformBag(m, w) && BagPattern(m) == Some(Pattern(UniformKind(|m|), w, |m|));
    if w != v { TwoCounts(m, w, v); }
  }

  lemma PatternByFullHouse(m: multiset<nat>, t: nat, p: nat)
    requires LegalBag(m) && FullHouse(m, t, p)
    ensures BagPattern(m) == Some(Pattern(ThreeTwo, t, 5))
  {
    if exists v :: UniformBag(m, v) {
      var v :| UniformBag(m, v);
      TwoCounts(m, v, if v == t then p else t);
      assert false;
    }
    var t', p' :| FullHouse(m, t', p') && BagPattern(m) == Some(Pattern(ThreeTwo, t', 5));
    if t' != t { TwoCounts(m, t', t); }
  }

  ghost function SumTo(m: multiset<nat>, k: nat): nat
  {
    if k <= 1 then 0 else SumTo(m, k - 1) + m[k - 1]
  }

  lemma {:induction false} SumToZero(m: multiset<nat>, k: nat)
    requires forall v :: v in m ==> k <= v
    ensures SumTo(m, k) == 0
  {
    if k > 1 {
      assert k - 1 !in m;
      SumToZero(m, k - 1);
    }
  }

  lemma {:induction false} SumToAll(m: multiset<nat>, k: nat)
    requires forall v :: v in m ==> 1 <= v < k
    ensures SumTo(m, k) == |m|
  {
    if k <= 1 {
      assert m == multiset{};
    } else {
      var rest := m[k - 1 := 0];
      SumToAll(rest, k - 1);
      SumToSame(m, rest, k - 1);
      assert |m| == |rest| + m[k - 1];
    }
  }

  lemma {:induction false} SumToSame(a: multiset<nat>, b: multiset<nat>, k: nat)
    requires forall v :: 1 <= v < k ==> a[v] == b[v]
    ensures SumTo(a, k) == SumTo(b, k)
  {
    if k > 1 { SumToSame(a, b, k - 1); }
  }

  // ---------------------------------------------------------------------------------
  // The order between sets of cards
  // ---------------------------------------------------------------------------------

  lemma CompareAntisymmetric(a: seq<byte>, b: seq<byte>)
    ensures Compare(a, b) == -Compare(b, a)
  {
  }

  /** `Beats` is a strict partial order, and it looks at the bag of values only. */
  lemma BeatsIsStrictOrder(a: seq<byte>, b: seq<byte>, c: seq<byte>)
    ensures !Beats(a, a)
    ensures Beats(a, b) ==> !Beats(b, a)
    ensures Beats(a, b) && Beats(b, c) ==> Beats(a, c)
    ensures ValueBag(a) == ValueBag(c) ==> (Beats(a, b) <==> Beats(c, b)) && (Beats(b, a) <==> Beats(b, c))
  {
    PatternOrder(PatternOf(a), PatternOf(b), PatternOf(c));
  }

  lemma PatternOrder(a: Option<Pattern>, b: Option<Pattern>, c: Option<Pattern>)
    ensures ComparePatterns(a, a) == 0
    ensures ComparePatterns(a, b) > 0 ==> ComparePatterns(b, a) < 0
    ensures ComparePatterns(a, b) > 0 && ComparePatterns(b, c) > 0 ==> ComparePatterns(a, c) > 0
  {
  }

  lemma BagPatternRange(m: multiset<nat>)
    ensures BagPattern(m).Some? ==>
              && MIN_VALUE <= BagPattern(m).value.rank <= MAX_VALUE
              && BagPattern(m).value.count == |m|
              && (BagPattern(m).value.kind == Bomb ==> |m| >= MIN_BOMB)
  {
    if BagPattern(m).Some? {
      if exists v :: UniformBag(m, v) {
        var v :| UniformBag(m, v);
        PatternByUniform(m, v);
        assert v in m;
      } else {
        var t, p :| FullHouse(m, t, p);
        PatternByFullHouse(m, t, p);
        assert t in m;
      }
    }
  }

  /** Two legal sets of one kind and size tie exactly when their ranks are equal, so the
      order is total on each such class. */
  lemma CompareTie(a: seq<byte>, b: seq<byte>)
    requires PatternOf(a).Some? && PatternOf(b).Some?
    requires PatternOf(a).value.kind == PatternOf(b).value.kind
    requires PatternOf(a).value.count == PatternOf(b).value.count
    ensures Compare(a, b) == 0 <==> PatternOf(a) == PatternOf(b)
  {
    BagPatternRange(ValueBag(a));
    BagPatternRange(ValueBag(b));
  }

  lemma SingleCardPattern(card: byte)
    requires MIN_VALUE <= Value(card) <= MAX_VALUE
    ensures PatternOf([card]) == Some(Pattern(Single, Value(card), 1))
  {
    var m := ValueBag([card]);
    assert ValueBag([card][..0]) == multiset{};
    assert m == multiset{Value(card)};
    PatternByUniform(m, Value(card));
  }

  // ---------------------------------------------------------------------------------
  // The loops that compute the pattern
  // ---------------------------------------------------------------------------------

  method Classify(cards: seq<byte>) returns (p: Option<Pattern>)
    ensures p == PatternOf(cards)
  {
    ghost var m := ValueBag(cards);
    ValueBagSize(cards);
    if |cards| == 0 {
      return None;
    }
    var legal, counts := Tally(cards);
    if !legal {
      return None;
    }
    assert LegalBag(m);
    var unique, triple, pair := Census(counts, m);
    var first := FirstValue(counts);
    CensusPattern(m, unique, triple, pair, first);
    if |cards| >= MIN_BOMB && unique == 1 {
      return Some(Pattern(Bomb, first, |cards|));
    } else if |cards| == 2 && unique == 1 {
      return Some(Pattern(Pair, first, |cards|));
    } else if |cards| == 3 && unique == 1 {
      return Some(Pattern(Triple, first, |cards|));
    } else if |cards| == 5 && triple != 0 && pair != 0 {
      return Some(Pattern(ThreeTwo, triple, |cards|));
    } else if |cards| == 1 {
      return Some(Pattern(Single, first, |cards|));
    }
    return None;
  }

  /** Counts each value, stopping at the first card whose value is not a playing value. */
  method Tally(cards: seq<byte>) returns (legal: bool, counts: array<nat>)
    ensures fresh(counts) && counts.Length == 14
    ensures legal <==> PlayingValues(ValueBag(cards))
    ensures legal ==> CountsOf(counts[..], ValueBag(cards))
  {
    counts := new nat[14](_ => 0);
    ghost var bag := multiset{};
    assert cards[..0] == [] && CountsOf(counts[..], bag);
    for i := 0 to |cards|
      invariant bag == ValueBag(cards[..i])
      invariant PlayingValues(bag) && CountsOf(counts[..], bag)
    {
      var value := Value(cards[i]);
      if value < MIN_VALUE || value > MAX_VALUE {
        NotPlaying(cards, i);
        return false, counts;
      }
      ValueBagStep(cards, i);
      CountNext(counts[..], bag, value);
      ghost var next := counts[..][value := counts[value] + 1];
      bag := bag + multiset{value};
      counts[value] := counts[value] + 1;
      assert counts[..] == next;
    }
    assert cards[..|cards|] == cards;
    legal := true;
  }

  lemma NotPlaying(cards: seq<byte>, i: nat)
    requires i < |cards| && !(MIN_VALUE <= Value(cards[i]) <= MAX_VALUE)
    ensures !PlayingValues(ValueBag(cards))
  {
    ValueBagIn(cards, Value(cards[i]));
    assert Value(cards[i]) in ValueBag(cards);
  }

  lemma CountNext(counts: seq<nat>, bag: multiset<nat>, value: nat)
    requires PlayingValues(bag) && CountsOf(counts, bag) && MIN_VALUE <= value <= MAX_VALUE
    ensures PlayingValues(bag + multiset{value}) && CountsOf(counts[value := counts[value] + 1], bag + multiset{value})
  {
  }

  /** The counters decide the pattern. */
  lemma CensusPattern(m: multiset<nat>, unique: nat, triple: nat, pair: nat, first: nat)
    requires LegalBag(m) && unique >= 1
    requires unique == 1 ==> exists v :: v in m && m[v] == SumTo(m, 14)
    requires unique >= 2 ==> exists u, v :: u != v && u in m && v in m
    requires if triple == 0 then forall t :: m[t] != 3 else m[triple] == 3
    requires if pair == 0 then forall q :: m[q] != 2 else m[pair] == 2
    requires if first == 0 then forall v :: 1 <= v < 14 ==> m[v] == 0 else first in m
    ensures BagPattern(m) ==
            if unique == 1 then Some(Pattern(UniformKind(|m|), first, |m|))
            else if |m| == 5 && triple != 0 && pair != 0 then Some(Pattern(ThreeTwo, triple, 5))
            else None
    ensures |m| == 1 ==> unique == 1
  {
    SumToAll(m, 14);
    if unique == 1 {
      UniformFromCensus(m, first);
    } else {
      var u, w :| u != w && u in m && w in m;
      TwoCounts(m, u, w);
      forall v | UniformBag(m, v) ensures false {
        TwoCounts(m, v, if v == u then w else u);
      }
      if |m| == 5 && triple != 0 && pair != 0 {
        PatternByFullHouse(m, triple, pair);
      } else {
        assert !exists t, q :: FullHouse(m, t, q);
      }
    }
  }

  /** The scan over the counters: how many values occur, and a value that occurs three
      times and one that occurs twice (0 when there is none). */
  method Census(counts: array<nat>, ghost m: multiset<nat>) returns (unique: nat, triple: nat, pair: nat)
    requires CountsOf(counts[..], m) && LegalBag(m)
    ensures unique >= 1
    ensures unique == 1 ==> exists v :: v in m && m[v] == SumTo(m, 14)
    ensures unique >= 2 ==> exists u, v :: u != v && u in m && v in m
    ensures triple != 0 ==> m[triple] == 3
    ensures pair != 0 ==> m[pair] == 2
    ensures triple == 0 ==> forall t :: m[t] != 3
    ensures pair == 0 ==> forall q :: m[q] != 2
  {
    unique, triple, pair := 0, 0, 0;
    for value := 1 to 14
      invariant unique == 0 ==> SumTo(m, value) == 0 && forall v :: v in m ==> value <= v
      invariant unique == 1 ==> exists v :: v in m && v < value && m[v] == SumTo(m, value)
      invariant unique >= 2 ==> exists u, v :: u != v && u in m && v in m
      invariant triple != 0 ==> m[triple] == 3
      invariant pair != 0 ==> m[pair] == 2
      invariant triple == 0 ==> forall t :: t < value ==> m[t] != 3
      invariant pair == 0 ==> forall q :: q < value ==> m[q] != 2
    {
      if counts[value] == 0 {
        continue;
      }
      assert value in m;
      unique := unique + 1;
      if counts[value] == 3 {
        triple := value;
      }
      if counts[value] == 2 {
        pair := value;
      }
    }
    assert unique != 0 by {
      assert exists v :: v in m;
    }
    assert forall t :: t >= 14 ==> t !in m;
  }

  method FirstValue(counts: array<nat>) returns (first: nat)
    requires counts.Length == 14
    ensures first <= MAX_VALUE
    ensures first == 0 ==> forall v :: 1 <= v < 14 ==> counts[v] == 0
    ensures first != 0 ==> counts[first] != 0 && forall v :: 1 <= v < first ==> counts[v] == 0
  {
    for value := 1 to 14
      invariant forall v :: 1 <= v < value ==> counts[v] == 0
    {
      if counts[value] != 0 {
        return value;
      }
    }
    return 0;
  }

  lemma UniformFromCensus(m: multiset<nat>, first: nat)
    requires LegalBag(m) && exists v :: v in m && m[v] == |m|
    requires first == 0 ==> forall v :: 1 <= v < 14 ==> m[v] == 0
    requires first != 0 ==> first in m
    ensures BagPattern(m) == Some(Pattern(UniformKind(|m|), first, |m|))
  {
    var v :| v in m && m[v] == |m|;
    if first != v { TwoCounts(m, first, v); }
    PatternByUniform(m, v);
  }

  method CompareCardSets(higher: seq<byte>, lower: seq<byte>) returns (r: int)
    ensures r == Compare(higher, lower)
  {
    var h := Classify(higher);
    var l := Classify(lower);
    r := ComparePatterns(h, l);
  }

  // ---------------------------------------------------------------------------------
  // Points
  // ---------------------------------------------------------------------------------

  function PointOf(card: byte): (p: nat)
    ensures p <= 10
  {
    if Suit(card) > 4 then 0
    else if Value(card) == 5 then 5
    else if Value(card) == 10 || Value(card) == 13 then 10
    else 0
  }

  ghost function Points(cards: seq<byte>): nat
  {
    if cards == [] then 0 else Points(cards[..|cards| - 1]) + PointOf(cards[|cards| - 1])
  }

  ghost function ScoreCards(cards: seq<byte>): seq<byte>
  {
    if cards == [] then []
    else
      var last := cards[|cards| - 1];
      ScoreCards(cards[..|cards| - 1]) + if PointOf(last) > 0 then [last] else []
  }

  lemma {:induction false} PointsConcat(a: seq<byte>, b: seq<byte>)
    ensures Points(a + b) == Points(a) + Points(b)
  {
    if b == [] {
      assert a + b == a;
    } else {
      assert (a + b)[..|a + b| - 1] == a + b[..|b| - 1];
      PointsConcat(a, b[..|b| - 1]);
    }
  }

  /** Keeping only the scoring cards keeps every point. */
  lemma {:induction false} ScoreCardsKeepPoints(cards: seq<byte>)
    ensures Points(ScoreCards(cards)) == Points(cards)
  {
    if cards != [] {
      var last := cards[|cards| - 1];
      ScoreCardsKeepPoints(cards[..|cards| - 1]);
      PointsConcat(ScoreCards(cards[..|cards| - 1]), if PointOf(last) > 0 then [last] else []);
      assert [last][..0] == [];
    }
  }

  lemma {:induction false} PointsAtMost(cards: seq<byte>)
    ensures Points(cards) <= 10 * |cards|
  {
    if cards != [] { PointsAtMost(cards[..|cards| - 1]); }
  }

  /** The points of a bag of cards, one card code at a time. */
  ghost function BagPoints(m: multiset<byte>, k: nat): nat
    requires k <= 256
  {
    if k == 0 then 0 else BagPoints(m, k - 1) + m[k - 1] * PointOf(k - 1)
  }

  lemma {:induction false} BagPointsAdd(m: multiset<byte>, card: byte, k: nat)
    requires k <= 256
    ensures BagPoints(m + multiset{card}, k) == BagPoints(m, k) + if card < k then PointOf(card) else 0
  {
    if k > 0 {
      BagPointsAdd(m, card, k - 1);
      var n := m[k - 1];
      if card == k - 1 {
        assert (m + multiset{card})[k - 1] == n + 1;
        assert (n + 1) * PointOf(card) == n * PointOf(card) + PointOf(card);
      }
    }
  }

  lemma {:induction false} BagPointsUnion(a: multiset<byte>, b: multiset<byte>, k: nat)
    requires k <= 256
    ensures BagPoints(a + b, k) == BagPoints(a, k) + BagPoints(b, k)
  {
    if k > 0 {
      BagPointsUnion(a, b, k - 1);
      assert (a + b)[k - 1] * PointOf(k - 1) == a[k - 1] * PointOf(k - 1) + b[k - 1] * PointOf(k - 1);
    }
  }

  lemma {:induction false} BagPointsEmpty(k: nat)
    requires k <= 256
    ensures BagPoints(multiset{}, k) == 0
  {
    if k > 0 { BagPointsEmpty(k - 1); }
  }

  lemma {:induction false} PointsAreBagPoints(cards: seq<byte>)
    ensures Points(cards) == BagPoints(multiset(cards), 256)
  {
    if cards == [] {
      BagPointsEmpty(256);
    } else {
      var n := |cards| - 1;
      PointsAreBagPoints(cards[..n]);
      assert cards == cards[..n] + [cards[n]];
      assert multiset(cards) == multiset(cards[..n]) + multiset{cards[n]};
      BagPointsAdd(multiset(cards[..n]), cards[n], 256);
    }
  }

  /** Points do not depend on the order of the cards. */
  lemma PointsPermute(a: seq<byte>, b: seq<byte>)
    requires multiset(a) == multiset(b)
    ensures Points(a) == Points(b)
  {
    PointsAreBagPoints(a);
    PointsAreBagPoints(b);
  }

  const U32 := 0x1_0000_0000

  method ScoreCardsIn(cards: seq<byte>) returns (score: nat, scoring: seq<byte>)
    ensures score == Points(cards) % U32
    ensures scoring == ScoreCards(cards)
  {
    score, scoring := 0, [];
    for i := 0 to |cards|
      invariant score == Points(cards[..i]) % U32
      invariant scoring == ScoreCards(cards[..i])
    {
      var card := cards[i];
      assert cards[..i + 1][..i] == cards[..i];
      ModAdd(Points(cards[..i]), PointOf(card));
      if Suit(card) > 4 {
        continue;
      }
      if Value(card) == 5 {
        score := (score + 5) % U32;
        scoring := scoring + [card];
      } else if Value(card) == 10 || Value(card) == 13 {
        score := (score + 10) % U32;
        scoring := scoring + [card];
      }
    }
    assert cards[..|cards|] == cards;
  }

  lemma ModAdd(a: nat, b: nat)
    ensures (a % U32 + b) % U32 == (a + b) % U32
  {
    assert a == a / U32 * U32 + a % U32;
  }
}
