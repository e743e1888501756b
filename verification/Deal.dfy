/** Building, adjusting and dealing the deck.

    The deck is one array laid out seat after seat.  The adjustment swaps single cards of a
    seat for cards that pair up with what the seat already holds, in place. */
module Deal {
  import opened Cards

  const HAND_SIZE := 26
  const SEATS := 4
  const DECK_SIZE := 104
  const SUITS: nat := 4

  // ---------------------------------------------------------------------------------
  // Bags of values under concatenation, replacement and permutation
  // ---------------------------------------------------------------------------------

  lemma {:induction false} ValueBagConcat(a: seq<byte>, b: seq<byte>)
    ensures ValueBag(a + b) == ValueBag(a) + ValueBag(b)
  {
    if b == [] {
      assert a + b == a;
    } else {
      assert (a + b)[..|a + b| - 1] == a + b[..|b| - 1];
      ValueBagConcat(a, b[..|b| - 1]);
    }
  }

  lemma ValueBagOne(card: byte)
    ensures ValueBag([card]) == multiset{Value(card)}
  {
    assert ValueBag([card][..0]) == multiset{};
  }

  lemma ValueBagReplace(s: seq<byte>, i: nat, card: byte)
    requires i < |s|
    ensures ValueBag(s[i := card]) == ValueBag(s) - multiset{Value(s[i])} + multiset{Value(card)}
  {
    var pre, post := s[..i], s[i + 1..];
    assert s == pre + [s[i]] + post;
    assert s[i := card] == pre + [card] + post;
    ValueBagConcat(pre, [s[i]]);
    ValueBagConcat(pre + [s[i]], post);
    ValueBagConcat(pre, [card]);
    ValueBagConcat(pre + [card], post);
    ValueBagOne(s[i]);
    ValueBagOne(card);
  }

  lemma {:induction false} ValueBagPermute(a: seq<byte>, b: seq<byte>)
    requires multiset(a) == multiset(b)
    ensures ValueBag(a) == ValueBag(b)
  {
    if a == [] {
      assert |multiset(b)| == 0;
    } else {
      var last := a[|a| - 1];
      assert last in multiset(b);
      var i :| 0 <= i < |b| && b[i] == last;
      var a', pre, post := a[..|a| - 1], b[..i], b[i + 1..];
      assert a == a' + [last];
      assert b == pre + [last] + post;
      assert multiset(b) == multiset(pre + post) + multiset{last} by {
        assert multiset(b) == multiset(pre) + multiset{last} + multiset(post);
        assert multiset(pre + post) == multiset(pre) + multiset(post);
      }
      assert multiset(a) == multiset(a') + multiset{last};
      assert multiset(a') == multiset(a) - multiset{last};
      ValueBagPermute(a', pre + post);
      ValueBagConcat(pre, [last]);
      ValueBagConcat(pre + [last], post);
      ValueBagConcat(pre, post);
      ValueBagOne(last);
    }
  }

  // ---------------------------------------------------------------------------------
  // Single cards
  // ---------------------------------------------------------------------------------

  /** The playing values a hand holds exactly once. */
  ghost function SingleValues(hand: seq<byte>): set<nat>
  {
    set v | MIN_VALUE <= v <= MAX_VALUE && ValueBag(hand)[v] == 1
  }

  /** One card of each single value, in ascending order of value. */
  ghost predicate AreSingles(singles: seq<byte>, hand: seq<byte>)
  {
    && (forall c :: c in singles ==> c in hand && Value(c) in SingleValues(hand))
    && (forall i, j :: 0 <= i < j < |singles| ==> Value(singles[i]) < Value(singles[j]))
    && |singles| == |SingleValues(hand)|
  }

  ghost predicate FirstOfValue(hand: seq<byte>, first: seq<byte>)
  {
    |first| == 16 && forall v :: 0 <= v < 16 && v in ValueBag(hand) ==> first[v] in hand && Value(first[v]) == v
  }

  ghost function SinglesBelow(hand: seq<byte>, hi: nat): set<nat>
  {
    set v | MIN_VALUE <= v < hi && ValueBag(hand)[v] == 1
  }

  lemma SinglesBelowStep(hand: seq<byte>, hi: nat)
    requires 1 <= hi
    ensures SinglesBelow(hand, hi + 1) ==
            SinglesBelow(hand, hi) + if ValueBag(hand)[hi] == 1 then {hi} else {}
  {
  }

  method SingleCards(hand: seq<byte>) returns (singles: seq<byte>)
    ensures AreSingles(singles, hand)
  {
    var counts, first := CountValues(hand);
    singles := [];
    assert SinglesUpTo(singles, hand, 1);
    for value := 1 to 14
      invariant SinglesUpTo(singles, hand, value)
    {
      NextSingle(singles, hand, value);
      assert counts[value] == ValueBag(hand)[value];
      if counts[value] == 1 {
        assert first[value] in hand;
        singles := singles + [first[value]];
      }
    }
    assert SinglesBelow(hand, 14) == SingleValues(hand);
  }

  ghost predicate SinglesUpTo(singles: seq<byte>, hand: seq<byte>, hi: nat)
  {
    && (forall c :: c in singles ==> c in hand && Value(c) in SinglesBelow(hand, hi))
    && (forall i, j :: 0 <= i < j < |singles| ==> Value(singles[i]) < Value(singles[j]))
    && |singles| == |SinglesBelow(hand, hi)|
  }

  lemma NextSingle(singles: seq<byte>, hand: seq<byte>, value: nat)
    requires SinglesUpTo(singles, hand, value) && 1 <= value
    ensures ValueBag(hand)[value] != 1 ==> SinglesUpTo(singles, hand, value + 1)
    ensures forall card: byte :: ValueBag(hand)[value] == 1 && card in hand && Value(card) == value ==>
                                   SinglesUpTo(singles + [card], hand, value + 1)
  {
    SinglesBelowStep(hand, value);
    forall card: byte | ValueBag(hand)[value] == 1 && card in hand && Value(card) == value
      ensures SinglesUpTo(singles + [card], hand, value + 1)
    {
      var more := singles + [card];
      assert forall i :: 0 <= i < |singles| ==> singles[i] in singles && more[i] == singles[i];
      assert more[|singles|] == card;
    }
  }

  ghost predicate CountsTo(counts: seq<nat>, hand: seq<byte>)
  {
    |counts| == 16 && forall v :: 0 <= v < 16 ==> counts[v] == ValueBag(hand)[v]
  }

  method CountValues(hand: seq<byte>) returns (counts: seq<nat>, first: seq<byte>)
    ensures CountsTo(counts, hand) && FirstOfValue(hand, first)
  {
    counts := seq(16, _ => 0);
    first := seq(16, _ => 0);
    for i := 0 to |hand|
      invariant CountsTo(counts, hand[..i]) && FirstOfValue(hand[..i], first)
    {
      var value := Value(hand[i]);
      FirstStep(hand, i, first);
      CountsStep(hand, i, counts);
      if counts[value] == 0 {
        first := first[value := hand[i]];
      }
      counts := counts[value := counts[value] + 1];
    }
    assert hand[..|hand|] == hand;
  }

  lemma CountsStep(hand: seq<byte>, i: nat, counts: seq<nat>)
    requires i < |hand| && CountsTo(counts, hand[..i])
    ensures CountsTo(counts[Value(hand[i]) := counts[Value(hand[i])] + 1], hand[..i + 1])
  {
    ValueBagStep(hand, i);
  }

  lemma FirstStep(hand: seq<byte>, i: nat, first: seq<byte>)
    requires i < |hand| && FirstOfValue(hand[..i], first)
    ensures FirstOfValue(hand[..i + 1],
                         if ValueBag(hand[..i])[Value(hand[i])] == 0 then first[Value(hand[i]) := hand[i]] else first)
  {
    ValueBagStep(hand, i);
    assert hand[..i + 1] == hand[..i] + [hand[i]];
  }

  method FindCardIndex(hand: seq<byte>, card: byte) returns (index: int)
    ensures -1 <= index < |hand|
    ensures index >= 0 ==> hand[index] == card && card !in hand[..index]
    ensures index < 0 ==> card !in hand
  {
    for i := 0 to |hand|
      invariant card !in hand[..i]
    {
      if hand[i] == card {
        return i;
      }
    }
    return -1;
  }

  method ContainsValue(hand: seq<byte>, value: nat) returns (found: bool)
    ensures found <==> value in ValueBag(hand)
  {
    var count := 0;
    for i := 0 to |hand|
      invariant count == ValueBag(hand[..i])[value]
    {
      ValueBagStep(hand, i);
      if Value(hand[i]) == value {
        count := count + 1;
      }
    }
    assert hand[..|hand|] == hand;
    found := count > 0;
  }

  // ---------------------------------------------------------------------------------
  // One seat's pass of the adjustment
  // ---------------------------------------------------------------------------------

  /** Position `j` belongs to a seat other than the one whose cards begin at `start`. */
  ghost predicate OtherSeat(j: int, start: nat, size: nat, total: nat)
  {
    0 <= j < total && !(start <= j < start + size)
  }

  /** Card `j` may be taken in exchange for `single`: it pairs with the hand and has
      another value than the card given away. */
  ghost predicate Candidate(deck: seq<byte>, own: seq<byte>, single: byte, j: int)
    requires 0 <= j < |deck|
  {
    Value(deck[j]) != Value(single) && Value(deck[j]) in ValueBag(own)
  }

  /** No other seat holds a card that pairs with the hand. */
  ghost predicate NothingShared(deck: seq<byte>, own: seq<byte>, start: nat, size: nat, total: nat)
  {
    forall j :: 0 <= j < |deck| && OtherSeat(j, start, size, total) ==> Value(deck[j]) !in ValueBag(own)
  }

  /** Every swap takes one or two values off the singles of the hand. */
  lemma SwapDropsSingles(own: seq<byte>, i: nat, card: byte)
    requires i < |own| && Value(own[i]) in SingleValues(own)
    requires Value(card) != Value(own[i]) && Value(card) in ValueBag(own)
    ensures SingleValues(own[i := card]) == SingleValues(own) - {Value(own[i]), Value(card)}
    ensures |SingleValues(own)| - 2 <= |SingleValues(own[i := card])| < |SingleValues(own)|
  {
    ValueBagReplace(own, i, card);
    var v, w := Value(own[i]), Value(card);
    var before, after := SingleValues(own), SingleValues(own[i := card]);
    assert after == before - {v, w};
    TwoFewer(before, v, w);
  }

  lemma TwoFewer(before: set<nat>, v: nat, w: nat)
    requires v in before
    ensures |before| - 2 <= |before - {v, w}| < |before|
  {
    var after := before - {v, w};
    SubsetSize(before, after + {v, w});
    SubsetSize(after, before - {v});
  }

  lemma {:induction false} SubsetSize(a: set<nat>, b: set<nat>)
    requires a <= b
    ensures |a| <= |b|
  {
    if a != {} {
      var x :| x in a;
      SubsetSize(a - {x}, b - {x});
    }
  }

  /** With two singles in hand, a shared value always yields a swap. */
  lemma SharedValueSwaps(deck: seq<byte>, own: seq<byte>, singles: seq<byte>, j: int)
    requires AreSingles(singles, own) && |singles| >= 2
    requires 0 <= j < |deck| && Value(deck[j]) in ValueBag(own)
    ensures exists k :: 0 <= k < |singles| && Candidate(deck, own, singles[k], j)
  {
    assert Value(singles[0]) < Value(singles[1]);
    assert Candidate(deck, own, singles[0], j) || Candidate(deck, own, singles[1], j);
  }

  /** The innermost loop: the first card of one seat that may be taken for `single`. */
  method FindInSeat(deck: seq<byte>, own: seq<byte>, single: byte, lo: nat, hi: nat) returns (theirs: int, mine: int)
    requires lo <= hi <= |deck| && single in own
    ensures theirs < 0 ==> forall j :: lo <= j < hi ==> !Candidate(deck, own, single, j)
    ensures theirs >= 0 ==>
              && lo <= theirs < hi && Candidate(deck, own, single, theirs)
              && 0 <= mine < |own| && own[mine] == single
              && forall j :: lo <= j < theirs ==> !Candidate(deck, own, single, j)
  {
    for index := lo to hi
      invariant forall j :: lo <= j < index ==> !Candidate(deck, own, single, j)
    {
      var value := Value(deck[index]);
      var paired := ContainsValue(own, value);
      if value == Value(single) || !paired {
        continue;
      }
      var singleIndex := FindCardIndex(own, single);
      if singleIndex < 0 {
        continue;
      }
      return index, singleIndex;
    }
    return -1, -1;
  }

  ghost predicate NoneBefore(deck: seq<byte>, own: seq<byte>, single: byte, hi: int, start: nat, size: nat, total: nat)
  {
    forall j :: 0 <= j < hi && j < |deck| && OtherSeat(j, start, size, total) ==> !Candidate(deck, own, single, j)
  }

  /** The loop over the other seats, stopping at a seat the deck does not reach. */
  method FindForSingle(deck: seq<byte>, own: seq<byte>, single: byte, seat: nat, players: nat, size: nat,
                       ghost start: nat, ghost total: nat)
    returns (exhausted: bool, theirs: int, mine: int)
    requires size > 0 && seat < players && single in own
    requires start == seat * size && total == players * size
    ensures exhausted ==> theirs < 0 && total > |deck|
    ensures theirs < 0 && !exhausted ==> NoneBefore(deck, own, single, |deck|, start, size, total)
    ensures theirs >= 0 ==>
              && theirs < |deck| && OtherSeat(theirs, start, size, total) && Candidate(deck, own, single, theirs)
              && 0 <= mine < |own| && own[mine] == single
              && NoneBefore(deck, own, single, theirs, start, size, total)
  {
    for other := 0 to players
      invariant NoneBefore(deck, own, single, other * size, start, size, total)
    {
      MulStep(other, players, size);
      if other == seat {
        continue;
      }
      var otherStart := other * size;
      if otherStart + size > |deck| {
        return true, -1, -1;
      }
      theirs, mine := FindInSeat(deck, own, single, otherStart, otherStart + size);
      if theirs >= 0 {
        SeatsApart(other, seat, players, size, theirs);
        return false, theirs, mine;
      }
    }
    return false, -1, -1;
  }

  /** The swap found is the first one in the order single, seat, card. */
  ghost predicate FirstSwap(deck: seq<byte>, own: seq<byte>, singles: seq<byte>, k: nat, mine: nat, theirs: nat,
                            start: nat, size: nat, total: nat)
  {
    && k < |singles| && mine < |own| && own[mine] == singles[k]
    && theirs < |deck| && OtherSeat(theirs, start, size, total) && Candidate(deck, own, singles[k], theirs)
    && (forall k' :: 0 <= k' < k ==> NoneBefore(deck, own, singles[k'], |deck|, start, size, total))
    && NoneBefore(deck, own, singles[k], theirs, start, size, total)
  }

  ghost predicate NoSwap(deck: seq<byte>, own: seq<byte>, singles: seq<byte>, start: nat, size: nat, total: nat)
  {
    forall i :: 0 <= i < |singles| ==> NoneBefore(deck, own, singles[i], |deck|, start, size, total)
  }

  method FindSwap(deck: seq<byte>, own: seq<byte>, singles: seq<byte>, seat: nat, players: nat, size: nat,
                  ghost start: nat, ghost total: nat)
    returns (found: bool, exhausted: bool, k: nat, mine: nat, theirs: nat)
    requires size > 0 && seat < players && AreSingles(singles, own)
    requires start == seat * size && total == players * size
    ensures exhausted ==> !found && total > |deck|
    ensures found ==> FirstSwap(deck, own, singles, k, mine, theirs, start, size, total)
    ensures !found && !exhausted ==> NoSwap(deck, own, singles, start, size, total)
  {
    for i := 0 to |singles|
      invariant NoSwap(deck, own, singles[..i], start, size, total)
    {
      assert singles[i] in singles;
      var stop, t, m := FindForSingle(deck, own, singles[i], seat, players, size, start, total);
      if stop {
        return false, true, 0, 0, 0;
      }
      if t >= 0 {
        assert forall k' :: 0 <= k' < i ==> singles[..i][k'] == singles[k'];
        return true, false, i, m, t;
      }
      assert singles[..i + 1] == singles[..i] + [singles[i]];
    }
    assert singles[..|singles|] == singles;
    return false, false, 0, 0, 0;
  }

  /** What one seat's pass achieves: few enough singles, or a hand that shares no value
      with any other seat. */
  ghost predicate PassDone(deck: seq<byte>, start: nat, size: nat, total: nat, limit: nat)
    requires start + size <= |deck|
  {
    var own := deck[start..start + size];
    |SingleValues(own)| <= limit || NothingShared(deck, own, start, size, total)
  }

  /** The pass over one seat: swaps until it is done, or until the deck runs out. */
  method ReduceSeat(cards: array<byte>, players: nat, size: nat, seat: nat, limit: nat, ghost total: nat)
    returns (exhausted: bool)
    requires size > 0 && limit > 0 && seat < players && seat * size + size <= cards.Length
    requires total == players * size
    modifies cards
    ensures multiset(cards[..]) == old(multiset(cards[..]))
    ensures exhausted ==> total > cards.Length
    ensures !exhausted ==> PassDone(cards[..], seat * size, size, total, limit)
    ensures old(|SingleValues(cards[seat * size..seat * size + size])|) <= limit ==> cards[..] == old(cards[..])
  {
    var start := seat * size;
    var end := start + size;
    var singles := SingleCards(cards[start..end]);
    ghost var few := |singles| <= limit;
    while |singles| > limit
      invariant !few || cards[..] == old(cards[..])
      invariant AreSingles(singles, cards[..][start..end])
      invariant multiset(cards[..]) == old(multiset(cards[..]))
      decreases |singles|
    {
      ghost var deck := cards[..];
      var found, stop, k, mine, theirs :=
        FindSwap(cards[..], cards[..][start..end], singles, seat, players, size, start, total);
      if stop {
        return true;
      }
      if !found {
        NoSwapNothingShared(deck, deck[start..end], singles, start, size, total);
        return false;
      }
      SwapStep(deck, singles, k, mine, theirs, start, size, total);
      cards[start + mine], cards[theirs] := cards[theirs], cards[start + mine];
      assert cards[..] == Swapped(deck, start + mine, theirs);
      singles := SingleCards(cards[..][start..end]);
    }
    exhausted := false;
  }

  ghost function Swapped(deck: seq<byte>, i: nat, j: nat): seq<byte>
    requires i < |deck| && j < |deck|
  {
    deck[i := deck[j]][j := deck[i]]
  }

  /** A swap permutes the deck and leaves the seat one or two singles fewer. */
  lemma SwapStep(deck: seq<byte>, singles: seq<byte>, k: nat, mine: nat, theirs: nat, start: nat, size: nat, total: nat)
    requires start + size <= |deck| && AreSingles(singles, deck[start..start + size])
    requires FirstSwap(deck, deck[start..start + size], singles, k, mine, theirs, start, size, total)
    ensures multiset(Swapped(deck, start + mine, theirs)) == multiset(deck)
    ensures |singles| - 2 <= |SingleValues(Swapped(deck, start + mine, theirs)[start..start + size])| < |singles|
  {
    var own := deck[start..start + size];
    assert own[mine] in singles;
    SwapDropsSingles(own, mine, deck[theirs]);
    assert Swapped(deck, start + mine, theirs)[start..start + size] == own[mine := deck[theirs]];
  }

  lemma NoSwapNothingShared(deck: seq<byte>, own: seq<byte>, singles: seq<byte>, start: nat, size: nat, total: nat)
    requires AreSingles(singles, own) && |singles| >= 2
    requires NoSwap(deck, own, singles, start, size, total)
    ensures NothingShared(deck, own, start, size, total)
  {
    forall j | 0 <= j < |deck| && OtherSeat(j, start, size, total) && Value(deck[j]) in ValueBag(own)
      ensures false
    {
      SharedValueSwaps(deck, own, singles, j);
    }
  }

  // ---------------------------------------------------------------------------------
  // The whole adjustment
  // ---------------------------------------------------------------------------------

  /** Every value of the deck is a playing value and occurs at least twice. */
  ghost predicate Plentiful(deck: seq<byte>)
  {
    forall v :: v in ValueBag(deck) ==> MIN_VALUE <= v <= MAX_VALUE && ValueBag(deck)[v] >= 2
  }

  /** On such a deck, dealt out completely, a hand with a single shares that value with
      another seat. */
  lemma PlentifulShares(deck: seq<byte>, start: nat, size: nat, v: nat)
    requires start + size <= |deck| && Plentiful(deck)
    requires v in SingleValues(deck[start..start + size])
    ensures exists j :: 0 <= j < |deck| && OtherSeat(j, start, size, |deck|) && Value(deck[j]) == v
  {
    var pre, own, post := deck[..start], deck[start..start + size], deck[start + size..];
    assert deck == pre + own + post;
    ValueBagConcat(pre, own);
    ValueBagConcat(pre + own, post);
    assert v in ValueBag(deck);
    if v in ValueBag(pre) {
      ValueBagIn(pre, v);
      var i :| 0 <= i < |pre| && Value(pre[i]) == v;
      assert OtherSeat(i, start, size, |deck|) && deck[i] == pre[i];
    } else {
      ValueBagIn(post, v);
      var i :| 0 <= i < |post| && Value(post[i]) == v;
      assert deck[start + size + i] == post[i];
      assert OtherSeat(start + size + i, start, size, |deck|);
    }
  }

  /** Whatever earlier passes did to the deck, a seat's own pass leaves it at most `limit`
      singles when the deck is dealt out completely and holds every value at least twice:
      the pass never stops for want of a swap. */
  lemma SeatPassEnds(after: seq<byte>, dealt: seq<byte>, start: nat, size: nat, limit: nat)
    requires multiset(after) == multiset(dealt) && Plentiful(dealt)
    requires start + size <= |after| && PassDone(after, start, size, |after|, limit)
    ensures |SingleValues(after[start..start + size])| <= limit
  {
    ValueBagPermute(after, dealt);
    var own := after[start..start + size];
    if |SingleValues(own)| > limit {
      var v :| v in SingleValues(own);
      PlentifulShares(after, start, size, v);
    }
  }

  ghost predicate Within(deck: seq<byte>, start: nat, size: nat, limit: int)
  {
    start + size <= |deck| && |SingleValues(deck[start..start + size])| <= limit
  }

  /** The deck at the end of each seat's pass: the seat is within the limit. */
  ghost predicate Passes(passes: seq<seq<byte>>, dealt: seq<byte>, size: nat, limit: int)
  {
    forall i :: 0 <= i < |passes| ==> multiset(passes[i]) == multiset(dealt) && Within(passes[i], i * size, size, limit)
  }

  /** The deck is dealt out completely and holds every value at least twice. */
  ghost predicate Complete(deck: seq<byte>, players: int, size: int)
  {
    players > 1 && size > 0 && players * size == |deck| && Plentiful(deck)
  }

  lemma PassWithin(after: seq<byte>, dealt: seq<byte>, seat: nat, players: nat, size: nat, limit: nat)
    requires multiset(after) == multiset(dealt) && |after| == |dealt| && Complete(dealt, players, size)
    requires seat < players
    requires seat * size + size <= |after| && PassDone(after, seat * size, size, players * size, limit)
    ensures Within(after, seat * size, size, limit)
  {
    SeatPassEnds(after, dealt, seat * size, size, limit);
  }

  /** `passes` are the decks at the ends of the passes.  A later pass may take cards from an
      earlier hand, so the bound is on each seat at the end of its own pass. */
  method SwapSingleCards(cards: array<byte>, players: int, size: int, limit: int) returns (ghost passes: seq<seq<byte>>)
    modifies cards
    ensures multiset(cards[..]) == old(multiset(cards[..]))
    ensures players <= 1 || size <= 0 || limit <= 0 ==> cards[..] == old(cards[..])
    ensures limit > 0 && old(Complete(cards[..], players, size)) ==>
              |passes| == players && Passes(passes, old(cards[..]), size, limit) && cards[..] == passes[players - 1]
  {
    passes := [];
    if players <= 1 || size <= 0 || limit <= 0 {
      return;
    }
    var seat := 0;
    ghost var total := players * size;
    ghost var complete := Complete(cards[..], players, size);
    while seat < players
      invariant 0 <= seat <= players
      invariant multiset(cards[..]) == old(multiset(cards[..]))
      invariant complete ==> |passes| == seat && Passes(passes, old(cards[..]), size, limit)
      invariant complete && 0 < seat ==> cards[..] == passes[seat - 1]
    {
      MulStep(seat, players, size);
      if seat * size + size > cards.Length {
        return;
      }
      var exhausted := ReduceSeat(cards, players, size, seat, limit, total);
      if exhausted {
        return;
      }
      if complete { PassWithin(cards[..], old(cards[..]), seat, players, size, limit); }
      passes := passes + [cards[..]];
      seat := seat + 1;
    }
  }

  ghost function Singles(deck: seq<byte>, start: nat, size: nat): nat
    requires start + size <= |deck|
  {
    |SingleValues(deck[start..start + size])|
  }

  /** The hand at `start` has no more singles than dealt, or a second round with a limit of four
      followed. */
  ghost predicate Adjusted(deck: seq<byte>, dealt: seq<byte>, once: seq<byte>, second: seq<seq<byte>>, players: nat,
                           size: nat, start: nat)
  {
    && start + size <= |dealt| == |once|
    && if Singles(once, start, size) <= Singles(dealt, start, size) then deck == once
       else |second| == players > 0 && Passes(second, once, size, 4) && deck == second[players - 1]
  }

  lemma CompleteAgain(deck: seq<byte>, dealt: seq<byte>, players: int, size: int)
    requires Complete(dealt, players, size) && multiset(deck) == multiset(dealt) && |deck| == |dealt|
    ensures Complete(deck, players, size)
  {
    ValueBagPermute(deck, dealt);
  }

  /** The new-player adjustment: swap down to three singles, and to four again exactly when the
      selected seat came out worse. */
  method AdjustNewbieCards(cards: array<byte>, players: int, size: int, newPlayerSeat: int)
    returns (ghost first: seq<seq<byte>>, ghost second: seq<seq<byte>>)
    modifies cards
    ensures multiset(cards[..]) == old(multiset(cards[..]))
    ensures !(0 <= newPlayerSeat < players) || size <= 0 || newPlayerSeat * size + size > cards.Length ==>
              cards[..] == old(cards[..])
    ensures 0 <= newPlayerSeat < players && old(Complete(cards[..], players, size)) ==>
              && |first| == players && Passes(first, old(cards[..]), size, 3)
              && Adjusted(cards[..], old(cards[..]), first[players - 1], second, players, size, newPlayerSeat * size)
  {
    first, second := [], [];
    if players <= 0 || size <= 0 || newPlayerSeat < 0 || newPlayerSeat >= players {
      return;
    }
    MulStep(newPlayerSeat, players, size);
    first, second := AdjustHand(cards, players, size, newPlayerSeat * size);
  }

  /** The same, by where the hand of the selected seat begins. */
  method AdjustHand(cards: array<byte>, players: nat, size: nat, start: nat)
    returns (ghost first: seq<seq<byte>>, ghost second: seq<seq<byte>>)
    modifies cards
    ensures multiset(cards[..]) == old(multiset(cards[..]))
    ensures start + size > cards.Length ==> cards[..] == old(cards[..])
    ensures start + size <= cards.Length && old(Complete(cards[..], players, size)) ==>
              && |first| == players && Passes(first, old(cards[..]), size, 3)
              && Adjusted(cards[..], old(cards[..]), first[players - 1], second, players, size, start)
  {
    first, second := [], [];
    var end := start + size;
    if end > cards.Length {
      return;
    }
    var before := SingleCards(cards[..][start..end]);
    first := SwapSingleCards(cards, players, size, 3);
    var after := SingleCards(cards[..][start..end]);
    if |after| > |before| {
      if old(Complete(cards[..], players, size)) { CompleteAgain(cards[..], old(cards[..]), players, size); }
      second := SwapSingleCards(cards, players, size, 4);
    }
  }

  lemma MulStep(other: nat, players: nat, size: nat)
    requires other < players
    ensures (other + 1) * size == other * size + size <= players * size
  {
    var rest := players - other - 1;
    assert players * size == other * size + size + rest * size;
  }

  lemma SeatsApart(other: nat, seat: nat, players: nat, size: nat, index: nat)
    requires other < players && seat < players && other != seat
    requires other * size <= index < other * size + size
    ensures OtherSeat(index, seat * size, size, players * size)
  {
    MulStep(other, players, size);
    if other < seat {
      MulStep(other, seat, size);
    } else {
      MulStep(seat, other, size);
    }
  }

  // ---------------------------------------------------------------------------------
  // The standard deck
  // ---------------------------------------------------------------------------------

  /** The suit run that position `i` of the standard deck lies in: eight runs of thirteen. */
  function SuitRun(i: nat): nat
  {
    if i < 13 then 0 else if i < 26 then 1 else if i < 39 then 2 else if i < 52 then 3
    else if i < 65 then 4 else if i < 78 then 5 else if i < 91 then 6 else if i < 104 then 7 else 8
  }

  function CardAt(i: nat): byte
    requires i < DECK_SIZE
  {
    (if SuitRun(i) < 4 then SuitRun(i) else SuitRun(i) - 4) * 16 + i - 13 * SuitRun(i) + 1
  }

  /** Two copies of four suits of thirteen values. */
  ghost predicate IsStandardDeck(deck: seq<byte>)
  {
    |deck| == DECK_SIZE && forall i :: 0 <= i < DECK_SIZE ==> deck[i] == CardAt(i)
  }

  method BuildDeck() returns (deck: seq<byte>)
    ensures IsStandardDeck(deck)
  {
    deck := [];
    for copy := 0 to 2
      invariant |deck| == copy * 52 && forall i :: 0 <= i < |deck| ==> deck[i] == CardAt(i)
    {
      for suit := 0 to 4
        invariant |deck| == copy * 52 + suit * 13 && forall i :: 0 <= i < |deck| ==> deck[i] == CardAt(i)
      {
        for value := 1 to 14
          invariant |deck| == copy * 52 + suit * 13 + value - 1
          invariant forall i :: 0 <= i < |deck| ==> deck[i] == CardAt(i)
        {
          assert SuitRun(|deck|) == copy * 4 + suit;
          deck := deck + [suit * 16 + value];
        }
      }
    }
  }

  lemma CardParts(i: nat)
    requires i < DECK_SIZE
    ensures Value(CardAt(i)) == i - 13 * SuitRun(i) + 1 && Suit(CardAt(i)) < 4
    ensures 1 <= Value(CardAt(i)) <= 13
  {
    var s := if SuitRun(i) < 4 then SuitRun(i) else SuitRun(i) - 4;
    var v := i - 13 * SuitRun(i) + 1;
    assert (s * 16 + v) % 16 == v && (s * 16 + v) / 16 == s;
  }

  lemma SuitRunStep(i: nat)
    requires i < DECK_SIZE
    ensures SuitRun(i + 1) == if i - 13 * SuitRun(i) == 12 then SuitRun(i) + 1 else SuitRun(i)
    ensures 0 <= i - 13 * SuitRun(i) <= 12
  {
  }

  ghost function SuitPoints(n: nat): nat
  {
    if n >= 10 then 15 else if n >= 5 then 5 else 0
  }

  lemma {:induction false} StandardPoints(deck: seq<byte>, k: nat)
    requires IsStandardDeck(deck) && k <= DECK_SIZE
    ensures 13 * SuitRun(k) <= k && Points(deck[..k]) == 25 * SuitRun(k) + SuitPoints(k - 13 * SuitRun(k))
  {
    if k > 0 {
      StandardPoints(deck, k - 1);
      assert deck[..k][..k - 1] == deck[..k - 1];
      CardParts(k - 1);
      SuitRunStep(k - 1);
      assert PointOf(CardAt(k - 1)) + SuitPoints(k - 1 - 13 * SuitRun(k - 1))
          == if k - 13 * SuitRun(k - 1) == 13 then 25 else SuitPoints(k - 13 * SuitRun(k - 1));
    }
  }

  lemma {:induction false} StandardValues(deck: seq<byte>, k: nat, v: nat)
    requires IsStandardDeck(deck) && k <= DECK_SIZE && 1 <= v
    ensures ValueBag(deck[..k])[v] == if v <= 13 then SuitRun(k) + (if v <= k - 13 * SuitRun(k) then 1 else 0) else 0
  {
    if k > 0 {
      StandardValues(deck, k - 1, v);
      ValueBagStep(deck, k - 1);
      CardParts(k - 1);
      SuitRunStep(k - 1);
    }
  }

  /** The standard deck holds each playing value eight times and two hundred points, so the
      adjustment never stalls on it. */
  lemma StandardDeckFacts(deck: seq<byte>)
    requires IsStandardDeck(deck)
    ensures Points(deck) == 200
    ensures forall v | v in ValueBag(deck) :: 1 <= v <= 13
    ensures forall v | 1 <= v <= 13 :: ValueBag(deck)[v] == 8
    ensures Plentiful(deck)
  {
    assert deck[..DECK_SIZE] == deck;
    StandardPoints(deck, DECK_SIZE);
    forall v | v in ValueBag(deck) ensures 1 <= v <= 13 {
      ValueBagIn(deck, v);
      var i :| 0 <= i < |deck| && Value(deck[i]) == v;
      CardParts(i);
    }
    forall v | 1 <= v <= 13 ensures ValueBag(deck)[v] == 8 {
      StandardValues(deck, DECK_SIZE, v);
    }
  }

  // ---------------------------------------------------------------------------------
  // Dealing
  // ---------------------------------------------------------------------------------

  ghost predicate Shuffled(deck: seq<byte>)
  {
    exists ordered: seq<byte> :: IsStandardDeck(ordered) && multiset(deck) == multiset(ordered)
  }

  /** The deck that will be dealt: a custom deck of the right size as it is, or an adjusted
      permutation of the standard deck.  `swaps` are the exchanges the random shuffle makes. */
  method PrepareDeck(custom: Option<seq<byte>>, swaps: seq<(nat, nat)>, isNewbie: bool, newPlayerSeat: int, limit: int)
    returns (deck: seq<byte>)
    ensures |deck| == DECK_SIZE
    ensures custom.Some? && |custom.value| == DECK_SIZE ==> deck == custom.value
    ensures custom.None? || |custom.value| != DECK_SIZE ==> Shuffled(deck)
  {
    if custom.Some? && |custom.value| == DECK_SIZE {
      return custom.value;
    }
    var ordered := BuildDeck();
    var cards := new byte[DECK_SIZE](i requires 0 <= i < DECK_SIZE => ordered[i]);
    assert cards[..] == ordered;
    for k := 0 to |swaps|
      invariant multiset(cards[..]) == multiset(ordered)
    {
      var (i, j) := swaps[k];
      if i < DECK_SIZE && j < DECK_SIZE {
        cards[i], cards[j] := cards[j], cards[i];
      }
    }
    if isNewbie {
      if newPlayerSeat >= 0 {
        ghost var first, second := AdjustNewbieCards(cards, SEATS, HAND_SIZE, newPlayerSeat);
      }
    } else {
      ghost var passes := SwapSingleCards(cards, SEATS, HAND_SIZE, limit);
    }
    deck := cards[..];
  }

  /** Position of `seat` counted from the banker. */
  function Offset(seat: nat, banker: nat): nat
    requires seat < SEATS && banker < SEATS
  {
    if seat >= banker then seat - banker else seat + SEATS - banker
  }

  /** Each seat, from the banker on, gets the next twenty-six cards. */
  function HandOf(deck: seq<byte>, banker: nat, seat: nat): seq<byte>
    requires |deck| == DECK_SIZE && banker < SEATS && seat < SEATS
  {
    deck[Offset(seat, banker) * HAND_SIZE..Offset(seat, banker) * HAND_SIZE + HAND_SIZE]
  }

  function DealHands(deck: seq<byte>, banker: nat): (hands: seq<seq<byte>>)
    requires |deck| == DECK_SIZE && banker < SEATS
    ensures |hands| == SEATS
  {
    [HandOf(deck, banker, 0), HandOf(deck, banker, 1), HandOf(deck, banker, 2), HandOf(deck, banker, 3)]
  }

  method DealDeck(banker: nat, deck: seq<byte>) returns (hands: seq<seq<byte>>)
    requires |deck| == DECK_SIZE && banker < SEATS
    ensures hands == DealHands(deck, banker)
  {
    hands := [[], [], [], []];
    for offset := 0 to SEATS
      invariant |hands| == SEATS
      invariant forall seat :: 0 <= seat < SEATS && Offset(seat, banker) < offset ==>
          hands[seat] == HandOf(deck, banker, seat)
    {
      var seat := (banker + offset) % SEATS;
      var start := offset * HAND_SIZE;
      assert Offset(seat, banker) == offset;
      hands := hands[seat := deck[start..start + HAND_SIZE]];
    }
  }

  ghost function AllHands(hands: seq<seq<byte>>): multiset<byte>
    requires |hands| == SEATS
  {
    multiset(hands[0]) + multiset(hands[1]) + multiset(hands[2]) + multiset(hands[3])
  }

  lemma FourParts(deck: seq<byte>)
    requires |deck| == DECK_SIZE
    ensures multiset(deck) ==
            multiset(deck[0..26]) + multiset(deck[26..52]) + multiset(deck[52..78]) + multiset(deck[78..104])
  {
    var a, b, c, d := deck[0..26], deck[26..52], deck[52..78], deck[78..104];
    assert deck == a + b + c + d;
  }

  /** Dealing hands out the whole deck, twenty-six cards to each seat. */
  lemma DealIsWholeDeck(deck: seq<byte>, banker: nat)
    requires |deck| == DECK_SIZE && banker < SEATS
    ensures AllHands(DealHands(deck, banker)) == multiset(deck)
    ensures forall seat :: 0 <= seat < SEATS ==> |DealHands(deck, banker)[seat]| == HAND_SIZE
  {
    FourParts(deck);
    var a, b, c, d := deck[0..26], deck[26..52], deck[52..78], deck[78..104];
    Rotations(multiset(a), multiset(b), multiset(c), multiset(d));
    var hands := DealHands(deck, banker);
    assert hands == if banker == 0 then [a, b, c, d] else if banker == 1 then [d, a, b, c]
                    else if banker == 2 then [c, d, a, b] else [b, c, d, a];
  }

  lemma Rotations(a: multiset<byte>, b: multiset<byte>, c: multiset<byte>, d: multiset<byte>)
    ensures d + a + b + c == a + b + c + d
    ensures c + d + a + b == a + b + c + d
    ensures b + c + d + a == a + b + c + d
  {
  }
}
