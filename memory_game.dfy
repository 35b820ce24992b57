/**
 * The memory game: a deck holding each of an era's symbols twice is
 * shuffled face down; the player turns up two cards, which (after a delay)
 * stay up as a match when their symbols agree and turn back down otherwise.
 * The round ends, with full marks, when every pair is matched.
 */
module MemoryGame {
  import opened Js
  import opened Games
  import Seqs

  /**
   * A card; `id` is the position `index` in the doubled symbol list from
   * which the component builds the string id `card-${index}`.
   */
  datatype Card = Card(id: nat, content: string, isFlipped: bool, isMatched: bool)

  /** The symbols of each era; any other era id gets qin's. */
  function MemoryCards(dynastyId: string): seq<string> {
    match dynastyId
    case "han" => ["🏮", "🐪", "📚", "🗡️"]
    case "tang" => ["🌸", "🍷", "🎭", "🏛️"]
    case _ => ["🐉", "⚔️", "🏯", "📜"]
  }

  /** `[...contents, ...contents].map((content, index) => ({ id: `card-${index}`, content, ... }))`. */
  function Deck(contents: seq<string>): (d: seq<Card>)
    ensures |d| == 2 * |contents|
  {
    var doubled := contents + contents;
    seq(|doubled|, i requires 0 <= i < |doubled| => Card(i, doubled[i], false, false))
  }

  function Contents(cs: seq<Card>): (r: seq<string>)
    ensures |r| == |cs| && forall i :: 0 <= i < |cs| ==> r[i] == cs[i].content
  {
    seq(|cs|, i requires 0 <= i < |cs| => cs[i].content)
  }

  predicate DistinctCardIds(cs: seq<Card>) {
    forall i, j :: 0 <= i < j < |cs| ==> cs[i].id != cs[j].id
  }

  /** The deck: cards face down and unmatched, with distinct ids, each symbol on twice as many cards as in the list. */
  lemma DeckFacts(contents: seq<string>, symbol: string)
    ensures DistinctCardIds(Deck(contents))
    ensures forall i :: 0 <= i < |Deck(contents)| ==>
              Deck(contents)[i].id == i && !Deck(contents)[i].isFlipped && !Deck(contents)[i].isMatched
    ensures multiset(Contents(Deck(contents)))[symbol] == 2 * multiset(contents)[symbol]
  {
    assert Contents(Deck(contents)) == contents + contents;
  }

  /** Each era's symbol list: four distinct symbols; unknown eras get qin's. */
  lemma SymbolLists(dynastyId: string)
    ensures |MemoryCards(dynastyId)| == 4 && Seqs.Distinct(MemoryCards(dynastyId))
    ensures dynastyId !in {"han", "tang"} ==> MemoryCards(dynastyId) == MemoryCards("qin")
  {
    match dynastyId
    case "han" =>
    case "tang" =>
    case _ =>
  }

  /** Every era's list has four distinct symbols, so each of them is on exactly two of the eight cards. */
  lemma MemoryTables(dynastyId: string, symbol: string)
    ensures |MemoryCards(dynastyId)| == 4 && Seqs.Distinct(MemoryCards(dynastyId))
    ensures |Deck(MemoryCards(dynastyId))| == 8
    ensures symbol in MemoryCards(dynastyId) ==> multiset(Contents(Deck(MemoryCards(dynastyId))))[symbol] == 2
    ensures dynastyId !in {"han", "tang"} ==> MemoryCards(dynastyId) == MemoryCards("qin")
  {
    var m := MemoryCards(dynastyId);
    SymbolLists(dynastyId);
    Seqs.DistinctCount(m, symbol);
    DeckFacts(m, symbol);
  }

  /** `cards.find(c => c.id === id)`. */
  function Find(cs: seq<Card>, id: nat): Option<Card> {
    if cs == [] then None else if cs[0].id == id then Some(cs[0]) else Find(cs[1..], id)
  }

  /** `find` comes back empty exactly when no card has the id, and otherwise with a card of the deck that has it. */
  lemma {:induction false} FindFacts(cs: seq<Card>, id: nat)
    ensures Find(cs, id).None? <==> forall i :: 0 <= i < |cs| ==> cs[i].id != id
    ensures Find(cs, id).Some? ==> Find(cs, id).value.id == id && Find(cs, id).value in cs
  {
    if cs != [] && cs[0].id != id {
      FindFacts(cs[1..], id);
      assert forall i :: 1 <= i < |cs| ==> cs[i] == cs[1..][i - 1];
    }
  }

  /** `cards.find(c => c.id === id)?.content`: `undefined` when there is no such card. */
  function ContentOf(cs: seq<Card>, id: nat): Option<string> {
    match Find(cs, id)
    case None => None
    case Some(c) => Some(c.content)
  }

  /** With distinct ids, the card found is the one card with that id. */
  lemma {:induction false} FindUnique(cs: seq<Card>, i: nat)
    requires DistinctCardIds(cs) && i < |cs|
    ensures Find(cs, cs[i].id) == Some(cs[i])
  {
    if i > 0 {
      assert cs[0].id != cs[i].id && cs[1..][i - 1] == cs[i];
      FindUnique(cs[1..], i - 1);
    }
  }

  /** `cards.map(card => ids.includes(card.id) ? f(card) : card)`. */
  function MapWhere(cs: seq<Card>, ids: seq<nat>, f: Card -> Card): (r: seq<Card>)
    ensures |r| == |cs|
    ensures forall i :: 0 <= i < |cs| ==> r[i] == if cs[i].id in ids then f(cs[i]) else cs[i]
  {
    if cs == [] then [] else [if cs[0].id in ids then f(cs[0]) else cs[0]] + MapWhere(cs[1..], ids, f)
  }

  function FaceUp(c: Card): Card { c.(isFlipped := true) }
  function FaceDown(c: Card): Card { c.(isFlipped := false) }
  function Matched(c: Card): Card { c.(isMatched := true) }

  /** The number of matched cards. */
  function MatchedCount(cs: seq<Card>): (n: nat)
    ensures n <= |cs|
  {
    if cs == [] then 0 else (if cs[0].isMatched then 1 else 0) + MatchedCount(cs[1..])
  }

  /** The number of unmatched cards whose id is listed. */
  function UnmatchedAmong(cs: seq<Card>, ids: seq<nat>): nat {
    if cs == [] then 0 else (if cs[0].id in ids && !cs[0].isMatched then 1 else 0) + UnmatchedAmong(cs[1..], ids)
  }

  /** Marking cards matched adds exactly the listed cards that were not matched yet. */
  lemma {:induction false} MarkAddsUnmatched(cs: seq<Card>, ids: seq<nat>)
    ensures MatchedCount(MapWhere(cs, ids, Matched)) == MatchedCount(cs) + UnmatchedAmong(cs, ids)
  {
    if cs != [] {
      MarkAddsUnmatched(cs[1..], ids);
      assert MapWhere(cs, ids, Matched)[1..] == MapWhere(cs[1..], ids, Matched);
    }
  }

  lemma {:induction false} UnmatchedAmongPair(cs: seq<Card>, a: nat, b: nat)
    requires a != b
    ensures UnmatchedAmong(cs, [a, b]) == UnmatchedAmong(cs, [a]) + UnmatchedAmong(cs, [b])
  {
    if cs != [] {
      UnmatchedAmongPair(cs[1..], a, b);
    }
  }

  lemma {:induction false} UnmatchedAbsent(cs: seq<Card>, a: nat)
    requires forall i :: 0 <= i < |cs| ==> cs[i].id != a
    ensures UnmatchedAmong(cs, [a]) == 0
  {
    if cs != [] {
      UnmatchedAbsent(cs[1..], a);
    }
  }

  /** With distinct ids, an unmatched card is the only card its id picks out. */
  lemma {:induction false} UnmatchedSingle(cs: seq<Card>, k: nat)
    requires DistinctCardIds(cs) && k < |cs| && !cs[k].isMatched
    ensures UnmatchedAmong(cs, [cs[k].id]) == 1
  {
    if k == 0 {
      UnmatchedAbsent(cs[1..], cs[0].id);
    } else {
      UnmatchedSingle(cs[1..], k - 1);
    }
  }

  /** Every card is matched exactly when the matched count reaches the deck size. */
  lemma {:induction false} AllMatchedCount(cs: seq<Card>)
    ensures MatchedCount(cs) == |cs| <==> forall i :: 0 <= i < |cs| ==> cs[i].isMatched
  {
    if cs != [] {
      AllMatchedCount(cs[1..]);
      assert forall i :: 1 <= i < |cs| ==> cs[i] == cs[1..][i - 1];
    }
  }

  /** A card is face up and unmatched: turned over in the current attempt. */
  predicate Showing(c: Card) {
    c.isFlipped && !c.isMatched
  }

  /** `id` is the id of an unmatched card of `cs`. */
  predicate UnmatchedCard(cs: seq<Card>, id: nat) {
    exists i :: 0 <= i < |cs| && cs[i].id == id && !cs[i].isMatched
  }

  /**
   * A consistent board: ids are distinct; at most two cards are turned in
   * an attempt, each an unmatched card, and they are exactly the face-up
   * unmatched cards; and the matched cards are two per match.
   */
  predicate Board(cs: seq<Card>, flipped: seq<nat>, matches: nat) {
    DistinctCardIds(cs) &&
    |flipped| <= 2 && Seqs.Distinct(flipped) &&
    (forall k :: 0 <= k < |flipped| ==> UnmatchedCard(cs, flipped[k])) &&
    (forall i :: 0 <= i < |cs| ==> (Showing(cs[i]) <==> cs[i].id in flipped)) &&
    MatchedCount(cs) == 2 * matches
  }

  /** A shuffled deck, face down with nothing matched, is a consistent board. */
  lemma ShuffledDeckBoard(contents: seq<string>, shuffled: seq<Card>)
    requires multiset(shuffled) == multiset(Deck(contents))
    ensures Board(shuffled, [], 0)
  {
    var deck := Deck(contents);
    DeckFacts(contents, "");
    assert Seqs.Distinct(deck) by {
      forall i, j | 0 <= i < j < |deck|
        ensures deck[i] != deck[j]
      {
        assert deck[i].id != deck[j].id;
      }
    }
    Seqs.PermutationDistinct(deck, shuffled);
    forall i | 0 <= i < |shuffled|
      ensures shuffled[i].id < |deck| && shuffled[i] == deck[shuffled[i].id]
    {
      assert shuffled[i] in multiset(deck);
    }
    NoneMatched(shuffled);
  }

  /** Turning up an unmatched card not yet in an attempt of fewer than two keeps the board consistent. */
  lemma FlipUpKeepsBoard(cs: seq<Card>, flipped: seq<nat>, matches: nat, i: nat)
    requires Board(cs, flipped, matches) && |flipped| < 2
    requires i < |cs| && !cs[i].isMatched && cs[i].id !in flipped
    ensures Board(MapWhere(cs, [cs[i].id], FaceUp), flipped + [cs[i].id], matches)
  {
    var id := cs[i].id;
    var r := MapWhere(cs, [id], FaceUp);
    var fl := flipped + [id];
    MapKeepsIds(cs, [id], FaceUp);
    MapKeepsMatched(cs, [id], FaceUp);
    forall k | 0 <= k < |fl|
      ensures UnmatchedCard(r, fl[k])
    {
      if k < |flipped| {
        var j :| 0 <= j < |cs| && cs[j].id == flipped[k] && !cs[j].isMatched;
        assert r[j].id == fl[k] && !r[j].isMatched;
      } else {
        assert r[i].id == fl[k] && !r[i].isMatched;
      }
    }
    forall j | 0 <= j < |r|
      ensures Showing(r[j]) <==> r[j].id in fl
    {
      if cs[j].id == id {
        assert j == i;
      }
    }
  }

  /** Whether the card handler ignores a click: an attempt is full, the card is already turned, or it is matched. */
  predicate ClickIgnored(cs: seq<Card>, flipped: seq<nat>, cardId: nat) {
    |flipped| == 2 || cardId in flipped || (Find(cs, cardId).Some? && Find(cs, cardId).value.isMatched)
  }

  /** A click that is not ignored turns up an unmatched card outside the attempt, keeping the board consistent. */
  lemma ClickKeepsBoard(cs: seq<Card>, flipped: seq<nat>, matches: nat, cardId: nat)
    requires Board(cs, flipped, matches) && exists i :: 0 <= i < |cs| && cs[i].id == cardId
    requires !ClickIgnored(cs, flipped, cardId)
    ensures Board(MapWhere(cs, [cardId], FaceUp), flipped + [cardId], matches)
  {
    var i :| 0 <= i < |cs| && cs[i].id == cardId;
    FindUnique(cs, i);
    FlipUpKeepsBoard(cs, flipped, matches, i);
  }

  /** Marking two distinct unmatched cards matched adds two to the matched count. */
  lemma MatchAddsTwo(cs: seq<Card>, flipped: seq<nat>)
    requires DistinctCardIds(cs) && |flipped| == 2 && flipped[0] != flipped[1]
    requires UnmatchedCard(cs, flipped[0]) && UnmatchedCard(cs, flipped[1])
    ensures MatchedCount(MapWhere(cs, flipped, Matched)) == MatchedCount(cs) + 2
  {
    var a :| 0 <= a < |cs| && cs[a].id == flipped[0] && !cs[a].isMatched;
    var b :| 0 <= b < |cs| && cs[b].id == flipped[1] && !cs[b].isMatched;
    assert flipped == [flipped[0], flipped[1]];
    MarkAddsUnmatched(cs, flipped);
    UnmatchedAmongPair(cs, flipped[0], flipped[1]);
    UnmatchedSingle(cs, a);
    UnmatchedSingle(cs, b);
  }

  /** Marking the turned cards matched leaves no card showing. */
  lemma MatchHidesAll(cs: seq<Card>, flipped: seq<nat>)
    requires forall i :: 0 <= i < |cs| ==> (Showing(cs[i]) <==> cs[i].id in flipped)
    ensures forall i :: 0 <= i < |cs| ==> !Showing(MapWhere(cs, flipped, Matched)[i])
  {
  }

  /** Matching the two turned cards keeps the board consistent with one more match. */
  lemma MatchKeepsBoard(cs: seq<Card>, flipped: seq<nat>, matches: nat)
    requires Board(cs, flipped, matches) && |flipped| == 2
    ensures Board(MapWhere(cs, flipped, Matched), [], matches + 1)
  {
    assert UnmatchedCard(cs, flipped[0]) && UnmatchedCard(cs, flipped[1]);
    MatchAddsTwo(cs, flipped);
    MatchHidesAll(cs, flipped);
    MapKeepsIds(cs, flipped, Matched);
  }

  /** Turning the two cards back down keeps the board consistent with the same matches. */
  lemma UnflipKeepsBoard(cs: seq<Card>, flipped: seq<nat>, matches: nat)
    requires Board(cs, flipped, matches)
    ensures Board(MapWhere(cs, flipped, FaceDown), [], matches)
  {
    MapKeepsIds(cs, flipped, FaceDown);
    MapKeepsMatched(cs, flipped, FaceDown);
  }

  lemma {:induction false} NoneMatched(cs: seq<Card>)
    requires forall i :: 0 <= i < |cs| ==> !cs[i].isMatched
    ensures MatchedCount(cs) == 0
  {
    if cs != [] {
      NoneMatched(cs[1..]);
    }
  }

  /** A map that keeps each card's id keeps the ids distinct. */
  lemma MapKeepsIds(cs: seq<Card>, ids: seq<nat>, f: Card -> Card)
    requires DistinctCardIds(cs)
    requires forall c :: f(c).id == c.id
    ensures DistinctCardIds(MapWhere(cs, ids, f))
  {
    var r := MapWhere(cs, ids, f);
    forall i, j | 0 <= i < j < |r|
      ensures r[i].id != r[j].id
    {
      assert r[i].id == cs[i].id && r[j].id == cs[j].id;
    }
  }

  /** A map that keeps each card's matched flag keeps the matched count. */
  lemma {:induction false} MapKeepsMatched(cs: seq<Card>, ids: seq<nat>, f: Card -> Card)
    requires forall c :: f(c).isMatched == c.isMatched
    ensures MatchedCount(MapWhere(cs, ids, f)) == MatchedCount(cs)
  {
    if cs != [] {
      MapKeepsMatched(cs[1..], ids, f);
      assert MapWhere(cs, ids, f)[1..] == MapWhere(cs[1..], ids, f);
    }
  }

  class MemoryRound {
    var cards: seq<Card>
    var flippedCards: seq<nat>
    var matches: nat
    var startTime: int

    predicate Valid()
      reads this
    {
      Board(cards, flippedCards, matches)
    }

    /** Mounting the game with a round in play: the era's deck in the order the shuffle produced. */
    constructor Start(dynastyId: string, shuffled: seq<Card>, now: int)
      requires multiset(shuffled) == multiset(Deck(MemoryCards(dynastyId)))
      ensures Valid()
      ensures cards == shuffled && flippedCards == [] && matches == 0 && startTime == now
    {
      ShuffledDeckBoard(MemoryCards(dynastyId), shuffled);
      cards := shuffled;
      flippedCards := [];
      matches := 0;
      startTime := now;
    }

    /**
     * `handleCardClick` on a card on the board. Ignored while two cards are
     * turned, for a card already turned and for a matched card; otherwise the
     * card turns face up and joins the attempt. A second card completes the
     * attempt, and `ResolveFlip` is then due.
     */
    method HandleCardClick(cardId: nat)
      requires Valid() && exists i :: 0 <= i < |cards| && cards[i].id == cardId
      modifies this
      ensures Valid()
      ensures ClickIgnored(old(cards), old(flippedCards), cardId) ==>
                cards == old(cards) && flippedCards == old(flippedCards)
      ensures !ClickIgnored(old(cards), old(flippedCards), cardId) ==>
                cards == MapWhere(old(cards), [cardId], FaceUp) && flippedCards == old(flippedCards) + [cardId]
      ensures matches == old(matches) && startTime == old(startTime)
    {
      if ClickIgnored(cards, flippedCards, cardId) {
        return;
      }
      ClickKeepsBoard(cards, flippedCards, matches, cardId);
      flippedCards := flippedCards + [cardId];
      cards := MapWhere(cards, [cardId], FaceUp);
    }

    /**
     * The delayed step after a second card is turned. Equal symbols:
     * both cards become matched, the match counter goes up and, when that
     * was the last pair, the round ends with full marks. Different symbols:
     * both turn back down. Either way the attempt is cleared.
     */
    method ResolveFlip(now: int) returns (ended: Option<GameScore>)
      requires Valid() && |flippedCards| == 2
      modifies this
      ensures Valid()
      ensures flippedCards == [] && startTime == old(startTime)
      ensures var same := ContentOf(old(cards), old(flippedCards)[0]) == ContentOf(old(cards), old(flippedCards)[1]);
              (same ==> cards == MapWhere(old(cards), old(flippedCards), Matched) && matches == old(matches) + 1) &&
              (!same ==> cards == MapWhere(old(cards), old(flippedCards), FaceDown) && matches == old(matches))
      ensures ended.Some? <==> matches == old(matches) + 1 && 2 * matches == |cards|
      ensures ended.Some? ==> ended.value == GameScore(|cards| / 2, |cards| / 2, ElapsedSeconds(startTime, now))
      ensures ended.Some? ==> forall i :: 0 <= i < |cards| ==> cards[i].isMatched
    {
      ended := None;
      var firstId, secondId := flippedCards[0], flippedCards[1];
      if ContentOf(cards, firstId) == ContentOf(cards, secondId) {
        MatchKeepsBoard(cards, flippedCards, matches);
        cards := MapWhere(cards, flippedCards, Matched);
        matches := matches + 1;
        flippedCards := [];
        if 2 * matches == |cards| {
          ended := Some(GameScore(|cards| / 2, |cards| / 2, ElapsedSeconds(startTime, now)));
          AllMatchedCount(cards);
        }
      } else {
        UnflipKeepsBoard(cards, flippedCards, matches);
        cards := MapWhere(cards, flippedCards, FaceDown);
        flippedCards := [];
      }
    }
  }
}
