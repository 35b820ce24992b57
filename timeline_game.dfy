/**
 * The event-ordering game: the player is shown an era's events in shuffled
 * order, drags a card onto another to move it there, and submits. The round
 * scores all or nothing: every event if the order is chronological, else none.
 */
module TimelineGame {
  import opened Js
  import opened Games
  import Seqs

  datatype Event = Event(id: string, text: string, year: int)

  /** The events of each era; any other era id gets the qin list. */
  function TimelineEvents(dynastyId: string): seq<Event> {
    match dynastyId
    case "han" => [
      Event("1", "刘邦建立汉朝", -202),
      Event("2", "文景之治开始", -180),
      Event("3", "汉武帝即位", -141),
      Event("4", "张骞出使西域", -138),
      Event("5", "司马迁完成史记", -91)]
    case "tang" => [
      Event("1", "李渊建立唐朝", 618),
      Event("2", "贞观之治开始", 627),
      Event("3", "武则天称帝", 690),
      Event("4", "开元盛世", 713),
      Event("5", "安史之乱爆发", 755)]
    case _ => [
      Event("1", "秦王嬴政即位", -246),
      Event("2", "统一六国", -221),
      Event("3", "焚书坑儒", -213),
      Event("4", "修筑长城", -214),
      Event("5", "秦始皇去世", -210)]
  }

  /** `events.map(e => e.id)`. */
  function Ids(es: seq<Event>): (ids: seq<string>)
    ensures |ids| == |es| && forall i :: 0 <= i < |es| ==> ids[i] == es[i].id
  {
    if es == [] then [] else [es[0].id] + Ids(es[1..])
  }

  predicate DistinctIds(es: seq<Event>) {
    forall i, j :: 0 <= i < j < |es| ==> es[i].id != es[j].id
  }

  predicate DistinctYears(es: seq<Event>) {
    forall i, j :: 0 <= i < j < |es| ==> es[i].year != es[j].year
  }

  /** Every era's list has five events with distinct ids and distinct years; unknown eras get qin's. */
  lemma EventTables(dynastyId: string)
    ensures |TimelineEvents(dynastyId)| == 5
    ensures DistinctIds(TimelineEvents(dynastyId)) && DistinctYears(TimelineEvents(dynastyId))
    ensures dynastyId !in {"han", "tang"} ==> TimelineEvents(dynastyId) == TimelineEvents("qin")
  {
    match dynastyId
    case "han" =>
    case "tang" =>
    case _ =>
  }

  predicate SortedByYear(es: seq<Event>) {
    forall i, j :: 0 <= i < j < |es| ==> es[i].year <= es[j].year
  }

  /** Put `e` in front of the first event of `s` that is not earlier than it. */
  function InsertByYear(e: Event, s: seq<Event>): seq<Event> {
    if s == [] || e.year <= s[0].year then [e] + s else [s[0]] + InsertByYear(e, s[1..])
  }

  /** `events.sort((a, b) => a.year - b.year)`: a stable sort by year. */
  function SortByYear(es: seq<Event>): seq<Event> {
    if es == [] then [] else InsertByYear(es[0], SortByYear(es[1..]))
  }

  lemma IdsAppend(a: seq<Event>, b: seq<Event>)
    ensures Ids(a + b) == Ids(a) + Ids(b)
  {
  }

  /** Rearranging events rearranges their ids the same way. */
  lemma {:induction false} IdsOfPermutation(a: seq<Event>, b: seq<Event>)
    requires multiset(a) == multiset(b)
    ensures multiset(Ids(a)) == multiset(Ids(b))
    decreases |a|
  {
    if a != [] {
      assert a[0] in multiset(b);
      var k :| 0 <= k < |b| && b[k] == a[0];
      var rest := b[..k] + b[k + 1..];
      assert b == b[..k] + [b[k]] + b[k + 1..];
      assert a == [a[0]] + a[1..];
      assert multiset(a) == multiset(a[1..]) + multiset{a[0]};
      assert multiset(b) == multiset(rest) + multiset{a[0]};
      Seqs.MultisetCancel(multiset(a[1..]), multiset(rest), a[0]);
      IdsOfPermutation(a[1..], rest);
      IdsAppend(b[..k] + [b[k]], b[k + 1..]);
      IdsAppend(b[..k], [b[k]]);
      IdsAppend(b[..k], b[k + 1..]);
    }
  }

  lemma {:induction false} InsertByYearMultiset(e: Event, s: seq<Event>)
    ensures multiset(InsertByYear(e, s)) == multiset(s) + multiset{e}
  {
    if s != [] && e.year > s[0].year {
      InsertByYearMultiset(e, s[1..]);
      assert s == [s[0]] + s[1..];
    }
  }

  lemma {:induction false} InsertByYearSorted(e: Event, s: seq<Event>)
    requires SortedByYear(s)
    ensures SortedByYear(InsertByYear(e, s))
  {
    if s != [] && e.year > s[0].year {
      InsertByYearSorted(e, s[1..]);
      var r := InsertByYear(e, s[1..]);
      InsertByYearMultiset(e, s[1..]);
      forall k | 0 <= k < |r|
        ensures s[0].year <= r[k].year
      {
        assert r[k] in multiset(s[1..]) + multiset{e};
      }
    }
  }

  lemma {:induction false} SortByYearSorted(es: seq<Event>)
    ensures SortedByYear(SortByYear(es))
  {
    if es != [] {
      SortByYearSorted(es[1..]);
      InsertByYearSorted(es[0], SortByYear(es[1..]));
    }
  }

  lemma {:induction false} SortByYearPermutes(es: seq<Event>)
    ensures multiset(SortByYear(es)) == multiset(es)
  {
    if es != [] {
      SortByYearPermutes(es[1..]);
      InsertByYearMultiset(es[0], SortByYear(es[1..]));
      assert es == [es[0]] + es[1..];
    }
  }

  /** The sort puts the events in chronological order and keeps every event, with its id. */
  lemma SortByYearFacts(es: seq<Event>)
    ensures SortedByYear(SortByYear(es))
    ensures multiset(SortByYear(es)) == multiset(es)
    ensures multiset(Ids(SortByYear(es))) == multiset(Ids(es))
  {
    SortByYearSorted(es);
    SortByYearPermutes(es);
    IdsOfPermutation(SortByYear(es), es);
  }

  /** A non-empty sequence is its head added to its tail, as a multiset. */
  lemma HeadTailMultiset(s: seq<Event>)
    requires s != []
    ensures multiset(s) == multiset(s[1..]) + multiset{s[0]}
  {
    assert s == [s[0]] + s[1..];
  }

  /** Two chronological arrangements of the same events, no two in the same year, start with the same event. */
  lemma SameFirst(a: seq<Event>, b: seq<Event>)
    requires SortedByYear(a) && SortedByYear(b) && DistinctYears(a)
    requires multiset(a) == multiset(b) && a != []
    ensures b != [] && a[0] == b[0]
  {
    assert a[0] in multiset(b);
    assert |b| == |a|;
    assert b[0] in multiset(a);
    var i :| 0 <= i < |a| && a[i] == b[0];
    var j :| 0 <= j < |b| && b[j] == a[0];
    assert a[0].year <= a[i].year == b[0].year <= b[j].year == a[0].year;
  }

  /** When no two events share a year, there is only one chronological arrangement of them. */
  lemma {:induction false} ChronologicalIsUnique(a: seq<Event>, b: seq<Event>)
    requires SortedByYear(a) && SortedByYear(b) && DistinctYears(a)
    requires multiset(a) == multiset(b)
    ensures a == b
  {
    if a != [] {
      SameFirst(a, b);
      HeadTailMultiset(a);
      HeadTailMultiset(b);
      Seqs.MultisetCancel(multiset(a[1..]), multiset(b[1..]), a[0]);
      ChronologicalIsUnique(a[1..], b[1..]);
    }
  }

  /** The order qin's events must be put in: the wall (-214) comes before the book burning (-213). */
  lemma QinAnswer()
    ensures Ids(SortByYear(TimelineEvents("qin"))) == ["1", "2", "4", "3", "5"]
  {
    var es := TimelineEvents("qin");
    assert es[4..][1..] == [] && es[3..][1..] == es[4..] && es[2..][1..] == es[3..] && es[1..][1..] == es[2..];
    assert SortByYear(es[4..]) == [es[4]];
    assert SortByYear(es[3..]) == [es[3], es[4]];
    assert InsertByYear(es[2], [es[4]]) == [es[2], es[4]];
    assert SortByYear(es[2..]) == [es[3], es[2], es[4]];
    assert SortByYear(es[1..]) == [es[1], es[3], es[2], es[4]];
  }

  /** The order after dropping `dragged` onto `target`: splice it out, then in at the target's old index. */
  function Drop(order: seq<string>, dragged: string, target: string): seq<string> {
    InsertAt(RemoveAt(order, IndexOf(order, dragged)), IndexOf(order, target), dragged)
  }

  /**
   * A drop is a move: the same ids, the dragged one now at the target's
   * original index, the others in their old relative order; a card dropped
   * onto itself stays where it was.
   */
  lemma DropMoves(order: seq<string>, dragged: string, target: string)
    requires dragged in order && target in order
    ensures |Drop(order, dragged, target)| == |order|
    ensures multiset(Drop(order, dragged, target)) == multiset(order)
    ensures Drop(order, dragged, target)[IndexOf(order, target)] == dragged
    ensures RemoveAt(Drop(order, dragged, target), IndexOf(order, target)) ==
            RemoveAt(order, IndexOf(order, dragged))
    ensures Drop(order, dragged, dragged) == order
  {
    var i := IndexOf(order, dragged);
    var j := IndexOf(order, target);
    var rest := RemoveAt(order, i);
    assert |rest| == |order| - 1 && SpliceStart(|rest|, j) == j;
    DropPermutes(order, dragged, target);
    RemoveInserted(rest, j, dragged);
    DropOntoSelf(order, dragged);
  }

  /** A drop keeps the ids on screen. */
  lemma DropPermutes(order: seq<string>, dragged: string, target: string)
    requires dragged in order
    ensures multiset(Drop(order, dragged, target)) == multiset(order)
  {
    var i := IndexOf(order, dragged);
    RemoveAtMultiset(order, i);
    InsertAtMultiset(RemoveAt(order, i), IndexOf(order, target), dragged);
  }

  /** Dropping a card onto itself splices it out and back in at the same index. */
  lemma DropOntoSelf(order: seq<string>, dragged: string)
    requires dragged in order
    ensures Drop(order, dragged, dragged) == order
  {
    InsertRemoved(order, IndexOf(order, dragged));
  }

  /** Timeline scoring: every event if the order submitted is the chronological one, else nothing. */
  function TimelineCorrect(userOrder: seq<string>, events: seq<Event>): nat {
    if EveryMatches(userOrder, Ids(SortByYear(events))) then |events| else 0
  }

  /** With one id submitted per event, the round scores full marks exactly when the order is chronological. */
  lemma AllOrNothing(userOrder: seq<string>, events: seq<Event>)
    requires |userOrder| == |events|
    ensures TimelineCorrect(userOrder, events) == |events| <==> userOrder == Ids(SortByYear(events))
    ensures TimelineCorrect(userOrder, events) == 0 || TimelineCorrect(userOrder, events) == |events|
  {
    SortByYearFacts(events);
    assert |Ids(SortByYear(events))| == |events| by {
      assert |multiset(SortByYear(events))| == |multiset(events)|;
    }
    EveryMatchesIsEqual(userOrder, Ids(SortByYear(events)));
  }

  class TimelineSortGame {
    var events: seq<Event>
    var userOrder: seq<string>
    var startTime: int
    var draggedItem: Option<string>

    /** The order on screen always lists the ids of the round's events, and a dragged card is on screen. */
    predicate Valid()
      reads this
    {
      multiset(userOrder) == multiset(Ids(events)) &&
      (Truthy(draggedItem) ==> draggedItem.value in userOrder)
    }

    /**
     * Mounting the game with a round in play: the era's events in the order
     * the shuffle produced (any arrangement of them), the ids in that order.
     */
    constructor Start(dynastyId: string, shuffled: seq<Event>, now: int)
      requires multiset(shuffled) == multiset(TimelineEvents(dynastyId))
      ensures Valid()
      ensures events == shuffled && userOrder == Ids(shuffled)
      ensures startTime == now && draggedItem == None
    {
      events := shuffled;
      userOrder := Ids(shuffled);
      startTime := now;
      draggedItem := None;
    }

    /** `handleDragStart` on a card on screen. */
    method DragStart(itemId: string)
      requires Valid() && itemId in userOrder
      modifies this
      ensures Valid()
      ensures draggedItem == Some(itemId)
      ensures events == old(events) && userOrder == old(userOrder) && startTime == old(startTime)
    {
      draggedItem := Some(itemId);
    }

    /** `handleDrop` onto a card on screen; without a (non-empty) dragged id it does nothing. */
    method HandleDrop(targetId: string)
      requires Valid() && targetId in userOrder
      modifies this
      ensures Valid()
      ensures !Truthy(old(draggedItem)) ==> userOrder == old(userOrder) && draggedItem == old(draggedItem)
      ensures Truthy(old(draggedItem)) ==>
                userOrder == Drop(old(userOrder), old(draggedItem).value, targetId) && draggedItem == None
      ensures events == old(events) && startTime == old(startTime)
    {
      if Truthy(draggedItem) {
        var dragged := draggedItem.value;
        var newOrder := userOrder;
        var draggedIndex := IndexOf(newOrder, dragged);
        var targetIndex := IndexOf(newOrder, targetId);
        newOrder := RemoveAt(newOrder, draggedIndex);
        newOrder := InsertAt(newOrder, targetIndex, dragged);
        DropPermutes(userOrder, dragged, targetId);
        userOrder, draggedItem := newOrder, None;
      }
    }

    /**
     * `checkAnswer`: sorts the events in place by year, compares the order on
     * screen with the sorted ids and reports the score.
     */
    method CheckAnswer(now: int) returns (score: GameScore)
      requires Valid()
      modifies this
      ensures Valid()
      ensures events == SortByYear(old(events)) && userOrder == old(userOrder)
      ensures draggedItem == old(draggedItem) && startTime == old(startTime)
      ensures score == GameScore(TimelineCorrect(userOrder, old(events)), |events|, ElapsedSeconds(startTime, now))
    {
      SortByYearFacts(events);
      assert |SortByYear(events)| == |events| by {
        assert |multiset(SortByYear(events))| == |multiset(events)|;
      }
      events := SortByYear(events);
      var correctOrder := Ids(events);
      var correct := if EveryMatches(userOrder, correctOrder) then |events| else 0;
      score := GameScore(correct, |events|, ElapsedSeconds(startTime, now));
    }
  }
}
