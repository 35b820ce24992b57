/**
 * The major-events panel of an era: the era's events listed in the order
 * the table gives them, a row of type filters, an importance rating of five
 * stars, a short participant line, and a detail view of the selected event.
 */
module Events {
  import opened Js
  import D = Dynasties

  /** A historical event; the prose description and consequences are not modelled. */
  datatype Event = Event(id: string, year: int, title: string, kind: string, importance: int, participants: seq<string>)

  /** The five event types, in the order of the filter buttons. */
  const EventTypes: seq<string> := ["political", "military", "cultural", "economic", "disaster"]

  /** The values the filter buttons set: `all` followed by the five types. */
  const FilterKeys: seq<string> := ["all"] + EventTypes

  /** The events of each era; any other era id gets qin's. */
  function EventsData(dynastyId: string): seq<Event> {
    match dynastyId
    case "han" => [
      Event("silk_road", -138, "张骞出使西域", "economic", 5, ["张骞", "汉武帝"]),
      Event("confucianism", -136, "独尊儒术", "cultural", 4, ["汉武帝", "董仲舒"]),
      Event("records", -91, "史记完成", "cultural", 5, ["司马迁"])]
    case "tang" => [
      Event("zhenguan", 627, "贞观之治", "political", 5, ["李世民", "魏征", "房玄龄"]),
      Event("wu_zetian", 690, "武则天称帝", "political", 4, ["武则天"]),
      Event("poetry_peak", 742, "诗歌黄金时代", "cultural", 5, ["李白", "杜甫", "王维"])]
    case _ => [
      Event("unification", -221, "秦统一六国", "political", 5, ["秦始皇", "李斯", "王翦"]),
      Event("burning_books", -213, "焚书坑儒", "cultural", 4, ["秦始皇", "李斯"]),
      Event("great_wall", -214, "修筑长城", "military", 5, ["蒙恬", "扶苏"])]
  }

  /** The ids of a list of events are pairwise different. */
  predicate DistinctEventIds(es: seq<Event>) {
    forall i, j :: 0 <= i < j < |es| ==> es[i].id != es[j].id
  }

  /** Every era has three events with distinct ids, a declared type, a rating from 1 to 5 and someone taking part. */
  lemma EventTables(dynastyId: string)
    ensures |EventsData(dynastyId)| == 3
    ensures DistinctEventIds(EventsData(dynastyId))
    ensures forall e :: e in EventsData(dynastyId) ==>
              e.kind in EventTypes && 1 <= e.importance <= 5 && |e.participants| >= 1
    ensures dynastyId !in {"han", "tang"} ==> EventsData(dynastyId) == EventsData("qin")
  {
  }

  /** The four later eras of the timeline (Song to Qing) have no entry and so list Qin's events. */
  lemma ShippedErasFallBack(k: nat)
    requires k < |D.Table|
    ensures D.Table[k].id !in {"qin", "han", "tang"} <==> k >= 3
    ensures k >= 3 ==> EventsData(D.Table[k].id) == EventsData("qin")
  {
  }

  /** The listed events: all of them under `all`, otherwise those whose type is the filter value. */
  function FilteredEvents(events: seq<Event>, filter: string): seq<Event> {
    if filter == "all" then events else Filter(events, (e: Event) => e.kind == filter)
  }

  /**
   * The filter keeps the table order and drops nothing it should keep: an
   * event is listed exactly when it is one of the era's and `all` is chosen or
   * its type is the chosen one; `all` lists every event as is.
   */
  lemma FilteredEventsFacts(events: seq<Event>, filter: string, e: Event)
    ensures Subsequence(FilteredEvents(events, filter), events)
    ensures e in FilteredEvents(events, filter) <==> e in events && (filter == "all" || e.kind == filter)
    ensures filter == "all" ==> FilteredEvents(events, filter) == events
  {
    if filter != "all" {
      FilterIsSubsequence(events, (e: Event) => e.kind == filter);
      FilterMembership(events, (e: Event) => e.kind == filter, e);
    } else {
      SubsequenceReflexive(events);
    }
  }

  /** The icon drawn for an event type. */
  datatype Icon = Crown | Sword | Scroll | StarIcon | Zap | CalendarIcon

  function EventIcon(kind: string): Icon {
    match kind
    case "political" => Crown
    case "military" => Sword
    case "cultural" => Scroll
    case "economic" => StarIcon
    case "disaster" => Zap
    case _ => CalendarIcon
  }

  /** The gradient classes of an event type. */
  function EventColor(kind: string): string {
    match kind
    case "political" => "from-yellow-400 to-orange-500"
    case "military" => "from-red-400 to-pink-500"
    case "cultural" => "from-purple-400 to-indigo-500"
    case "economic" => "from-green-400 to-emerald-500"
    case "disaster" => "from-gray-400 to-gray-600"
    case _ => "from-blue-400 to-cyan-500"
  }

  /** The five types get five different icons and colours; the calendar icon and blue gradient go to undeclared types only. */
  lemma IconsAndColors(kind: string)
    ensures EventIcon(kind) == CalendarIcon <==> kind !in EventTypes
    ensures EventColor(kind) == "from-blue-400 to-cyan-500" <==> kind !in EventTypes
    ensures forall i, j :: 0 <= i < j < |EventTypes| ==>
              EventIcon(EventTypes[i]) != EventIcon(EventTypes[j]) &&
              EventColor(EventTypes[i]) != EventColor(EventTypes[j])
  {
    match kind
    case "political" => case "military" => case "cultural" => case "economic" => case "disaster" =>
    case _ =>
  }

  /** The caption of a filter button; anything past the first five keys reads as disaster. */
  function FilterLabel(key: string): string {
    if key == "all" then "全部"
    else if key == "political" then "政治"
    else if key == "military" then "军事"
    else if key == "cultural" then "文化"
    else if key == "economic" then "经济"
    else "灾难"
  }

  /** The type badge of the detail view; anything past the first four types reads as disaster. */
  function TypeBadge(kind: string): string {
    if kind == "political" then "政治事件"
    else if kind == "military" then "军事事件"
    else if kind == "cultural" then "文化事件"
    else if kind == "economic" then "经济事件"
    else "灾难事件"
  }

  /** For a declared type the badge is the button's caption followed by "事件", and the six captions differ. */
  lemma BadgeMatchesFilterLabel(kind: string)
    ensures kind in EventTypes ==> TypeBadge(kind) == FilterLabel(kind) + "事件"
    ensures forall i, j :: 0 <= i < j < |FilterKeys| ==> FilterLabel(FilterKeys[i]) != FilterLabel(FilterKeys[j])
  {
  }

  /** `formatYear`: positive years as "公元N年", the others as "公元前N年" with the absolute value. */
  function FormatYear(year: int): (r: string)
    ensures |r| >= 4 && r[..2] == "公元" && r[|r| - 1] == '年'
    ensures r[2] == '前' <==> year <= 0
  {
    if year > 0 then
      var digits := NatToString(year);
      assert IsDigit(digits[0]);
      "公元" + digits + "年"
    else "公元前" + NatToString(-year) + "年"
  }

  /** The digits between 公元 (or 公元前) and 年 read back as the year, or as its absolute value for years up to 0. */
  lemma FormatYearShowsYear(year: int)
    ensures var r := FormatYear(year);
            var digits := if year > 0 then r[2..|r| - 1] else r[3..|r| - 1];
            (forall i :: 0 <= i < |digits| ==> IsDigit(digits[i])) &&
            ParseNat(digits) == if year > 0 then year else -year
  {
    var r := FormatYear(year);
    if year > 0 {
      assert r[2..|r| - 1] == NatToString(year);
      ParseNatToString(year);
    } else {
      assert r[3..|r| - 1] == NatToString(-year);
      ParseNatToString(-year);
    }
  }

  /** Two different years never print alike. */
  lemma FormatYearInjective(a: int, b: int)
    requires FormatYear(a) == FormatYear(b)
    ensures a == b
  {
    var s := FormatYear(a);
    if a > 0 && b > 0 {
      assert s[2..|s| - 1] == NatToString(a);
      assert s[2..|s| - 1] == NatToString(b);
      NatToStringInjective(a, b);
    } else if a <= 0 && b <= 0 {
      assert s[3..|s| - 1] == NatToString(-a);
      assert s[3..|s| - 1] == NatToString(-b);
      NatToStringInjective(-a, -b);
    }
  }

  /** The five rating stars: star `i` is filled when `i < importance`. */
  function Stars(importance: int): (r: seq<bool>)
    ensures |r| == 5
  {
    seq(5, i => i < importance)
  }

  /** The number of filled stars among the first `m` is `min(m, importance)`. */
  lemma {:induction false} StarsPrefix(importance: nat, m: nat)
    requires m <= 5
    ensures CountTrue(Stars(importance)[..m]) == if m < importance then m else importance
  {
    if m > 0 {
      StarsPrefix(importance, m - 1);
      assert Stars(importance)[..m] == Stars(importance)[..m - 1] + [Stars(importance)[m - 1]];
      CountTrueAppend(Stars(importance)[..m - 1], Stars(importance)[m - 1]);
    }
  }

  /** A rating of 1 to 5 fills exactly that many stars, the filled ones first. */
  lemma StarsShowImportance(importance: int)
    requires 1 <= importance <= 5
    ensures CountTrue(Stars(importance)) == importance
    ensures forall i :: 0 <= i < 5 ==> (Stars(importance)[i] <==> i < importance)
  {
    StarsPrefix(importance, 5);
    assert Stars(importance)[..5] == Stars(importance);
  }

  /** The participant line: the first two names joined by ", ", then "..." when there are more. */
  function ParticipantSummary(ps: seq<string>): (r: string)
    ensures ps == [] ==> r == ""
    ensures |ps| == 1 ==> r == ps[0]
    ensures |ps| >= 2 ==> r == ps[0] + ", " + ps[1] + (if |ps| > 2 then "..." else "")
  {
    var shown := if |ps| <= 2 then ps else ps[..2];
    Join(shown, ", ") + (if |ps| > 2 then "..." else "")
  }

  /** The panel's state: the era shown, the chosen filter and the event opened in the detail view. */
  datatype EventsPanel = EventsPanel(dynastyId: string, filter: string, selectedEvent: Option<Event>)

  /** The events on screen. */
  function Shown(p: EventsPanel): seq<Event> {
    FilteredEvents(EventsData(p.dynastyId), p.filter)
  }

  /** An opened event is always one of the era's. */
  predicate PanelValid(p: EventsPanel) {
    p.selectedEvent.Some? ==> p.selectedEvent.value in EventsData(p.dynastyId)
  }

  /** `selectedEvent?.id === event.id`: the card drawn enlarged. */
  predicate Highlighted(p: EventsPanel, e: Event) {
    p.selectedEvent.Some? && p.selectedEvent.value.id == e.id
  }

  /** Mounting: every event of the era listed, none opened. */
  function Mount(dynastyId: string): (p: EventsPanel)
    ensures PanelValid(p)
    ensures p.dynastyId == dynastyId && p.filter == "all" && p.selectedEvent == None
    ensures Shown(p) == EventsData(dynastyId)
  {
    EventsPanel(dynastyId, "all", None)
  }

  /** A filter button: the list changes, an opened event stays open. */
  function SetFilter(p: EventsPanel, key: string): (r: EventsPanel)
    requires PanelValid(p)
    ensures PanelValid(r)
    ensures r.filter == key && r.dynastyId == p.dynastyId && r.selectedEvent == p.selectedEvent
  {
    p.(filter := key)
  }

  /** A click on a listed event opens it. */
  function Select(p: EventsPanel, e: Event): (r: EventsPanel)
    requires PanelValid(p) && e in Shown(p)
    ensures PanelValid(r)
    ensures r.selectedEvent == Some(e) && r.filter == p.filter && r.dynastyId == p.dynastyId
  {
    FilteredEventsFacts(EventsData(p.dynastyId), p.filter, e);
    p.(selectedEvent := Some(e))
  }

  /** The close button of the detail view. */
  function Close(p: EventsPanel): (r: EventsPanel)
    requires PanelValid(p)
    ensures PanelValid(r)
    ensures r.selectedEvent == None && r.filter == p.filter && r.dynastyId == p.dynastyId
  {
    p.(selectedEvent := None)
  }

  /** Among the listed events, the one drawn enlarged is exactly the opened one. */
  lemma HighlightIsSelection(p: EventsPanel, e: Event)
    requires PanelValid(p) && e in Shown(p)
    ensures Highlighted(p, e) <==> p.selectedEvent == Some(e)
  {
    var es := EventsData(p.dynastyId);
    EventTables(p.dynastyId);
    FilteredEventsFacts(es, p.filter, e);
    if Highlighted(p, e) {
      var s := p.selectedEvent.value;
      var i :| 0 <= i < |es| && es[i] == s;
      var j :| 0 <= j < |es| && es[j] == e;
      assert i == j;
    }
  }
}
