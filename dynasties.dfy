/**
 * The era table the timeline is drawn from: seven dynasties, each with its
 * id, names, start and end year (negative years are BCE) and duration.
 * The lists of notable figures, achievements and cultural elements and the
 * descriptive prose of each record carry no behaviour and are not modelled.
 */
module Dynasties {

  datatype Dynasty = Dynasty(
    id: string,
    name: string,
    englishName: string,
    startYear: int,
    endYear: int,
    duration: int,
    capital: string,
    founder: string,
    color: string,
    symbol: string)

  /** The shipped table, in the order the timeline lists it. */
  const Table: seq<Dynasty> := [
    Dynasty("qin", "秦", "Qin Dynasty", -221, -206, 15, "咸阳", "嬴政", "#8B4513", "🐉"),
    Dynasty("han", "汉", "Han Dynasty", -202, 220, 422, "长安/洛阳", "刘邦", "#FFD700", "🏮"),
    Dynasty("tang", "唐", "Tang Dynasty", 618, 907, 289, "长安", "李渊", "#8A2BE2", "🌸"),
    Dynasty("song", "宋", "Song Dynasty", 960, 1279, 319, "开封/临安", "赵匡胤", "#20B2AA", "🎋"),
    Dynasty("yuan", "元", "Yuan Dynasty", 1271, 1368, 97, "大都", "忽必烈", "#4682B4", "🏹"),
    Dynasty("ming", "明", "Ming Dynasty", 1368, 1644, 276, "南京/北京", "朱元璋", "#DC143C", "🌅"),
    Dynasty("qing", "清", "Qing Dynasty", 1644, 1912, 268, "北京", "努尔哈赤", "#4B0082", "🦅")
  ]

  /** Every record's duration is its end year minus its start year. */
  predicate DurationsConsistent(ds: seq<Dynasty>) {
    forall i :: 0 <= i < |ds| ==> ds[i].duration == ds[i].endYear - ds[i].startYear
  }

  /** Every record spans at least one year. */
  predicate SpansNonEmpty(ds: seq<Dynasty>) {
    forall i :: 0 <= i < |ds| ==> ds[i].startYear < ds[i].endYear
  }

  /** No two records share an id. */
  predicate IdsDistinct(ds: seq<Dynasty>) {
    forall i, j :: 0 <= i < j < |ds| ==> ds[i].id != ds[j].id
  }

  /** Records are listed by non-decreasing start year. */
  predicate OrderedByStart(ds: seq<Dynasty>) {
    forall i, j :: 0 <= i < j < |ds| ==> ds[i].startYear <= ds[j].startYear
  }

  /** Two records overlap when one starts before the other ends. */
  predicate Overlap(a: Dynasty, b: Dynasty) {
    a.startYear < b.endYear && b.startYear < a.endYear
  }

  /** The table's invariants: consistent durations, non-empty spans, unique ids, start order. */
  lemma TableInvariants()
    ensures |Table| == 7
    ensures DurationsConsistent(Table)
    ensures SpansNonEmpty(Table)
    ensures IdsDistinct(Table)
    ensures OrderedByStart(Table)
  {
    TableYears();
    TableIds();
  }

  /** The year columns: durations, spans and start order. */
  lemma TableYears()
    ensures DurationsConsistent(Table) && SpansNonEmpty(Table) && OrderedByStart(Table)
  {
  }

  /** The id column. */
  lemma TableIds()
    ensures IdsDistinct(Table)
  {
  }

  /** Spans may overlap: yuan starts in 1271, before song ends in 1279. */
  lemma SongYuanOverlap()
    ensures Table[3].id == "song" && Table[4].id == "yuan"
    ensures Overlap(Table[3], Table[4])
  {
  }
}
