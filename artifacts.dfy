/**
 * The cultural-treasures panel of an era: the era's artifacts in a grid,
 * a row of category filters, a category colour and caption on each card, and
 * a detail view of the selected artifact.
 */
module Artifacts {
  import opened Js
  import D = Dynasties

  /** An artifact; its prose, picture, discovery and location fields are not modelled. */
  datatype Artifact = Artifact(id: string, name: string, category: string)

  /** The six declared categories, in the order of the filter buttons. */
  const Categories: seq<string> := ["art", "literature", "music", "architecture", "technology", "treasure"]

  /** The values the filter buttons set: `all` followed by the six categories. */
  const FilterKeys: seq<string> := ["all"] + Categories

  /** The artifacts of each era that has an entry; any other era id gets none. */
  function ArtifactsData(dynastyId: string): seq<Artifact> {
    match dynastyId
    case "qin" => [
      Artifact("terracotta_army", "兵马俑", "art"),
      Artifact("qin_bronze", "秦代青铜器", "treasure")]
    case "han" => [
      Artifact("silk_road_artifacts", "丝路文物", "treasure"),
      Artifact("han_poetry", "汉赋经典", "literature")]
    case "three_kingdoms" => [
      Artifact("three_kingdoms_novel", "三国演义", "literature"),
      Artifact("guan_dao", "青龙偃月刀", "treasure"),
      Artifact("zhuge_fan", "诸葛亮羽扇", "art")]
    case "jin" => [
      Artifact("lantingxu", "兰亭序", "art"),
      Artifact("tao_poetry", "陶渊明诗集", "literature")]
    case "southern_northern" => [
      Artifact("buddhist_caves", "佛教石窟", "architecture"),
      Artifact("folk_songs", "南北朝民歌", "music")]
    case "sui" => [
      Artifact("grand_canal", "大运河", "architecture"),
      Artifact("sui_porcelain", "隋代瓷器", "art")]
    case "tang" => [
      Artifact("tang_poetry", "唐诗三百首", "literature"),
      Artifact("tang_painting", "唐代壁画", "art")]
    case "five_dynasties" => [
      Artifact("li_yu_ci", "李煜词集", "literature"),
      Artifact("five_dynasties_painting", "五代绘画", "art")]
    case _ => []
  }

  /** The era ids that have an entry. */
  const ArtifactEras: set<string> :=
    {"qin", "han", "three_kingdoms", "jin", "southern_northern", "sui", "tang", "five_dynasties"}

  /** Every artifact has one of the six declared categories, and the ids within an era differ. */
  lemma ArtifactTables(dynastyId: string)
    ensures forall a :: a in ArtifactsData(dynastyId) ==> a.category in Categories
    ensures forall i, j :: 0 <= i < j < |ArtifactsData(dynastyId)| ==>
              ArtifactsData(dynastyId)[i].id != ArtifactsData(dynastyId)[j].id
  {
    match dynastyId
    case "qin" =>
    case "han" =>
    case "three_kingdoms" =>
    case "jin" =>
    case "southern_northern" =>
    case "sui" =>
    case "tang" =>
    case "five_dynasties" =>
    case _ =>
  }

  /** An era has artifacts exactly when it has an entry: an unknown id gets an empty list, not another era's. */
  lemma UnknownEraEmpty(dynastyId: string)
    ensures ArtifactsData(dynastyId) == [] <==> dynastyId !in ArtifactEras
  {
  }

  /** Of the seven eras on the timeline, only Qin, Han and Tang have treasures to show. */
  lemma ShippedErasWithArtifacts(k: nat)
    requires k < |D.Table|
    ensures ArtifactsData(D.Table[k].id) != [] <==> k <= 2
  {
  }

  /** The cards on screen: all of them under `all`, otherwise those of the chosen category. */
  function FilteredArtifacts(artifacts: seq<Artifact>, filter: string): seq<Artifact> {
    if filter == "all" then artifacts else Filter(artifacts, (a: Artifact) => a.category == filter)
  }

  /**
   * The filter keeps the table order; an artifact is shown exactly when it is
   * one of the era's and `all` is chosen or it has the chosen category; `all`
   * shows every artifact as is.
   */
  lemma FilteredArtifactsFacts(artifacts: seq<Artifact>, filter: string, a: Artifact)
    ensures Subsequence(FilteredArtifacts(artifacts, filter), artifacts)
    ensures a in FilteredArtifacts(artifacts, filter) <==> a in artifacts && (filter == "all" || a.category == filter)
    ensures filter == "all" ==> FilteredArtifacts(artifacts, filter) == artifacts
  {
    if filter != "all" {
      FilterIsSubsequence(artifacts, (a: Artifact) => a.category == filter);
      FilterMembership(artifacts, (a: Artifact) => a.category == filter, a);
    } else {
      SubsequenceReflexive(artifacts);
    }
  }

  /** The gradient classes of a category; gray for anything else. */
  function CategoryColor(category: string): string {
    match category
    case "art" => "from-pink-400 to-rose-500"
    case "literature" => "from-blue-400 to-indigo-500"
    case "music" => "from-purple-400 to-violet-500"
    case "architecture" => "from-amber-400 to-orange-500"
    case "technology" => "from-green-400 to-emerald-500"
    case "treasure" => "from-yellow-400 to-gold-500"
    case _ => "from-gray-400 to-gray-500"
  }

  /** The six categories get six different gradients, and the gray one is left for every unlisted category. */
  lemma CategoryColors(category: string)
    ensures CategoryColor(category) == "from-gray-400 to-gray-500" <==> category !in Categories
    ensures forall i, j :: 0 <= i < j < |Categories| ==> CategoryColor(Categories[i]) != CategoryColor(Categories[j])
  {
    match category
    case "art" => case "literature" => case "music" => case "architecture" => case "technology" => case "treasure" =>
    case _ =>
  }

  /** The caption of a filter button; anything not matched earlier reads as 珍宝. */
  function FilterLabel(key: string): string {
    if key == "all" then "全部"
    else if key == "art" then "艺术"
    else if key == "literature" then "文学"
    else if key == "music" then "音乐"
    else if key == "architecture" then "建筑"
    else if key == "technology" then "技术"
    else "珍宝"
  }

  /** The caption on a card and in the detail view; anything not matched earlier reads as 珍宝. */
  function CategoryLabel(category: string): string {
    if category == "art" then "艺术品"
    else if category == "literature" then "文学作品"
    else if category == "music" then "音乐作品"
    else if category == "architecture" then "建筑"
    else if category == "technology" then "技术"
    else "珍宝"
  }

  /**
   * The seven button captions differ; a card's caption differs between the six
   * categories; an unlisted category is captioned 珍宝 like a treasure.
   */
  lemma Captions(category: string)
    ensures forall i, j :: 0 <= i < j < |FilterKeys| ==> FilterLabel(FilterKeys[i]) != FilterLabel(FilterKeys[j])
    ensures forall i, j :: 0 <= i < j < |Categories| ==> CategoryLabel(Categories[i]) != CategoryLabel(Categories[j])
    ensures category !in Categories ==> CategoryLabel(category) == CategoryLabel("treasure") == "珍宝"
    ensures category !in Categories ==> FilterLabel(category) == FilterLabel("treasure") || category == "all"
  {
  }

  /** The panel's state: the era shown, the chosen filter and the artifact opened in the detail view. */
  datatype ArtifactsPanel = ArtifactsPanel(dynastyId: string, filter: string, selectedArtifact: Option<Artifact>)

  /** The cards on screen. */
  function Shown(p: ArtifactsPanel): seq<Artifact> {
    FilteredArtifacts(ArtifactsData(p.dynastyId), p.filter)
  }

  /** An opened artifact is always one of the era's. */
  predicate PanelValid(p: ArtifactsPanel) {
    p.selectedArtifact.Some? ==> p.selectedArtifact.value in ArtifactsData(p.dynastyId)
  }

  /** Mounting: every artifact of the era shown, none opened. */
  function Mount(dynastyId: string): (p: ArtifactsPanel)
    ensures PanelValid(p)
    ensures p.dynastyId == dynastyId && p.filter == "all" && p.selectedArtifact == None
    ensures Shown(p) == ArtifactsData(dynastyId)
  {
    ArtifactsPanel(dynastyId, "all", None)
  }

  /** A filter button: the grid changes, an opened artifact stays open. */
  function SetFilter(p: ArtifactsPanel, key: string): (r: ArtifactsPanel)
    requires PanelValid(p)
    ensures PanelValid(r)
    ensures r.filter == key && r.dynastyId == p.dynastyId && r.selectedArtifact == p.selectedArtifact
  {
    p.(filter := key)
  }

  /** A click on a card opens its artifact. */
  function Select(p: ArtifactsPanel, a: Artifact): (r: ArtifactsPanel)
    requires PanelValid(p) && a in Shown(p)
    ensures PanelValid(r)
    ensures r.selectedArtifact == Some(a) && r.filter == p.filter && r.dynastyId == p.dynastyId
  {
    FilteredArtifactsFacts(ArtifactsData(p.dynastyId), p.filter, a);
    p.(selectedArtifact := Some(a))
  }

  /** The close button of the detail view. */
  function Close(p: ArtifactsPanel): (r: ArtifactsPanel)
    requires PanelValid(p)
    ensures PanelValid(r)
    ensures r.selectedArtifact == None && r.filter == p.filter && r.dynastyId == p.dynastyId
  {
    p.(selectedArtifact := None)
  }

  /** An era without an entry shows an empty grid under every filter, so nothing can be opened. */
  lemma NoEntryNothingShown(p: ArtifactsPanel)
    requires PanelValid(p) && p.dynastyId !in ArtifactEras
    ensures Shown(p) == [] && p.selectedArtifact == None
  {
    UnknownEraEmpty(p.dynastyId);
    if p.filter != "all" {
      assert |Shown(p)| <= |ArtifactsData(p.dynastyId)|;
    }
  }
}
