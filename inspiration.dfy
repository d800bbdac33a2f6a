/**
 * The inspiration capsule: a user-ordered list of channels, the active channel,
 * the search engine, the preset "trend" cards shown when AI analysis is off,
 * and the choice of the page a search term opens. `encodeURIComponent` is
 * a parameter (`encode`), since the model does not describe it.
 */
module Inspiration {
  import opened Model
  import opened Strings
  import Seqs

  datatype Channel = Channel(id: string, name: string)

  datatype Engine = Baidu | Bing | Google

  /** A card of the trend list before it is given an id (`searchItem`, `mockItems`). */
  datatype TrendItem = TrendItem(title: string, description: string, tags: seq<string>, searchTerm: string, img: string)

  const GitHub: Channel := Channel("github", "GitHub 热榜")

  /** The channel list of a first start. */
  const DefaultChannels: seq<Channel> := [
    Channel("tech", "科技前沿"),
    GitHub,
    Channel("design", "设计美学"),
    Channel("douyin", "抖音热榜"),
    Channel("weibo", "微博热搜"),
    Channel("redbook", "小红书热点")
  ]

  predicate HasId(cs: seq<Channel>, id: string)
  {
    exists i :: 0 <= i < |cs| && cs[i].id == id
  }

  // ---------------------------------------------------------------------
  // The channel list read at start-up
  // ---------------------------------------------------------------------

  /**
   * The channel list the capsule starts with: the defaults when nothing was
   * saved; a saved list without GitHub and with fewer than 8 channels gets
   * GitHub put second (first when the list is empty); any other saved list
   * is used as it is.
   */
  function InitialChannels(saved: Option<seq<Channel>>): (r: seq<Channel>)
    ensures saved.None? ==> r == DefaultChannels
    ensures saved.Some? && (HasId(saved.value, "github") || |saved.value| >= 8) ==> r == saved.value
    ensures saved.Some? && !HasId(saved.value, "github") && |saved.value| < 8 ==>
      var k := if |saved.value| == 0 then 0 else 1;
      |r| == |saved.value| + 1 && r[k] == GitHub && Seqs.RemoveAt(r, k) == saved.value
    ensures HasId(r, "github") || |r| >= 8
  {
    if saved.None? then
      assert DefaultChannels[1] == GitHub;
      DefaultChannels
    else
      var p := saved.value;
      if !HasId(p, "github") && |p| < 8 then
        var k := if |p| == 0 then 0 else 1;
        assert p[..k] + [GitHub] + p[k..] == Seqs.InsertAt(p, k, GitHub);
        var r := Seqs.InsertAt(p, k, GitHub);
        assert r[k].id == "github";
        r
      else p
  }

  /** The list is saved back as it is used, and reading it again changes nothing: GitHub is inserted once. */
  lemma MigrationOnce(saved: Option<seq<Channel>>)
    ensures InitialChannels(Some(InitialChannels(saved))) == InitialChannels(saved)
  {
  }

  // ---------------------------------------------------------------------
  // Cards shown when AI analysis is off
  // ---------------------------------------------------------------------

  /** `CATEGORY_PRESETS[category]`: the preset terms of the built-in categories. */
  function Presets(category: string): Option<seq<string>>
  {
    if category == "tech" then Some(["Artificial Intelligence", "Web3 & Blockchain", "SpaceX Launch", "New Apple Event", "Quantum Computing", "EV Cars"])
    else if category == "design" then Some(["Minimalist UI", "Brutalism Trend", "Figma Plugins", "3D Web Design", "Typography 2024", "Glassmorphism"])
    else if category == "music" then Some(["Billboard Top 100", "New Album Releases", "Viral TikTok Songs", "LoFi Hip Hop", "Music Festivals", "Indie Rock"])
    else if category == "film" then Some(["Box Office Top 10", "Netflix New Series", "Oscar Winners", "Sci-Fi Movies", "Anime Season", "Documentaries"])
    else if category == "douyin" then Some(["抖音热搜榜", "热门挑战", "搞笑段子", "美食探店", "直播带货", "萌宠日常"])
    else if category == "weibo" then Some(["微博热搜", "社会新闻", "娱乐八卦", "科技数码", "体育赛事", "时尚美妆"])
    else if category == "redbook" then Some(["小红书热点", "OOTD", "护肤心得", "旅行攻略", "家居装修", "职场干货"])
    else None
  }

  /** The terms a category shows: its presets, or three made from its caption. */
  function PresetTerms(category: string, caption: string): (r: seq<string>)
    ensures Presets(category).Some? ==> r == Presets(category).value
    ensures Presets(category).None? ==> |r| == 3 && forall i :: 0 <= i < 3 ==> StartsWith(r[i], caption)
  {
    if Presets(category).Some? then Presets(category).value
    else
      var r := [caption + " News", caption + " Trends", caption + " Ideas"];
      assert forall i :: 0 <= i < 3 ==> r[i][..|caption|] == caption;
      r
  }

  /** The card of one preset term at position `i`, with a picture fixed by category and position. */
  function PresetItem(category: string, term: string, i: nat): TrendItem
  {
    TrendItem(term, "Explore " + term + ". Click to view directly.", ["Quick Access", category],
      term, "https://picsum.photos/seed/" + category + DecimalString(i) + "/400/300")
  }

  /**
   * The cards of direct mode: a typed query gives one card that searches for
   * it; otherwise every term of the category gives one card, in order.
   */
  function DirectItems(category: string, caption: string, query: string, encode: string -> string): (r: seq<TrendItem>)
    requires query != "" || category != "github"
    ensures query != "" ==> |r| == 1 && r[0].title == query && r[0].searchTerm == query
    ensures query == "" ==> |r| == |PresetTerms(category, caption)|
    ensures query == "" ==> forall i :: 0 <= i < |r| ==> r[i].searchTerm == PresetTerms(category, caption)[i] && r[i].title == r[i].searchTerm
  {
    if query != "" then
      [TrendItem(query, "Search for \"" + query + "\" directly.", ["Search", "Direct"], query,
        "https://picsum.photos/seed/" + encode(query) + "/400/300")]
    else
      var terms := PresetTerms(category, caption);
      seq(|terms|, i requires 0 <= i < |terms| => PresetItem(category, terms[i], i))
  }

  /**
   * Categories without presets show exactly their News, Trends and Ideas
   * cards. GitHub has no presets either, but never reaches direct mode
   * without a query (see `Fetch`).
   */
  lemma UnknownCategoryCards(category: string, caption: string, encode: string -> string)
    requires Presets(category).None? && category != "github"
    ensures var r := DirectItems(category, caption, "", encode);
      |r| == 3 && r[0].title == caption + " News" && r[1].title == caption + " Trends" && r[2].title == caption + " Ideas"
  {
  }

  /** Where `fetchTrends` takes its cards from. */
  datatype Feed =
    | GitHubTrending                               // the trending-repositories fetch
    | AiInspiration(caption: string, query: string) // the LLM service, asked about this caption and query
    | Direct(items: seq<TrendItem>)                // the direct-mode cards

  /**
   * `fetchTrends`: the GitHub channel without a query always fetches the
   * trending repositories, whatever the mode; otherwise AI mode asks the
   * service and direct mode builds its cards.
   */
  function Fetch(category: string, caption: string, query: string, useAi: bool, encode: string -> string): (r: Feed)
    ensures r.GitHubTrending? <==> category == "github" && query == ""
    ensures r.AiInspiration? <==> useAi && (category != "github" || query != "")
    ensures r.AiInspiration? ==> r.caption == caption && r.query == query
    ensures r.Direct? ==> r.items == DirectItems(category, caption, query, encode)
  {
    if category == "github" && query == "" then GitHubTrending
    else if useAi then AiInspiration(caption, query)
    else Direct(DirectItems(category, caption, query, encode))
  }

  /** Every card of a category's list has its own picture. */
  lemma PresetPicturesDistinct(category: string, caption: string, encode: string -> string, i: nat, j: nat)
    requires category != "github"
    requires var r := DirectItems(category, caption, "", encode); i < j < |r|
    ensures var r := DirectItems(category, caption, "", encode); r[i].img != r[j].img
  {
    var r := DirectItems(category, caption, "", encode);
    var prefix := "https://picsum.photos/seed/" + category;
    var a, b := DecimalString(i) + "/400/300", DecimalString(j) + "/400/300";
    assert r[i].img == prefix + a && r[j].img == prefix + b;
    if r[i].img == r[j].img {
      assert a == (prefix + a)[|prefix|..] && b == (prefix + b)[|prefix|..];
      assert DecimalString(i) == a[..|a| - 8] && DecimalString(j) == b[..|b| - 8];
      DecimalStringValue(i);
      DecimalStringValue(j);
    }
  }

  // ---------------------------------------------------------------------
  // Where a search term leads
  // ---------------------------------------------------------------------

  function EngineSearch(engine: Engine, term: string, encode: string -> string): string
  {
    match engine
    case Baidu => "https://www.baidu.com/s?wd=" + encode(term)
    case Bing => "https://www.bing.com/search?q=" + encode(term)
    case Google => "https://www.google.com/search?q=" + encode(term)
  }

  /** A term naming a hot list: it mentions 热搜 (trending) or 榜 (chart). */
  predicate IsHotList(term: string)
  {
    Contains(term, "热搜") || Contains(term, "榜")
  }

  /**
   * `openSearch`: the page a card or search opens. GitHub, Douyin, Weibo and
   * RedBook channels open their own site; any other channel uses the chosen
   * search engine.
   */
  function SearchUrl(category: string, engine: Engine, term: string, encode: string -> string): (r: string)
    ensures category == "github" ==> StartsWith(r, "https://github.com/")
    ensures category == "douyin" ==> StartsWith(r, "https://www.douyin.com/")
    ensures category == "weibo" ==> StartsWith(r, "https://s.weibo.com/")
    ensures category == "redbook" ==> StartsWith(r, "https://www.xiaohongshu.com/search_result?keyword=")
    ensures category !in {"github", "douyin", "weibo", "redbook"} ==> r == EngineSearch(engine, term, encode)
  {
    if category == "github" then
      if Contains(term, "/") || !Contains(term, " ") then "https://github.com/" + term
      else "https://github.com/search?q=" + encode(term) + "&type=repositories"
    else if category == "douyin" then
      if IsHotList(term) then "https://www.douyin.com/hot"
      else "https://www.douyin.com/search/" + encode(term)
    else if category == "weibo" then
      if IsHotList(term) then "https://s.weibo.com/top/summary"
      else "https://s.weibo.com/weibo?q=" + encode(term)
    else if category == "redbook" then
      "https://www.xiaohongshu.com/search_result?keyword=" + encode(term)
    else EngineSearch(engine, term, encode)
  }

  /** On GitHub a term with a slash, or a single word, is opened as a path; anything else is searched for. */
  lemma GitHubRouting(engine: Engine, term: string, encode: string -> string)
    ensures Contains(term, "/") || !Contains(term, " ") ==> SearchUrl("github", engine, term, encode) == "https://github.com/" + term
    ensures !Contains(term, "/") && Contains(term, " ") ==>
      SearchUrl("github", engine, term, encode) == "https://github.com/search?q=" + encode(term) + "&type=repositories"
  {
  }

  /** Douyin and Weibo open their hot list for a hot-list term and search otherwise; RedBook always searches. */
  lemma HotListRouting(engine: Engine, term: string, encode: string -> string)
    ensures IsHotList(term) ==> SearchUrl("douyin", engine, term, encode) == "https://www.douyin.com/hot"
    ensures IsHotList(term) ==> SearchUrl("weibo", engine, term, encode) == "https://s.weibo.com/top/summary"
    ensures !IsHotList(term) ==> SearchUrl("douyin", engine, term, encode) == "https://www.douyin.com/search/" + encode(term)
    ensures !IsHotList(term) ==> SearchUrl("weibo", engine, term, encode) == "https://s.weibo.com/weibo?q=" + encode(term)
  {
  }

  /** The every-channel preset terms of Douyin and Weibo that open the hot list. */
  lemma HotListPresets()
    ensures IsHotList("抖音热搜榜") && IsHotList("微博热搜") && !IsHotList("热门挑战")
  {
    assert OccursAt("抖音热搜榜", "热搜", 2);
    assert OccursAt("微博热搜", "热搜", 2);
    assert forall i :: 0 <= i <= 4 - 2 ==> !OccursAt("热门挑战", "热搜", i) by {
      forall i | 0 <= i <= 2 ensures !OccursAt("热门挑战", "热搜", i) {
        assert "热门挑战"[i..i + 2][1] == "热门挑战"[i + 1] != '搜';
      }
    }
    assert forall i :: 0 <= i <= 4 - 1 ==> !OccursAt("热门挑战", "榜", i) by {
      forall i | 0 <= i <= 3 ensures !OccursAt("热门挑战", "榜", i) {
        assert "热门挑战"[i..i + 1][0] == "热门挑战"[i] != '榜';
      }
    }
  }

  /** The engine's name as the search button shows it. */
  function EngineName(engine: Engine): (r: string)
    ensures r != ""
  {
    match engine
    case Baidu => "Baidu"
    case Bing => "Bing"
    case Google => "Google"
  }

  /** `getSearchActionLabel`: the caption of the search button. */
  function SearchActionLabel(category: string, engine: Engine): (r: string)
    ensures category == "github" ==> r == "View on GitHub"
    ensures category == "douyin" ==> r == "View on Douyin"
    ensures category == "weibo" ==> r == "View on Weibo"
    ensures category == "redbook" ==> r == "View on RedBook"
    ensures category !in {"github", "douyin", "weibo", "redbook"} ==> r == "Search on " + EngineName(engine)
  {
    if category == "github" then "View on GitHub"
    else if category == "douyin" then "View on Douyin"
    else if category == "weibo" then "View on Weibo"
    else if category == "redbook" then "View on RedBook"
    else "Search on " + EngineName(engine)
  }

  /**
   * The button says "View on" exactly for the categories `openSearch` sends to
   * their own site; for every other category it names the engine whose search
   * page opens, and different engines give different captions.
   */
  lemma ActionLabelMatchesRoute(category: string, engine: Engine, other: Engine, term: string, encode: string -> string)
    ensures StartsWith(SearchActionLabel(category, engine), "View on ") <==> category in {"github", "douyin", "weibo", "redbook"}
    ensures category !in {"github", "douyin", "weibo", "redbook"} ==>
      SearchUrl(category, engine, term, encode) == EngineSearch(engine, term, encode) &&
      (other != engine ==> SearchActionLabel(category, engine) != SearchActionLabel(category, other))
  {
    var r := SearchActionLabel(category, engine);
    if category !in {"github", "douyin", "weibo", "redbook"} {
      assert r[..8] == "Search o";
      if other != engine {
        var q := SearchActionLabel(category, other);
        assert r[10..] == EngineName(engine) && q[10..] == EngineName(other);
      }
    }
  }

  /** `channels.find(c => c.id === id)?.name`, empty when there is no such channel. */
  function LabelOf(cs: seq<Channel>, id: string): (r: string)
    ensures !HasId(cs, id) ==> r == ""
    ensures HasId(cs, id) ==> exists i :: 0 <= i < |cs| && cs[i].id == id && r == cs[i].name && !HasId(cs[..i], id)
  {
    if cs == [] then ""
    else if cs[0].id == id then
      assert cs[..0] == [];
      cs[0].name
    else
      var r := LabelOf(cs[1..], id);
      assert HasId(cs, id) ==> HasId(cs[1..], id) by {
        if HasId(cs, id) { var i :| 0 <= i < |cs| && cs[i].id == id; assert cs[1..][i - 1] == cs[i]; }
      }
      assert HasId(cs, id) ==> exists i :: 0 <= i < |cs| && cs[i].id == id && r == cs[i].name && !HasId(cs[..i], id) by {
        if HasId(cs, id) {
          var i :| 0 <= i < |cs[1..]| && cs[1..][i].id == id && r == cs[1..][i].name && !HasId(cs[1..][..i], id);
          assert cs[..i + 1] == [cs[0]] + cs[1..][..i];
          assert !HasId(cs[..i + 1], id);
        }
      }
      r
  }

  /** `getCurrentLabel`: the active channel's caption, else the search text, else the channel id. */
  function CurrentLabel(cs: seq<Channel>, active: string, query: string): (r: string)
    ensures LabelOf(cs, active) != "" ==> r == LabelOf(cs, active)
    ensures LabelOf(cs, active) == "" && query != "" ==> r == query
    ensures LabelOf(cs, active) == "" && query == "" ==> r == active
  {
    var l := LabelOf(cs, active);
    if l != "" then l else if query != "" then query else active
  }

  /** The caption the channel's cards are made from: its own caption, else its id. */
  function CategoryLabel(cs: seq<Channel>, active: string): string
  {
    var l := LabelOf(cs, active);
    if l != "" then l else active
  }

  /** A channel deleted or never added has no caption, so its cards fall back to its id. */
  lemma UnknownChannelLabel(cs: seq<Channel>, active: string)
    requires !HasId(cs, active)
    ensures CategoryLabel(cs, active) == active && CurrentLabel(cs, active, "") == active
  {
  }

  // ---------------------------------------------------------------------
  // The capsule's state
  // ---------------------------------------------------------------------

  datatype Snapshot = Snapshot(
    channels: seq<Channel>,
    draggedItemIndex: Option<nat>,
    activeCategory: string,
    newChannelName: string,
    showAddInput: bool,
    engine: Engine)

  class Capsule {
    var channels: seq<Channel>
    var draggedItemIndex: Option<nat>
    var activeCategory: string
    var newChannelName: string
    var showAddInput: bool
    var engine: Engine

    function State(): Snapshot
      reads this
    {
      Snapshot(channels, draggedItemIndex, activeCategory, newChannelName, showAddInput, engine)
    }

    /** The capsule as it opens, with the channel list read from storage (`None` when nothing was saved). */
    constructor (saved: Option<seq<Channel>>)
      ensures State() == Snapshot(InitialChannels(saved), None, "tech", "", false, Baidu)
    {
      channels := InitialChannels(saved);
      draggedItemIndex := None;
      activeCategory := "tech";
      newChannelName := "";
      showAddInput := false;
      engine := Baidu;
    }

    method DragStart(index: nat)
      modifies this
      ensures State() == old(State()).(draggedItemIndex := Some(index))
    {
      draggedItemIndex := Some(index);
    }

    /**
     * `handleDragOver`: with a drag in progress over another position, the
     * dragged channel moves there (the others keep their order) and the drag
     * follows it; otherwise nothing happens.
     */
    method DragOver(index: nat)
      requires draggedItemIndex.Some? && draggedItemIndex.value != index ==>
        draggedItemIndex.value < |channels| && index < |channels|
      modifies this
      ensures old(draggedItemIndex).None? || old(draggedItemIndex) == Some(index) ==> State() == old(State())
      ensures old(draggedItemIndex).Some? && old(draggedItemIndex) != Some(index) ==>
        State() == old(State()).(channels := Seqs.Move(old(channels), old(draggedItemIndex).value, index), draggedItemIndex := Some(index))
      ensures |channels| == |old(channels)| && multiset(channels) == multiset(old(channels))
    {
      if draggedItemIndex.None? || draggedItemIndex == Some(index) {
        return;
      }
      channels := Seqs.Move(channels, draggedItemIndex.value, index);
      draggedItemIndex := Some(index);
    }

    /** `handleDrop`: the drag ends where the channel now is. */
    method Drop()
      modifies this
      ensures State() == old(State()).(draggedItemIndex := None)
    {
      draggedItemIndex := None;
    }

    /**
     * `handleAddChannel`: a blank name does nothing; otherwise a channel with a
     * clock-made id and the trimmed name is appended and opened, and the input
     * is cleared and closed.
     */
    method AddChannel(now: nat)
      modifies this
      ensures Trim(old(newChannelName)) == "" ==> State() == old(State())
      ensures Trim(old(newChannelName)) != "" ==>
        var c := Channel("custom-" + DecimalString(now), Trim(old(newChannelName)));
        State() == old(State()).(channels := old(channels) + [c], newChannelName := "", showAddInput := false, activeCategory := c.id)
    {
      if Trim(newChannelName) == "" {
        return;
      }
      var c := Channel("custom-" + DecimalString(now), Trim(newChannelName));
      channels := channels + [c];
      newChannelName := "";
      showAddInput := false;
      activeCategory := c.id;
    }

    /**
     * `handleDeleteChannel`: every channel with the id goes; when the active one
     * went and some remain, the first remaining one becomes active.
     */
    method DeleteChannel(id: string)
      modifies this
      ensures channels == Seqs.Filter(old(channels), (c: Channel) => c.id != id)
      ensures !HasId(channels, id)
      ensures activeCategory == if old(activeCategory) == id && |channels| > 0 then channels[0].id else old(activeCategory)
      ensures State() == old(State()).(channels := channels, activeCategory := activeCategory)
    {
      var updated := Seqs.Filter(channels, (c: Channel) => c.id != id);
      channels := updated;
      if activeCategory == id && |updated| > 0 {
        activeCategory := updated[0].id;
      }
    }

    method SetEngine(e: Engine)
      modifies this
      ensures State() == old(State()).(engine := e)
    {
      engine := e;
    }
  }

  /** After deleting the active channel, the one that becomes active is a surviving channel. */
  lemma DeleteKeepsActiveValid(cs: seq<Channel>, id: string)
    requires var u := Seqs.Filter(cs, (c: Channel) => c.id != id); |u| > 0
    ensures var u := Seqs.Filter(cs, (c: Channel) => c.id != id); u[0].id != id && u[0] in cs
  {
    var u := Seqs.Filter(cs, (c: Channel) => c.id != id);
    assert u[0] in u;
  }
}
