/** The public page: its section-wise state, the merge of incoming records
    into it, and the mount / notify / unmount flow over the sync layer. */
module Home {
  import opened Wrappers
  import opened Records
  import opened LocalStore
  import DataService
  import PlayerDataService
  import MusicPlayer

  /** The page's eight pieces of state. */
  datatype Page = Page(
    player: Player,
    stats: Stats,
    skills: seq<Skill>,
    achievements: seq<Achievement>,
    contact: Contact,
    seo: Seo,
    mediaItems: seq<MediaItem>,
    music: Music)

  /** The page's initial SEO section, which differs from the default record's. */
  const InitialSeo: Seo := Seo(
    "Carlos Piquet | Atacante Profissional | Perfil Oficial",
    "Perfil oficial de Carlos Piquet, atacante profissional do FC Barcelona. Estatísticas, vídeos de destaque e informações para contato profissional.",
    "Carlos Piquet, atacante, futebol profissional, FC Barcelona, jogador brasileiro",
    "https://images.unsplash.com/photo-1579952363873-27f3bade9f55?w=1200&q=80")

  /** The page before any record arrives: the default player sections, its
      own SEO, no media, and silent music settings. */
  const InitialPage: Page := Page(
    DataService.DefaultData.player,
    DataService.DefaultData.stats,
    DataService.DefaultData.skills,
    DataService.DefaultData.achievements,
    DataService.DefaultData.contact,
    InitialSeo,
    [],
    Music("", false, 0.5))

  /** A record as `updateUIWithData` receives it: any section may be missing. */
  datatype Incoming = Incoming(
    player: Option<Player>,
    stats: Option<Stats>,
    skills: Option<seq<Skill>>,
    achievements: Option<seq<Achievement>>,
    contact: Option<Contact>,
    seo: Option<Seo>,
    mediaItems: Option<seq<MediaItem>>,
    backgroundMusic: Option<Music>)

  /** A full player record seen as incoming data: every section present
      except, possibly, the music. */
  function FromRecord(d: PlayerData): Incoming {
    Incoming(Some(d.player), Some(d.stats), Some(d.skills), Some(d.achievements),
             Some(d.contact), Some(d.seo), Some(d.mediaItems), d.backgroundMusic)
  }

  /** `updateUIWithData`: each present section replaces the page's, each
      absent one keeps the page's. An empty list is present (it is truthy). */
  function Merge(p: Page, inc: Incoming): (p': Page)
    ensures p'.player == inc.player.GetOr(p.player)
    ensures p'.stats == inc.stats.GetOr(p.stats)
    ensures p'.skills == inc.skills.GetOr(p.skills)
    ensures p'.achievements == inc.achievements.GetOr(p.achievements)
    ensures p'.contact == inc.contact.GetOr(p.contact)
    ensures p'.seo == inc.seo.GetOr(p.seo)
    ensures p'.mediaItems == inc.mediaItems.GetOr(p.mediaItems)
    ensures p'.music == inc.backgroundMusic.GetOr(p.music)
  {
    Page(
      if inc.player.Some? then inc.player.value else p.player,
      if inc.stats.Some? then inc.stats.value else p.stats,
      if inc.skills.Some? then inc.skills.value else p.skills,
      if inc.achievements.Some? then inc.achievements.value else p.achievements,
      if inc.contact.Some? then inc.contact.value else p.contact,
      if inc.seo.Some? then inc.seo.value else p.seo,
      if inc.mediaItems.Some? then inc.mediaItems.value else p.mediaItems,
      if inc.backgroundMusic.Some? then inc.backgroundMusic.value else p.music)
  }

  /** Merging the same data twice is merging it once. */
  lemma MergeIdempotent(p: Page, inc: Incoming)
    ensures Merge(Merge(p, inc), inc) == Merge(p, inc)
  {
  }

  /** Merging data with no sections changes nothing. */
  lemma MergeNothing(p: Page)
    ensures Merge(p, Incoming(None, None, None, None, None, None, None, None)) == p
  {
  }

  /** A full record with music determines the whole page, whatever was shown
      before; without music, everything but the music. */
  lemma MergeFullRecord(p: Page, q: Page, d: PlayerData)
    ensures d.backgroundMusic.Some? ==> Merge(p, FromRecord(d)) == Merge(q, FromRecord(d))
    ensures d.backgroundMusic.None? ==> Merge(p, FromRecord(d)) == Merge(q, FromRecord(d)).(music := p.music)
  {
  }

  /** Of two full records merged in turn, the later one wins. */
  lemma MergeLastWins(p: Page, d1: PlayerData, d2: PlayerData)
    requires d2.backgroundMusic.Some?
    ensures Merge(Merge(p, FromRecord(d1)), FromRecord(d2)) == Merge(p, FromRecord(d2))
  {
  }

  /** `loadFromLocalStorage`: merge the stored record if it parses; leave the
      page as it is when the key is absent or unusable. */
  function LoadFromLocalStorage(p: Page, s: Store): (p': Page)
    ensures DataService.StoredRecord(s).None? ==> p' == p
    ensures DataService.StoredRecord(s).Some? ==> p' == Merge(p, FromRecord(DataService.GetData(s)))
  {
    match DataService.StoredRecord(s)
    case None => p
    case Some(d) => Merge(p, FromRecord(d))
  }

  /** `loadData`: merge what `getPlayerData` resolved to; if that is null
      (the row's data column), `updateUIWithData` throws and the catch falls
      back to `loadFromLocalStorage`. */
  function LoadInitial(p: Page, fetched: Option<PlayerData>, s: Store): (p': Page)
    ensures fetched.Some? ==> p' == Merge(p, FromRecord(fetched.value))
    ensures fetched.None? ==> p' == LoadFromLocalStorage(p, s)
  {
    match fetched
    case Some(d) => Merge(p, FromRecord(d))
    case None => LoadFromLocalStorage(p, s)
  }

  /** The page together with its realtime subscription. */
  datatype Mounted = Mounted(page: Page, sub: PlayerDataService.Subscription)

  /** The mount effect: load through `getPlayerData` and subscribe. The table
      is the one the read sees (initialisation is started but not awaited). */
  function Mount(p: Page, configured: bool, readOk: bool, s: Store, t: PlayerDataService.Table): (m: Mounted)
    ensures !configured ==> m.page == Merge(p, FromRecord(DataService.GetData(s)))
    ensures configured && !readOk ==> m.page == Merge(p, FromRecord(DataService.GetData(s)))
    ensures configured && readOk && PlayerDataService.RowId !in t
            ==> m.page == Merge(p, FromRecord(DataService.GetData(s)))
    ensures configured && readOk && PlayerDataService.RowId in t && t[PlayerDataService.RowId].Some?
            ==> m.page == Merge(p, FromRecord(t[PlayerDataService.RowId].value))
    ensures configured && readOk && PlayerDataService.RowId in t && t[PlayerDataService.RowId].None?
            ==> m.page == LoadFromLocalStorage(p, s)
    ensures PlayerDataService.Listening(m.sub) <==> configured
  {
    var fetched := PlayerDataService.GetPlayerData(configured, readOk, s, t);
    Mounted(LoadInitial(p, fetched, s), PlayerDataService.Subscribe(configured))
  }

  /** Mounting the initial page without a backend: every section, the
      initial SEO included, is replaced by the local record's, and the
      silent music settings survive only when that record has none. */
  lemma MountFromInitialPage(readOk: bool, s: Store, t: PlayerDataService.Table)
    ensures var d := DataService.GetData(s);
            Mount(InitialPage, false, readOk, s, t).page
            == Page(d.player, d.stats, d.skills, d.achievements, d.contact, d.seo, d.mediaItems,
                    d.backgroundMusic.GetOr(InitialPage.music))
  {
  }

  /** The subscription callback: a notification that reaches it is merged
      exactly like the initial load. */
  function OnChange(m: Mounted, c: PlayerDataService.Change): (m': Mounted)
    ensures m'.sub == m.sub
    ensures PlayerDataService.Notify(m.sub, c).None? ==> m' == m
    ensures PlayerDataService.Notify(m.sub, c).Some? ==> m'.page == Merge(m.page, FromRecord(c.newData.value))
  {
    match PlayerDataService.Notify(m.sub, c)
    case None => m
    case Some(d) => m.(page := Merge(m.page, FromRecord(d)))
  }

  function OnChanges(m: Mounted, cs: seq<PlayerDataService.Change>): Mounted
    decreases |cs|
  {
    if |cs| == 0 then m else OnChanges(OnChange(m, cs[0]), cs[1..])
  }

  /** Merging a sequence of records in order. */
  function MergeAll(p: Page, ds: seq<PlayerData>): Page
    decreases |ds|
  {
    if |ds| == 0 then p else MergeAll(Merge(p, FromRecord(ds[0])), ds[1..])
  }

  /** The unmount cleanup: unsubscribe. */
  function Unmount(m: Mounted): (m': Mounted)
    ensures !PlayerDataService.Listening(m'.sub) && m'.page == m.page
  {
    m.(sub := PlayerDataService.Unsubscribe(m.sub))
  }

  /** A stream of notifications leaves the page as the in-order merge of the
      records the callback receives. */
  lemma {:induction false} OnChangesMergesNotifications(m: Mounted, cs: seq<PlayerDataService.Change>)
    ensures OnChanges(m, cs).sub == m.sub
    ensures OnChanges(m, cs).page == MergeAll(m.page, PlayerDataService.Notifications(m.sub, cs))
    decreases |cs|
  {
    if |cs| > 0 {
      OnChangesMergesNotifications(OnChange(m, cs[0]), cs[1..]);
    }
  }

  /** After unmounting, notifications no longer change the page. */
  lemma NoUpdatesAfterUnmount(m: Mounted, cs: seq<PlayerDataService.Change>)
    ensures OnChanges(Unmount(m), cs) == Unmount(m)
  {
    var u := Unmount(m);
    OnChangesMergesNotifications(u, cs);
    PlayerDataService.NothingAfterUnsubscribe(m.sub, cs);
  }

  /** The list handed to the gallery: the page's media, or `undefined` when
      that is empty, which makes the gallery use its built-in items. Either
      way the gallery receives at least one item. */
  function GalleryItems(p: Page): (items: seq<MediaItem>)
    ensures |items| >= 1
    ensures |p.mediaItems| > 0 ==> items == p.mediaItems
    ensures |p.mediaItems| == 0 ==> items == SampleMediaItems
  {
    if |p.mediaItems| > 0 then p.mediaItems else SampleMediaItems
  }

  /** The music player is mounted only for a non-empty URL, and the player
      itself renders only then too. */
  predicate ShowsMusicPlayer(p: Page) {
    p.music.url != ""
  }

  lemma MusicPlayerShownIffRenders(p: Page)
    ensures ShowsMusicPlayer(p) <==> MusicPlayer.Renders(p.music.url)
  {
  }

  /** A record whose media list is empty still shows the gallery's built-in items. */
  lemma EmptyMediaShowsBuiltIns(p: Page, d: PlayerData)
    requires d.mediaItems == []
    ensures GalleryItems(Merge(p, FromRecord(d))) == SampleMediaItems
  {
  }
}
